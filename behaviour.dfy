/**
 * The behaviour containers that documents and resources are composed of:
 * string-keyed bags of metadata, links and relationships, and append-only
 * lists of errors and included resources. Metadata and links refuse to
 * overwrite a present key and to read an absent one; relationships are
 * last-write-wins.
 */
module Behaviour {
  import opened JsonValues
  import opened OrderedMaps
  import opened Objects

  /** The failures a container reports; `owner` describes the entity that owns the container. */
  datatype ContainerError =
    | MetadataAttributeNotFound(owner: string, key: string)
    | MetadataAttributeOverride(owner: string, key: string)
    | LinkNotFound(owner: string, key: string)
    | LinkOverride(owner: string, key: string)

  /** The outcome of a setter that may refuse. */
  datatype Outcome = Pass | Fail(error: ContainerError)

  /** The outcome of a getter that may refuse. */
  datatype Result<+T> = Success(value: T) | Failure(error: ContainerError)

  /** Metadata: free-form key/value pairs that refuse silent overwrites. */
  class MetadataContainer {
    const owner: string
    var metadata: OrderedMap<Value>

    constructor (owner: string, metadata: OrderedMap<Value>)
      ensures this.owner == owner && this.metadata == metadata
    {
      this.owner := owner;
      this.metadata := metadata;
    }

    /** A silent probe: true exactly when some entry carries `key`. */
    function HasMetadataAttribute(key: string): (b: bool)
      reads this
      ensures b <==> exists i :: 0 <= i < |metadata| && metadata[i].0 == key
    {
      Has(metadata, key)
    }

    /** Reading an absent key fails with MetadataAttributeNotFound naming the owner and key. */
    function GetMetadataAttribute(key: string): (r: Result<Value>)
      reads this
      ensures r.Success? <==> HasMetadataAttribute(key)
      ensures r.Success? ==> (key, r.value) in metadata
      ensures r.Failure? ==> r.error == MetadataAttributeNotFound(owner, key)
    {
      if Has(metadata, key) then Success(Get(metadata, key))
      else Failure(MetadataAttributeNotFound(owner, key))
    }

    /**
     * Setting a present key fails with MetadataAttributeOverride and changes
     * nothing; setting an absent key appends it after the existing ones.
     */
    method SetMetadataAttribute(key: string, value: Value) returns (o: Outcome)
      modifies this
      ensures old(HasMetadataAttribute(key)) ==> o == Fail(MetadataAttributeOverride(owner, key)) && metadata == old(metadata)
      ensures !old(HasMetadataAttribute(key)) ==> o == Pass && metadata == old(metadata) + [(key, value)]
      ensures HasMetadataAttribute(key)
    {
      if Has(metadata, key) {
        o := Fail(MetadataAttributeOverride(owner, key));
      } else {
        PutThenGet(metadata, key, value);
        metadata := Put(metadata, key, value);
        o := Pass;
      }
    }

    /** Removing drops `key`, if present, and keeps the order of the rest; it never fails. */
    method RemoveMetadataAttribute(key: string)
      modifies this
      ensures metadata == Remove(old(metadata), key)
      ensures !HasMetadataAttribute(key)
    {
      metadata := Remove(metadata, key);
    }
  }

  /** Links: named link objects that refuse silent overwrites. */
  class LinksContainer {
    const owner: string
    var links: OrderedMap<LinkObject>

    constructor (owner: string)
      ensures this.owner == owner && links == []
    {
      this.owner := owner;
      links := [];
    }

    /** A silent probe: true exactly when some entry carries `name`. */
    function HasLink(name: string): (b: bool)
      reads this
      ensures b <==> exists i :: 0 <= i < |links| && links[i].0 == name
    {
      Has(links, name)
    }

    /** Reading an absent name fails with LinkNotFound naming the owner and name. */
    function GetLink(name: string): (r: Result<LinkObject>)
      reads this
      ensures r.Success? <==> HasLink(name)
      ensures r.Success? ==> (name, r.value) in links
      ensures r.Failure? ==> r.error == LinkNotFound(owner, name)
    {
      if Has(links, name) then Success(Get(links, name))
      else Failure(LinkNotFound(owner, name))
    }

    /**
     * Setting a present name fails with LinkOverride and changes nothing;
     * setting an absent name appends it after the existing ones.
     */
    method SetLink(name: string, link: LinkObject) returns (o: Outcome)
      modifies this
      ensures old(HasLink(name)) ==> o == Fail(LinkOverride(owner, name)) && links == old(links)
      ensures !old(HasLink(name)) ==> o == Pass && links == old(links) + [(name, link)]
      ensures HasLink(name)
    {
      if Has(links, name) {
        o := Fail(LinkOverride(owner, name));
      } else {
        PutThenGet(links, name, link);
        links := Put(links, name, link);
        o := Pass;
      }
    }

    /** Removing drops `name`, if present, and keeps the order of the rest; it never fails. */
    method RemoveLink(name: string)
      modifies this
      ensures links == Remove(old(links), name)
      ensures !HasLink(name)
    {
      links := Remove(links, name);
    }
  }

  /** Relationships: named relationships, last write wins. */
  class RelationshipsContainer {
    var relationships: OrderedMap<Relationship>

    constructor ()
      ensures relationships == []
    {
      relationships := [];
    }

    /** A silent probe: true exactly when some entry carries `name`. */
    function HasRelationship(name: string): (b: bool)
      reads this
      ensures b <==> exists i :: 0 <= i < |relationships| && relationships[i].0 == name
    {
      Has(relationships, name)
    }

    /** The relationship stored under a present name; there is no not-found path. */
    function GetRelationship(name: string): (r: Relationship)
      reads this
      requires HasRelationship(name)
      ensures (name, r) in relationships
    {
      Get(relationships, name)
    }

    /**
     * Stores `relationship` under `name` without complaint: a present name
     * keeps its position and only its value is replaced, an absent one is
     * appended; every other name keeps its entry.
     */
    method SetRelationship(name: string, relationship: Relationship)
      modifies this
      ensures relationships == Put(old(relationships), name, relationship)
      ensures Keys(relationships) == if old(HasRelationship(name)) then Keys(old(relationships)) else Keys(old(relationships)) + [name]
      ensures HasRelationship(name) && GetRelationship(name) == relationship
      ensures forall n :: n != name ==> (Has(relationships, n) <==> Has(old(relationships), n))
      ensures forall n :: n != name && Has(old(relationships), n) ==> Get(relationships, n) == Get(old(relationships), n)
    {
      PutKeyOrder(relationships, name, relationship);
      PutThenGet(relationships, name, relationship);
      PutKeepsAllOthers(relationships, name, relationship);
      relationships := Put(relationships, name, relationship);
    }
  }

  /** Errors: an append-only list. */
  class ErrorsContainer {
    var errors: seq<ErrorObject>

    constructor ()
      ensures errors == []
    {
      errors := [];
    }

    function HasErrors(): (b: bool)
      reads this
      ensures b <==> |errors| > 0
    {
      errors != []
    }

    /** Appends `error` after all earlier ones. */
    method AddError(error: ErrorObject)
      modifies this
      ensures errors == old(errors) + [error]
      ensures HasErrors() && errors[|errors| - 1] == error
    {
      errors := errors + [error];
    }
  }

  /**
   * Included resources: an append-only list. Duplicates are not filtered:
   * that is the caller's responsibility.
   */
  class IncludedResourcesContainer {
    var included: seq<EmbeddedResource>

    constructor ()
      ensures included == []
    {
      included := [];
    }

    function HasIncludedResources(): (b: bool)
      reads this
      ensures b <==> |included| > 0
    {
      included != []
    }

    /** Appends `resource` after all earlier ones. */
    method AddIncludedResource(resource: EmbeddedResource)
      modifies this
      ensures included == old(included) + [resource]
      ensures HasIncludedResources() && included[|included| - 1] == resource
    {
      included := included + [resource];
    }
  }
}
