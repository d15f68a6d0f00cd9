/**
 * A resource object: its identifier (id and type), its attributes, and the
 * metadata, links and relationships containers it is composed of.
 */
module Resources {
  import opened JsonValues
  import opened OrderedMaps
  import opened Behaviour

  /** How a resource object describes itself in container failures. */
  const ResourceOwner: string := "ResourceObject"

  class ResourceObject {
    const id: string
    const resourceType: string
    var attributes: OrderedMap<Value>
    const metadata: MetadataContainer
    const links: LinksContainer
    const relationships: RelationshipsContainer

    /**
     * `new ResourceObject(id, type, attributes = [], metadata = [])`: the
     * attributes and metadata are exactly the given maps; there are no links
     * and no relationships yet.
     */
    constructor (id: string, resourceType: string, attributes: OrderedMap<Value> := [], metadata: OrderedMap<Value> := [])
      ensures this.id == id && this.resourceType == resourceType
      ensures this.attributes == attributes
      ensures fresh(this.metadata) && fresh(links) && fresh(relationships)
      ensures this.metadata.owner == ResourceOwner && this.metadata.metadata == metadata
      ensures links.owner == ResourceOwner && links.links == []
      ensures relationships.relationships == []
    {
      this.id := id;
      this.resourceType := resourceType;
      this.attributes := attributes;
      this.metadata := new MetadataContainer(ResourceOwner, metadata);
      links := new LinksContainer(ResourceOwner);
      relationships := new RelationshipsContainer();
    }

    /** A silent probe: true exactly when some attribute is named `name`. */
    function HasAttribute(name: string): (b: bool)
      reads this
      ensures b <==> exists i :: 0 <= i < |attributes| && attributes[i].0 == name
    {
      Has(attributes, name)
    }

    /** The value of a present attribute. */
    function GetAttribute(name: string): (v: Value)
      reads this
      requires HasAttribute(name)
      ensures (name, v) in attributes
    {
      Get(attributes, name)
    }

    /**
     * Sets an attribute without override protection: a present name keeps
     * its position and gets the new value, an absent one is appended; no
     * other attribute changes.
     */
    method SetAttribute(name: string, value: Value)
      modifies this
      ensures attributes == Put(old(attributes), name, value)
      ensures HasAttribute(name) && GetAttribute(name) == value
      ensures forall n :: n != name ==> (Has(attributes, n) <==> Has(old(attributes), n))
      ensures forall n :: n != name && Has(old(attributes), n) ==> Get(attributes, n) == Get(old(attributes), n)
    {
      PutThenGet(attributes, name, value);
      PutKeepsAllOthers(attributes, name, value);
      attributes := Put(attributes, name, value);
    }
  }
}
