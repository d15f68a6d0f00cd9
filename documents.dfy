/**
 * Top-level documents. Every document carries metadata, links, errors,
 * included resources and an optional jsonapi object; a single-resource
 * document also carries its primary resource. `toArray()` lists each
 * non-empty section under its member name and omits the empty ones; the
 * primary data comes after all of them.
 */
module Documents {
  import opened JsonValues
  import opened OrderedMaps
  import opened Objects
  import opened Behaviour

  /** How each document kind describes itself in container failures. */
  const SingleResourceDocumentOwner: string := "SingleResourceDocument"
  const IdentifierCollectionDocumentOwner: string := "IdentifierCollectionDocument"

  /**
   * The position of a member name in the order a document serialises its
   * members: jsonapi, meta, links, included, errors, then data.
   */
  function Rank(name: string): nat
  {
    if name == "jsonapi" then 0
    else if name == "meta" then 1
    else if name == "links" then 2
    else if name == "included" then 3
    else if name == "errors" then 4
    else 5
  }

  /** A document's links, name by name, each in its serialised form. */
  function LinksToArray(links: OrderedMap<LinkObject>): (r: OrderedMap<Value>)
    ensures |r| == |links| && Keys(r) == Keys(links)
    ensures forall i :: 0 <= i < |links| ==> r[i] == (links[i].0, LinkToArray(links[i].1))
  {
    MapValues(links, LinkToArray)
  }

  /** The serialised form of each element, in order; used for errors and for included resources. */
  function ToArrayList<T>(xs: seq<T>, serialize: T -> OrderedMap<Value>): (r: seq<Value>)
    ensures |r| == |xs| && forall i :: 0 <= i < |xs| ==> r[i] == Object(serialize(xs[i]))
  {
    seq(|xs|, i requires 0 <= i < |xs| => Object(serialize(xs[i])))
  }

  /** How an error and an included resource reach their serialised form. */
  const ErrorSerialized: ErrorObject -> OrderedMap<Value> := (e: ErrorObject) => e.serialized
  const IncludedSerialized: EmbeddedResource -> OrderedMap<Value> := (r: EmbeddedResource) => r.serialized

  /** Appends member `name` only when its section is present. */
  function AddSection(acc: seq<(string, Value)>, present: bool, name: string, value: Value): seq<(string, Value)>
  {
    if present then acc + [(name, value)] else acc
  }

  /** Member names strictly increase in rank, so no name repeats. */
  ghost predicate Ranked(r: seq<(string, Value)>)
  {
    forall i, j :: 0 <= i < j < |r| ==> Rank(r[i].0) < Rank(r[j].0)
  }

  /** Every member ranks below `bound`. */
  ghost predicate RankedBelow(r: seq<(string, Value)>, bound: nat)
  {
    forall i :: 0 <= i < |r| ==> Rank(r[i].0) < bound
  }

  /** Appending a member ranked above all present ones keeps the order. */
  lemma AddSectionRanked(acc: seq<(string, Value)>, present: bool, name: string, value: Value, bound: nat)
    requires Ranked(acc) && RankedBelow(acc, bound) && bound <= Rank(name)
    ensures Ranked(AddSection(acc, present, name, value))
    ensures RankedBelow(AddSection(acc, present, name, value), Rank(name) + 1)
  {
  }

  /** Ranked member lists never repeat a name. */
  lemma RankedIsUnique(r: seq<(string, Value)>)
    requires Ranked(r)
    ensures UniqueKeys(r)
  {
  }

  /** The jsonapi member's value; `Null` stands in when there is none (it is then omitted). */
  function JsonApiValue(jsonApi: Option<JsonApiObject>): Value
  {
    if jsonApi.Some? then JsonApiToArray(jsonApi.value) else Null
  }

  /** The five optional sections in member order, each only when present. */
  function SectionChain(hasJsonApi: bool, jsonApi: Value, hasMeta: bool, meta: Value, hasLinks: bool, links: Value,
                        hasIncluded: bool, included: Value, hasErrors: bool, errors: Value): seq<(string, Value)>
  {
    var s0 := AddSection([], hasJsonApi, "jsonapi", jsonApi);
    var s1 := AddSection(s0, hasMeta, "meta", meta);
    var s2 := AddSection(s1, hasLinks, "links", links);
    var s3 := AddSection(s2, hasIncluded, "included", included);
    AddSection(s3, hasErrors, "errors", errors)
  }

  /** The chain comes in member order, all of it ranked below `data`. */
  lemma SectionChainRanked(hasJsonApi: bool, jsonApi: Value, hasMeta: bool, meta: Value, hasLinks: bool, links: Value,
                           hasIncluded: bool, included: Value, hasErrors: bool, errors: Value)
    ensures Ranked(SectionChain(hasJsonApi, jsonApi, hasMeta, meta, hasLinks, links, hasIncluded, included, hasErrors, errors))
    ensures RankedBelow(SectionChain(hasJsonApi, jsonApi, hasMeta, meta, hasLinks, links, hasIncluded, included, hasErrors, errors), 5)
  {
    var s0 := AddSection([], hasJsonApi, "jsonapi", jsonApi);
    AddSectionRanked([], hasJsonApi, "jsonapi", jsonApi, 0);
    var s1 := AddSection(s0, hasMeta, "meta", meta);
    AddSectionRanked(s0, hasMeta, "meta", meta, 1);
    var s2 := AddSection(s1, hasLinks, "links", links);
    AddSectionRanked(s1, hasLinks, "links", links, 2);
    var s3 := AddSection(s2, hasIncluded, "included", included);
    AddSectionRanked(s2, hasIncluded, "included", included, 3);
    AddSectionRanked(s3, hasErrors, "errors", errors, 4);
  }

  /** The members before `data`, in order, each only when present. */
  function Sections(jsonApi: Option<JsonApiObject>, meta: OrderedMap<Value>, links: OrderedMap<LinkObject>,
                    included: seq<EmbeddedResource>, errors: seq<ErrorObject>): seq<(string, Value)>
  {
    SectionChain(jsonApi.Some?, JsonApiValue(jsonApi), |meta| > 0, Object(meta), |links| > 0, Object(LinksToArray(links)),
                 |included| > 0, List(ToArrayList(included, IncludedSerialized)), |errors| > 0, List(ToArrayList(errors, ErrorSerialized)))
  }

  /**
   * `toArray()` of a document: the non-empty sections, then `data`. The
   * member list is in member order and `data` is always last.
   */
  function AssembleDocument(jsonApi: Option<JsonApiObject>, meta: OrderedMap<Value>, links: OrderedMap<LinkObject>,
                            included: seq<EmbeddedResource>, errors: seq<ErrorObject>, data: Value): (r: OrderedMap<Value>)
    ensures |r| > 0 && r[|r| - 1] == ("data", data)
    ensures forall i, j :: 0 <= i < j < |r| ==> Rank(r[i].0) < Rank(r[j].0)
  {
    var sections := Sections(jsonApi, meta, links, included, errors);
    SectionChainRanked(jsonApi.Some?, JsonApiValue(jsonApi), |meta| > 0, Object(meta), |links| > 0, Object(LinksToArray(links)),
                       |included| > 0, List(ToArrayList(included, IncludedSerialized)), |errors| > 0, List(ToArrayList(errors, ErrorSerialized)));
    AddSectionRanked(sections, true, "data", data, 5);
    RankedIsUnique(AddSection(sections, true, "data", data));
    AddSection(sections, true, "data", data)
  }

  /**
   * What `toArray()` holds under `name`, read member by member: each
   * section when it is non-empty, `data` always, nothing else.
   */
  function DocumentMember(jsonApi: Option<JsonApiObject>, meta: OrderedMap<Value>, links: OrderedMap<LinkObject>,
                          included: seq<EmbeddedResource>, errors: seq<ErrorObject>, data: Value, name: string): Option<Value>
  {
    if name == "jsonapi" then (if jsonApi.Some? then Some(JsonApiToArray(jsonApi.value)) else None)
    else if name == "meta" then (if |meta| > 0 then Some(Object(meta)) else None)
    else if name == "links" then (if |links| > 0 then Some(Object(LinksToArray(links))) else None)
    else if name == "included" then (if |included| > 0 then Some(List(ToArrayList(included, IncludedSerialized))) else None)
    else if name == "errors" then (if |errors| > 0 then Some(List(ToArrayList(errors, ErrorSerialized))) else None)
    else if name == "data" then Some(data)
    else None
  }

  /** A member of the chain is one of the present sections under its own name. */
  lemma SectionChainMember(hasJsonApi: bool, jsonApi: Value, hasMeta: bool, meta: Value, hasLinks: bool, links: Value,
                           hasIncluded: bool, included: Value, hasErrors: bool, errors: Value, name: string, value: Value)
    ensures (name, value) in SectionChain(hasJsonApi, jsonApi, hasMeta, meta, hasLinks, links, hasIncluded, included, hasErrors, errors)
            <==> (hasJsonApi && (name, value) == ("jsonapi", jsonApi)) || (hasMeta && (name, value) == ("meta", meta))
                 || (hasLinks && (name, value) == ("links", links)) || (hasIncluded && (name, value) == ("included", included))
                 || (hasErrors && (name, value) == ("errors", errors))
  {
  }

  /** `AssembleDocument` holds exactly the members `DocumentMember` describes. */
  lemma AssembleDocumentMember(jsonApi: Option<JsonApiObject>, meta: OrderedMap<Value>, links: OrderedMap<LinkObject>,
                               included: seq<EmbeddedResource>, errors: seq<ErrorObject>, data: Value, name: string, value: Value)
    ensures (name, value) in AssembleDocument(jsonApi, meta, links, included, errors, data)
            <==> DocumentMember(jsonApi, meta, links, included, errors, data, name) == Some(value)
  {
    SectionChainMember(jsonApi.Some?, JsonApiValue(jsonApi), |meta| > 0, Object(meta), |links| > 0, Object(LinksToArray(links)),
                       |included| > 0, List(ToArrayList(included, IncludedSerialized)), |errors| > 0, List(ToArrayList(errors, ErrorSerialized)), name, value);
  }

  /** Read by name, `AssembleDocument` has a member exactly where `DocumentMember` has one, with its value. */
  lemma AssembleDocumentGet(jsonApi: Option<JsonApiObject>, meta: OrderedMap<Value>, links: OrderedMap<LinkObject>,
                            included: seq<EmbeddedResource>, errors: seq<ErrorObject>, data: Value, name: string)
    ensures Has(AssembleDocument(jsonApi, meta, links, included, errors, data), name)
            <==> DocumentMember(jsonApi, meta, links, included, errors, data, name).Some?
    ensures DocumentMember(jsonApi, meta, links, included, errors, data, name).Some? ==>
            Get(AssembleDocument(jsonApi, meta, links, included, errors, data), name)
            == DocumentMember(jsonApi, meta, links, included, errors, data, name).value
  {
    var r := AssembleDocument(jsonApi, meta, links, included, errors, data);
    var e := DocumentMember(jsonApi, meta, links, included, errors, data, name);
    if Has(r, name) {
      var i := IndexOf(r, name);
      AssembleDocumentMember(jsonApi, meta, links, included, errors, data, name, r[i].1);
    }
    if e.Some? {
      AssembleDocumentMember(jsonApi, meta, links, included, errors, data, name, e.value);
      MemberIsGet(r, name, e.value);
    }
  }

  /** The quantified form of `AssembleDocumentMember`. */
  lemma AssembleDocumentMembers(jsonApi: Option<JsonApiObject>, meta: OrderedMap<Value>, links: OrderedMap<LinkObject>,
                                included: seq<EmbeddedResource>, errors: seq<ErrorObject>, data: Value)
    ensures forall name, value ::
              ((name, value) in AssembleDocument(jsonApi, meta, links, included, errors, data)
               <==> DocumentMember(jsonApi, meta, links, included, errors, data, name) == Some(value))
  {
    forall name, value
      ensures (name, value) in AssembleDocument(jsonApi, meta, links, included, errors, data)
              <==> DocumentMember(jsonApi, meta, links, included, errors, data, name) == Some(value)
    {
      AssembleDocumentMember(jsonApi, meta, links, included, errors, data, name, value);
    }
  }

  /** With no section set, a document is its `data` alone. */
  lemma AssembleDataOnly(data: Value)
    ensures AssembleDocument(None, [], [], [], [], data) == [("data", data)]
  {
  }

  /** With only a jsonapi object set, a document is that object, then `data`. */
  lemma AssembleJsonApiOnly(j: JsonApiObject, data: Value)
    ensures AssembleDocument(Some(j), [], [], [], [], data) == [("jsonapi", JsonApiToArray(j)), ("data", data)]
  {
  }

  /** With only metadata set, a document is its `meta`, then `data`. */
  lemma AssembleMetaOnly(meta: OrderedMap<Value>, data: Value)
    requires |meta| > 0
    ensures AssembleDocument(None, meta, [], [], [], data) == [("meta", Object(meta)), ("data", data)]
  {
  }

  /** With only links set, a document is its `links`, each link serialised, then `data`. */
  lemma AssembleLinksOnly(links: OrderedMap<LinkObject>, data: Value)
    requires |links| > 0
    ensures AssembleDocument(None, [], links, [], [], data) == [("links", Object(LinksToArray(links))), ("data", data)]
  {
  }

  /** A single link serialises to a single member under its name. */
  lemma LinksToArraySingle(name: string, link: LinkObject)
    ensures LinksToArray([(name, link)]) == [(name, LinkToArray(link))]
  {
    var r := LinksToArray([(name, link)]);
    assert r[0] == (name, LinkToArray(link));
  }

  /** With only included resources, a document is its `included` list, then `data`. */
  lemma AssembleIncludedOnly(included: seq<EmbeddedResource>, data: Value)
    requires |included| > 0
    ensures AssembleDocument(None, [], [], included, [], data) == [("included", List(ToArrayList(included, IncludedSerialized))), ("data", data)]
  {
  }

  /**
   * The sections every document carries. A concrete document owns one of
   * these, as a PHP document class extends the abstract document.
   */
  class AbstractDocument {
    const metadata: MetadataContainer
    const links: LinksContainer
    const errors: ErrorsContainer
    const included: IncludedResourcesContainer
    var jsonApi: Option<JsonApiObject>

    /** The metadata is exactly `metadata`; every other section is empty. */
    constructor (owner: string, metadata: OrderedMap<Value>)
      ensures fresh(this.metadata) && fresh(links) && fresh(errors) && fresh(included)
      ensures this.metadata.owner == owner && this.metadata.metadata == metadata
      ensures links.owner == owner && links.links == []
      ensures errors.errors == [] && included.included == [] && jsonApi == None
    {
      this.metadata := new MetadataContainer(owner, metadata);
      links := new LinksContainer(owner);
      errors := new ErrorsContainer();
      included := new IncludedResourcesContainer();
      jsonApi := None;
    }

    /** `setJsonApi`: the document now carries `j`; nothing else changes. */
    method SetJsonApi(j: JsonApiObject)
      modifies this
      ensures jsonApi == Some(j)
    {
      jsonApi := Some(j);
    }
  }

  /** A document whose primary data is one resource. */
  class SingleResourceDocument {
    const resource: EmbeddedResource
    const base: AbstractDocument

    /** `new SingleResourceDocument(resource, metadata = [])`. */
    constructor (resource: EmbeddedResource, metadata: OrderedMap<Value> := [])
      ensures this.resource == resource
      ensures fresh(base) && fresh(base.metadata) && fresh(base.links) && fresh(base.errors) && fresh(base.included)
      ensures base.metadata.owner == SingleResourceDocumentOwner && base.metadata.metadata == metadata
      ensures base.links.owner == SingleResourceDocumentOwner && base.links.links == []
      ensures base.errors.errors == [] && base.included.included == [] && base.jsonApi == None
    {
      this.resource := resource;
      base := new AbstractDocument(SingleResourceDocumentOwner, metadata);
    }

    /**
     * `toArray()`: each non-empty section of the document under its member
     * name, in member order, and last the resource's own `toArray()` as
     * `data`. It reads the state and changes nothing.
     */
    function ToArray(): (r: OrderedMap<Value>)
      reads this, base, base.metadata, base.links, base.errors, base.included
      ensures |r| > 0 && r[|r| - 1] == ("data", Object(resource.serialized))
      ensures forall i, j :: 0 <= i < j < |r| ==> Rank(r[i].0) < Rank(r[j].0)
      ensures forall name, value ::
                ((name, value) in r <==>
                 DocumentMember(base.jsonApi, base.metadata.metadata, base.links.links,
                                base.included.included, base.errors.errors, Object(resource.serialized), name) == Some(value))
    {
      AssembleDocumentMembers(base.jsonApi, base.metadata.metadata, base.links.links,
                              base.included.included, base.errors.errors, Object(resource.serialized));
      AssembleDocument(base.jsonApi, base.metadata.metadata, base.links.links,
                       base.included.included, base.errors.errors, Object(resource.serialized))
    }
  }

  /** A document whose primary data is a collection of resource identifiers. */
  class IdentifierCollectionDocument {
    const base: AbstractDocument

    /**
     * `new IdentifierCollectionDocument(metadata = [])` only assigns the
     * metadata: it is exactly the given map, and links, errors, included
     * resources and the jsonapi object start out empty.
     */
    constructor (metadata: OrderedMap<Value> := [])
      ensures fresh(base) && fresh(base.metadata) && fresh(base.links) && fresh(base.errors) && fresh(base.included)
      ensures base.metadata.owner == IdentifierCollectionDocumentOwner && base.metadata.metadata == metadata
      ensures base.links.owner == IdentifierCollectionDocumentOwner && base.links.links == []
      ensures base.errors.errors == [] && base.included.included == [] && base.jsonApi == None
    {
      base := new AbstractDocument(IdentifierCollectionDocumentOwner, metadata);
    }
  }
}
