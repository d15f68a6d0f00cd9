/**
 * What a single-resource document promises through a sequence of calls,
 * one scenario per behaviour its tests pin down. An object the tests
 * configure in no particular way (a plain resource, error or link) is a
 * parameter, so each scenario holds for every such object.
 */
module DocumentScenarios {
  import opened JsonValues
  import opened OrderedMaps
  import opened Objects
  import opened Behaviour
  import opened Documents

  /** The resource given to the constructor is the one the document holds. */
  method ResourceIsKept(resource: EmbeddedResource) returns (held: EmbeddedResource)
    ensures held == resource
  {
    var document := new SingleResourceDocument(resource);
    held := document.resource;
  }

  /** Metadata given to the constructor can be probed, read and listed. */
  method MetadataFromConstructor(resource: EmbeddedResource)
    returns (hasQwerty: bool, hasTest: bool, test: Result<Value>, all: OrderedMap<Value>)
    ensures !hasQwerty && hasTest
    ensures test == Success(Num(42))
    ensures all == [("test", Num(42))]
  {
    var document := new SingleResourceDocument(resource, [("test", Num(42))]);
    hasQwerty := document.base.metadata.HasMetadataAttribute("qwerty");
    hasTest := document.base.metadata.HasMetadataAttribute("test");
    test := document.base.metadata.GetMetadataAttribute("test");
    all := document.base.metadata.metadata;
  }

  /** A metadata attribute that was set is there until it is removed. */
  method MetadataRemove(resource: EmbeddedResource) returns (outcome: Outcome, before: bool, after: bool)
    ensures outcome == Pass && before && !after
  {
    var document := new SingleResourceDocument(resource);
    outcome := document.base.metadata.SetMetadataAttribute("test", Num(42));
    before := document.base.metadata.HasMetadataAttribute("test");
    document.base.metadata.RemoveMetadataAttribute("test");
    after := document.base.metadata.HasMetadataAttribute("test");
  }

  /** A removed metadata attribute can be set again, with a new value. */
  method MetadataSetAgain(resource: EmbeddedResource) returns (second: Outcome, test: Result<Value>)
    ensures second == Pass && test == Success(Num(2))
  {
    var document := new SingleResourceDocument(resource);
    var first := document.base.metadata.SetMetadataAttribute("test", Num(1));
    document.base.metadata.RemoveMetadataAttribute("test");
    second := document.base.metadata.SetMetadataAttribute("test", Num(2));
    test := document.base.metadata.GetMetadataAttribute("test");
  }

  /** A fresh document has no errors; an added error is then the only one. */
  method Errors(resource: EmbeddedResource, error: ErrorObject) returns (before: bool, after: bool, errors: seq<ErrorObject>)
    ensures !before && after && errors == [error]
  {
    var document := new SingleResourceDocument(resource);
    before := document.base.errors.HasErrors();
    document.base.errors.AddError(error);
    after := document.base.errors.HasErrors();
    errors := document.base.errors.errors;
  }

  /** `toArray()['errors']` lists each error's own `toArray()`. */
  method ToArrayErrors(resource: EmbeddedResource) returns (document: OrderedMap<Value>)
    ensures Has(document, "errors") && Get(document, "errors") == List([Object([("test", Str("123"))])])
  {
    var d := new SingleResourceDocument(resource);
    d.base.errors.AddError(ErrorObject([("test", Str("123"))]));
    document := d.ToArray();
    AssembleDocumentGet(d.base.jsonApi, d.base.metadata.metadata, d.base.links.links,
                        d.base.included.included, d.base.errors.errors, Object(resource.serialized), "errors");
  }

  /** A link that was set can be probed, read and listed. */
  method Links(resource: EmbeddedResource, link: LinkObject)
    returns (outcome: Outcome, hasQwerty: bool, hasTest: bool, test: Result<LinkObject>, all: OrderedMap<LinkObject>)
    ensures outcome == Pass && !hasQwerty && hasTest
    ensures test == Success(link)
    ensures all == [("test", link)]
  {
    var document := new SingleResourceDocument(resource);
    outcome := document.base.links.SetLink("test", link);
    hasQwerty := document.base.links.HasLink("qwerty");
    hasTest := document.base.links.HasLink("test");
    test := document.base.links.GetLink("test");
    all := document.base.links.links;
  }

  /** A link that was set is there until it is removed. */
  method LinkRemove(resource: EmbeddedResource, link: LinkObject) returns (before: bool, after: bool)
    ensures before && !after
  {
    var document := new SingleResourceDocument(resource);
    var outcome := document.base.links.SetLink("test", link);
    before := document.base.links.HasLink("test");
    document.base.links.RemoveLink("test");
    after := document.base.links.HasLink("test");
  }

  /** A link with metadata serialises as `href` and `meta`, before an empty `data`. */
  method ToArrayLinks() returns (document: OrderedMap<Value>)
    ensures document == [("links", Object([("test_link", Object([("href", Str("http://test_link.com")),
                                                                  ("meta", Object([("test", Num(123))]))]))])),
                         ("data", Object([]))]
  {
    var d := new SingleResourceDocument(EmbeddedResource([]));
    var link := LinkObject("http://test_link.com", [("test", Num(123))]);
    var outcome := d.base.links.SetLink("test_link", link);
    assert d.base.links.links == [("test_link", link)];
    assert d.base.metadata.metadata == [] && d.base.errors.errors == [] && d.base.included.included == [] && d.base.jsonApi == None;
    AssembleLinksOnly([("test_link", link)], Object([]));
    LinksToArraySingle("test_link", link);
    document := d.ToArray();
    assert document == AssembleDocument(None, [], [("test_link", link)], [], [], Object([]));
  }

  /** Metadata serialises under `meta`, before an empty `data`. */
  method ToArrayMetadata() returns (document: OrderedMap<Value>)
    ensures document == [("meta", Object([("test", Str("qwerty"))])), ("data", Object([]))]
  {
    var d := new SingleResourceDocument(EmbeddedResource([]));
    var outcome := d.base.metadata.SetMetadataAttribute("test", Str("qwerty"));
    AssembleMetaOnly([("test", Str("qwerty"))], Object([]));
    assert d.base.metadata.metadata == [("test", Str("qwerty"))];
    assert d.base.links.links == [] && d.base.errors.errors == [] && d.base.included.included == [] && d.base.jsonApi == None;
    document := d.ToArray();
    assert document == AssembleDocument(None, [("test", Str("qwerty"))], [], [], [], Object([]));
  }

  /** With nothing else set, `toArray()` is the resource's own `toArray()` under `data`. */
  method ToArrayResource() returns (document: OrderedMap<Value>)
    ensures document == [("data", Object([("test", Str("qwerty"))]))]
  {
    var d := new SingleResourceDocument(EmbeddedResource([("test", Str("qwerty"))]));
    AssembleDataOnly(Object([("test", Str("qwerty"))]));
    document := d.ToArray();
  }

  /** The jsonapi object that was set is the one the document holds. */
  method JsonApi(resource: EmbeddedResource) returns (held: Option<JsonApiObject>)
    ensures held == Some(JsonApiObject(DefaultVersion))
  {
    var document := new SingleResourceDocument(resource);
    document.base.SetJsonApi(JsonApiObject(DefaultVersion));
    held := document.base.jsonApi;
  }

  /** A fresh jsonapi object serialises as version 1.0, before an empty `data`. */
  method ToArrayJsonApi() returns (document: OrderedMap<Value>)
    ensures document == [("jsonapi", Object([("version", Str("1.0"))])), ("data", Object([]))]
  {
    var d := new SingleResourceDocument(EmbeddedResource([]));
    d.base.SetJsonApi(JsonApiObject(DefaultVersion));
    AssembleJsonApiOnly(JsonApiObject(DefaultVersion), Object([]));
    document := d.ToArray();
  }

  /** A fresh document has no included resources; an added one is then the only one. */
  method Included(resource: EmbeddedResource, included: EmbeddedResource)
    returns (before: bool, after: bool, all: seq<EmbeddedResource>)
    ensures !before && after && all == [included]
  {
    var document := new SingleResourceDocument(resource);
    before := document.base.included.HasIncludedResources();
    document.base.included.AddIncludedResource(included);
    after := document.base.included.HasIncludedResources();
    all := document.base.included.included;
  }

  /** Included resources serialise as a list under `included`, before an empty `data`. */
  method ToArrayIncluded() returns (document: OrderedMap<Value>)
    ensures document == [("included", List([Object([("test", Str("qwerty"))])])), ("data", Object([]))]
  {
    var d := new SingleResourceDocument(EmbeddedResource([]));
    d.base.included.AddIncludedResource(EmbeddedResource([("test", Str("qwerty"))]));
    assert d.base.included.included == [EmbeddedResource([("test", Str("qwerty"))])];
    assert d.base.metadata.metadata == [] && d.base.links.links == [] && d.base.errors.errors == [] && d.base.jsonApi == None;
    AssembleIncludedOnly([EmbeddedResource([("test", Str("qwerty"))])], Object([]));
    assert ToArrayList([EmbeddedResource([("test", Str("qwerty"))])], IncludedSerialized) == [Object([("test", Str("qwerty"))])];
    document := d.ToArray();
    assert document == AssembleDocument(None, [], [], [EmbeddedResource([("test", Str("qwerty"))])], [], Object([]));
  }

  /** Reading absent metadata fails, naming the document and the key. */
  method MissingMetadata(resource: EmbeddedResource) returns (test: Result<Value>)
    ensures test == Failure(MetadataAttributeNotFound("SingleResourceDocument", "test_attribute"))
  {
    var document := new SingleResourceDocument(resource);
    test := document.base.metadata.GetMetadataAttribute("test_attribute");
  }

  /** Setting present metadata again fails, naming the document and the key, and keeps the first value. */
  method MetadataOverrideRefused(resource: EmbeddedResource) returns (first: Outcome, second: Outcome, test: Result<Value>)
    ensures first == Pass
    ensures second == Fail(MetadataAttributeOverride("SingleResourceDocument", "test_attribute"))
    ensures test == Success(Num(1))
  {
    var document := new SingleResourceDocument(resource);
    first := document.base.metadata.SetMetadataAttribute("test_attribute", Num(1));
    second := document.base.metadata.SetMetadataAttribute("test_attribute", Num(2));
    test := document.base.metadata.GetMetadataAttribute("test_attribute");
  }

  /** Reading an absent link fails, naming the document and the link. */
  method MissingLink(resource: EmbeddedResource) returns (test: Result<LinkObject>)
    ensures test == Failure(LinkNotFound("SingleResourceDocument", "test_link"))
  {
    var document := new SingleResourceDocument(resource);
    test := document.base.links.GetLink("test_link");
  }

  /** Setting a present link again fails, naming the document and the link. */
  method LinkOverrideRefused(resource: EmbeddedResource, link: LinkObject) returns (first: Outcome, second: Outcome)
    ensures first == Pass
    ensures second == Fail(LinkOverride("SingleResourceDocument", "test_link"))
  {
    var document := new SingleResourceDocument(resource);
    first := document.base.links.SetLink("test_link", link);
    second := document.base.links.SetLink("test_link", link);
  }
}
