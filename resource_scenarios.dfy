/**
 * What a resource object and an identifier-collection document promise
 * through a sequence of calls. A relationship or link the tests configure
 * in no particular way is a parameter, so each scenario holds for all of
 * them.
 */
module ResourceScenarios {
  import opened JsonValues
  import opened OrderedMaps
  import opened Objects
  import opened Behaviour
  import opened Resources
  import opened Documents

  /** The id and type given to the constructor are the ones the resource reports. */
  method Basics() returns (id: string, resourceType: string)
    ensures id == "42" && resourceType == "test"
  {
    var resource := new ResourceObject("42", "test");
    id := resource.id;
    resourceType := resource.resourceType;
  }

  /** Attributes given to the constructor can be probed, read and listed. */
  method Attributes() returns (hasQwerty: bool, hasTest: bool, test: Value, all: OrderedMap<Value>)
    ensures !hasQwerty && hasTest && test == Num(42)
    ensures all == [("test", Num(42))]
  {
    var resource := new ResourceObject("42", "test", [("test", Num(42))]);
    hasQwerty := resource.HasAttribute("qwerty");
    hasTest := resource.HasAttribute("test");
    test := resource.GetAttribute("test");
    all := resource.attributes;
  }

  /** Setting an attribute that was given to the constructor replaces its value in place. */
  method AttributeReplaced() returns (all: OrderedMap<Value>)
    ensures all == [("test", Num(42)), ("name", Str("qwerty"))]
  {
    var resource := new ResourceObject("42", "test", [("test", Num(1)), ("name", Str("qwerty"))]);
    resource.SetAttribute("test", Num(42));
    all := resource.attributes;
  }

  /** Metadata given to the constructor can be probed, read and listed. */
  method Metadata() returns (hasQwerty: bool, hasTest: bool, test: Result<Value>, all: OrderedMap<Value>)
    ensures !hasQwerty && hasTest && test == Success(Num(42))
    ensures all == [("test", Num(42))]
  {
    var resource := new ResourceObject("42", "test", [], [("test", Num(42))]);
    hasQwerty := resource.metadata.HasMetadataAttribute("qwerty");
    hasTest := resource.metadata.HasMetadataAttribute("test");
    test := resource.metadata.GetMetadataAttribute("test");
    all := resource.metadata.metadata;
  }

  /** A link that was set can be probed, read and listed. */
  method Links(link: LinkObject)
    returns (outcome: Outcome, hasQwerty: bool, hasTest: bool, test: Result<LinkObject>, all: OrderedMap<LinkObject>)
    ensures outcome == Pass && !hasQwerty && hasTest && test == Success(link)
    ensures all == [("test", link)]
  {
    var resource := new ResourceObject("42", "test");
    outcome := resource.links.SetLink("test", link);
    hasQwerty := resource.links.HasLink("qwerty");
    hasTest := resource.links.HasLink("test");
    test := resource.links.GetLink("test");
    all := resource.links.links;
  }

  /** A relationship that was set can be probed, read and listed. */
  method Relationships(relationship: Relationship)
    returns (hasQwerty: bool, hasTest: bool, test: Relationship, all: OrderedMap<Relationship>)
    ensures !hasQwerty && hasTest && test == relationship
    ensures all == [("test", relationship)]
  {
    var resource := new ResourceObject("42", "test");
    resource.relationships.SetRelationship("test", relationship);
    hasQwerty := resource.relationships.HasRelationship("qwerty");
    hasTest := resource.relationships.HasRelationship("test");
    test := resource.relationships.GetRelationship("test");
    all := resource.relationships.relationships;
  }

  /** Setting a relationship again silently replaces it, under the same single name. */
  method RelationshipReplaced(first: Relationship, second: Relationship)
    returns (test: Relationship, all: OrderedMap<Relationship>)
    ensures test == second
    ensures all == [("test", second)]
  {
    var resource := new ResourceObject("42", "test");
    resource.relationships.SetRelationship("test", first);
    resource.relationships.SetRelationship("test", second);
    test := resource.relationships.GetRelationship("test");
    all := resource.relationships.relationships;
  }

  /** A fresh resource has no links and no relationships. */
  method FreshResource() returns (link: Result<LinkObject>, hasRelationship: bool)
    ensures link == Failure(LinkNotFound("ResourceObject", "test"))
    ensures !hasRelationship
  {
    var resource := new ResourceObject("42", "test");
    link := resource.links.GetLink("test");
    hasRelationship := resource.relationships.HasRelationship("test");
  }

  /** An identifier-collection document holds exactly the metadata it was made with. */
  method IdentifierCollectionMetadata() returns (hasQwerty: bool, test: Result<Value>, all: OrderedMap<Value>)
    ensures !hasQwerty && test == Success(Num(42))
    ensures all == [("test", Num(42))]
  {
    var document := new IdentifierCollectionDocument([("test", Num(42))]);
    hasQwerty := document.base.metadata.HasMetadataAttribute("qwerty");
    test := document.base.metadata.GetMetadataAttribute("test");
    all := document.base.metadata.metadata;
  }

  /** By default an identifier-collection document has no metadata, links, errors or included resources. */
  method IdentifierCollectionDefaults()
    returns (test: Result<Value>, hasLinks: bool, hasErrors: bool, hasIncluded: bool, jsonApi: Option<JsonApiObject>)
    ensures test == Failure(MetadataAttributeNotFound("IdentifierCollectionDocument", "test"))
    ensures !hasLinks && !hasErrors && !hasIncluded && jsonApi == None
  {
    var document := new IdentifierCollectionDocument();
    test := document.base.metadata.GetMetadataAttribute("test");
    hasLinks := document.base.links.links != [];
    hasErrors := document.base.errors.HasErrors();
    hasIncluded := document.base.included.HasIncludedResources();
    jsonApi := document.base.jsonApi;
  }
}
