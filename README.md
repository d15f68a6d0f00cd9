# JSON:API document object model

This project models the in-memory document object model of the PHP
library `mikemirten/JsonApi`, and proves properties about it. The model covers:

- the behaviour containers that documents and resource objects mix in. They hold metadata, links, relationships, errors and included resources.
- the resource object, with its id, type and attributes.
- the single-resource document, with its `toArray()` serialisation.
- the identifier-collection document's constructor.

Files:

- `ordered_maps.dfy` (`OrderedMaps`) models a PHP string-keyed array as a
  sequence of `(key, value)` pairs whose keys are unique.
  - `Put` is `$a[$k] = $v`. A present key keeps its position and an absent key is appended.
  - `Remove` is `unset($a[$k])`.
  - `Has` is `array_key_exists`: a key holding `null` counts as present. This agrees with `isset` whenever the stored value is not null, as for the relationship objects that `isset` probes.
  - `Get` is reading `$a[$k]`.
  - Lemmas relate the operations: read-after-write, other keys untouched,
    key order, last write wins, and remove-after-append restores the map.
- `json_values.dfy` (`JsonValues`) holds the value space of a serialised document:
  null, booleans, integers, strings, lists and ordered maps.
- `objects.dfy` (`Objects`) holds the value objects:
  - A link is its reference and its metadata. It serialises as `{href, meta}`, or as `{href}` when it has no metadata.
  - The jsonapi object announces version `1.0`.
  - Errors, relationships and resources embedded in a document are known only by what their own `toArray()` returns.
- `behaviour.dfy` (`Behaviour`) holds one class per behaviour trait:
  - Metadata and links refuse to read an absent key and to overwrite a present one. The failure names the owning entity and the key.
  - Relationships are last-write-wins.
  - Errors and included resources are append-only lists.
- `resource_object.dfy` (`Resources`) holds the resource object, which is composed of metadata, links and relationships containers.
- `documents.dfy` (`Documents`) holds the documents:
  - A document owns an `AbstractDocument` with metadata, links, errors, included resources and an optional jsonapi object.
  - `SingleResourceDocument.ToArray` lists each non-empty section under its member name, in a fixed order, with `data` last.
  - `DocumentMember` is an independent, name-by-name reference for `toArray()`. The lemmas prove that the assembled member list holds exactly those members.
- `document_scenarios.dfy` and `resource_scenarios.dfy` hold scenarios: short call sequences, each a method whose postcondition
  states the outcome. Most replay one of the library's tests and state what it asserts. Some go further than
  their test, and their "## Model" rows say where: `MetadataSetAgain`, `MetadataOverrideRefused`,
  `AttributeReplaced`, `RelationshipReplaced` and `FreshResource`.
  An object the test takes as an unconfigured mock is a parameter, so the scenario holds for every such object.

A PHP trait becomes a class that the owning entity holds in a field. For
example, `$document->setLink(...)` is `document.base.links.SetLink(...)`.
A whole-collection getter such as `getMetadata()` or `getRelationships()` is
the container's field read directly. An exception is a `Failure`/`Fail`
value naming the error kind, the owner (`"SingleResourceDocument"`,
`"ResourceObject"`, `"IdentifierCollectionDocument"`) and the key.

The tests of `toArray()` compare whole arrays, order included, but each sets
one section only. They pin that `jsonapi`, `meta`, `links` and `included`
each come before `data` (`tests/Document/SingleResourceDocumentTest.php:126-137`,
`147-153`, `199-205`, `237-245`). The errors test (`79-82`) reads only the
`errors` member. The order among several optional sections, and the position
of `errors`, are therefore assumptions of the model: it uses `jsonapi`,
`meta`, `links`, `included`, `errors`, then `data` (see "## Left out").

## Model

| member | source | states |
|---|---|---|
| OrderedMaps.Has | src/Document/Behaviour/RelationshipsContainer.php:41-44 | a key is present exactly when some entry carries it (`array_key_exists`; equal to `isset` for non-null values) |
| OrderedMaps.Get | src/Document/Behaviour/RelationshipsContainer.php:52-55 | reading a present key yields a value stored under that key |
| OrderedMaps.Put | src/Document/Behaviour/RelationshipsContainer.php:30-33 | assigning a present key replaces only that entry's value in place; assigning an absent key appends it; keys stay unique |
| OrderedMaps.Remove | tests/Document/SingleResourceDocumentTest.php:47-49 | unsetting drops the key's entry and keeps the others in order; an absent key leaves the map as it was |
| OrderedMaps.MemberIsGet | src/Document/Behaviour/RelationshipsContainer.php:52-55 | a stored pair is the one a read returns, since keys are unique |
| OrderedMaps.PutThenGet | src/Document/Behaviour/RelationshipsContainer.php:30-33 | after an assignment the key is present and reads back the assigned value |
| OrderedMaps.PutKeepsOthers | src/Document/Behaviour/RelationshipsContainer.php:30-33 | an assignment leaves every other key's presence and value unchanged |
| OrderedMaps.PutKeepsAllOthers | src/Document/Behaviour/RelationshipsContainer.php:30-33 | the same, for all other keys at once |
| OrderedMaps.PutKeyOrder | src/Document/Behaviour/RelationshipsContainer.php:30-33 | the key order after an assignment is unchanged for a present key, and has the new key last otherwise |
| OrderedMaps.PutPut | src/Document/Behaviour/RelationshipsContainer.php:30-33 | last write wins: two assignments to one key equal the second alone |
| OrderedMaps.RemoveBefore | tests/Document/SingleResourceDocumentTest.php:111-113 | entries before the removed one keep their positions |
| OrderedMaps.RemoveAfter | tests/Document/SingleResourceDocumentTest.php:111-113 | entries after the removed one move down by one |
| OrderedMaps.RemoveKeepsOtherKeys | tests/Document/SingleResourceDocumentTest.php:111-113 | removal keeps the presence of every other key |
| OrderedMaps.RemoveKeepsOtherValues | tests/Document/SingleResourceDocumentTest.php:111-113 | removal keeps the value of every other key |
| OrderedMaps.RemoveAppended | tests/Document/SingleResourceDocumentTest.php:43-49 | removing a key that was just set on a map lacking it gives back the original map |
| Objects.JsonApiToArray | tests/Document/SingleResourceDocumentTest.php:201 | the jsonapi object serialises with `version` as its only member, holding its version |
| Objects.LinkToArray | tests/Document/SingleResourceDocumentTest.php:128-133 | a link serialises with `href` first, holding its reference, and `meta`, holding its metadata, present exactly when it has metadata |
| Behaviour.MetadataContainer.constructor | tests/Document/SingleResourceDocumentTest.php:26 | the container holds exactly the given metadata for the given owner |
| Behaviour.MetadataContainer.HasMetadataAttribute | tests/Document/SingleResourceDocumentTest.php:30-31 | true exactly when some metadata entry carries the key |
| Behaviour.MetadataContainer.GetMetadataAttribute | tests/Document/SingleResourceDocumentTest.php:278-284 | success exactly when the key is present, with the stored value; otherwise MetadataAttributeNotFound naming owner and key |
| Behaviour.MetadataContainer.SetMetadataAttribute | tests/Document/SingleResourceDocumentTest.php:292-299 | a present key fails with MetadataAttributeOverride and changes nothing; an absent key is appended |
| Behaviour.MetadataContainer.RemoveMetadataAttribute | tests/Document/SingleResourceDocumentTest.php:47-49 | the key is gone and the rest is unset-equivalent |
| Behaviour.LinksContainer.constructor | tests/Document/SingleResourceDocumentTest.php:307-313 | a fresh container has no links |
| Behaviour.LinksContainer.HasLink | tests/Document/SingleResourceDocumentTest.php:95-96 | true exactly when some link carries the name |
| Behaviour.LinksContainer.GetLink | tests/Document/SingleResourceDocumentTest.php:307-313 | success exactly when the name is present, with the stored link; otherwise LinkNotFound naming owner and name |
| Behaviour.LinksContainer.SetLink | tests/Document/SingleResourceDocumentTest.php:321-330 | a present name fails with LinkOverride and changes nothing; an absent name is appended |
| Behaviour.LinksContainer.RemoveLink | tests/Document/SingleResourceDocumentTest.php:111-113 | the name is gone and the rest is unset-equivalent |
| Behaviour.RelationshipsContainer.constructor | src/Document/Behaviour/RelationshipsContainer.php:22 | relationships start out empty |
| Behaviour.RelationshipsContainer.HasRelationship | src/Document/Behaviour/RelationshipsContainer.php:41-44 | true exactly when some relationship carries the name |
| Behaviour.RelationshipsContainer.GetRelationship | src/Document/Behaviour/RelationshipsContainer.php:52-55 | a present name yields the relationship stored under it |
| Behaviour.RelationshipsContainer.SetRelationship | src/Document/Behaviour/RelationshipsContainer.php:30-33 | never refuses; the name reads back the new relationship, a present name keeps its position, an absent one is appended, all other names keep their entries |
| Behaviour.ErrorsContainer.constructor | tests/Document/SingleResourceDocumentTest.php:59 | a fresh container has no errors |
| Behaviour.ErrorsContainer.HasErrors | tests/Document/SingleResourceDocumentTest.php:59-63 | true exactly when at least one error was added |
| Behaviour.ErrorsContainer.AddError | tests/Document/SingleResourceDocumentTest.php:61-64 | the error is appended after all earlier ones |
| Behaviour.IncludedResourcesContainer.constructor | tests/Document/SingleResourceDocumentTest.php:214 | a fresh container has no included resources |
| Behaviour.IncludedResourcesContainer.HasIncludedResources | tests/Document/SingleResourceDocumentTest.php:214-218 | true exactly when at least one resource was included |
| Behaviour.IncludedResourcesContainer.AddIncludedResource | tests/Document/SingleResourceDocumentTest.php:216-219 | the resource is appended after all earlier ones, duplicates allowed |
| Resources.ResourceObject.constructor | tests/Document/ResourceObjectTest.php:17-20 | id, type, attributes and metadata are the given ones; links and relationships start out empty |
| Resources.ResourceObject.HasAttribute | tests/Document/ResourceObjectTest.php:29-30 | true exactly when some attribute carries the name |
| Resources.ResourceObject.GetAttribute | tests/Document/ResourceObjectTest.php:31 | a present name yields the attribute value stored under it |
| Resources.ResourceObject.SetAttribute | tests/Mapper/Handler/JmsArrayTransformerHandlerTest.php:29-31 | the mapper calls `setAttribute(name, value)`; assumed last-write-wins like `RelationshipsContainer.php:32`: the name reads back the new value and every other attribute is unchanged |
| Documents.LinksToArray | tests/Document/SingleResourceDocumentTest.php:126-137 | each link is serialised under its own name, in order |
| Documents.ToArrayList | tests/Document/SingleResourceDocumentTest.php:79-82 | each error, or each included resource, becomes its own serialised form, in the order added |
| Documents.AssembleDocument | tests/Document/SingleResourceDocumentTest.php:126-137 | the member list ends with `data` and its names strictly follow the fixed member order, so none repeats |
| Documents.AssembleDocumentMember | tests/Document/SingleResourceDocumentTest.php:79-82 | a name/value pair is in the serialised document exactly when the name-by-name reference has that value for it |
| Documents.AssembleDocumentGet | tests/Document/SingleResourceDocumentTest.php:79-82 | reading a member by name finds it exactly when its section is non-empty (or it is `data`), with the reference value |
| Documents.AssembleDocumentMembers | tests/Document/SingleResourceDocumentTest.php:237-245 | the member-by-member equivalence, for all names and values |
| Documents.AssembleDataOnly | tests/Document/SingleResourceDocumentTest.php:166-173 | a document with no section set is its `data` alone |
| Documents.AssembleJsonApiOnly | tests/Document/SingleResourceDocumentTest.php:199-205 | with only a jsonapi object, the document is `jsonapi` then `data` |
| Documents.AssembleMetaOnly | tests/Document/SingleResourceDocumentTest.php:147-153 | with only metadata, the document is `meta` then `data` |
| Documents.AssembleLinksOnly | tests/Document/SingleResourceDocumentTest.php:126-137 | with only links, the document is `links` then `data` |
| Documents.LinksToArraySingle | tests/Document/SingleResourceDocumentTest.php:128-133 | a single link serialises to one member under its name |
| Documents.AssembleIncludedOnly | tests/Document/SingleResourceDocumentTest.php:237-245 | with only included resources, the document is `included` then `data` |
| Documents.AbstractDocument.constructor | tests/Document/SingleResourceDocumentTest.php:26-33 | metadata is the given map for the given owner; every other section is empty and there is no jsonapi object |
| Documents.AbstractDocument.SetJsonApi | tests/Document/SingleResourceDocumentTest.php:182-184 | the document then holds the given jsonapi object |
| Documents.SingleResourceDocument.constructor | tests/Document/SingleResourceDocumentTest.php:17-20 | the document holds the given resource and metadata, with every other section empty |
| Documents.SingleResourceDocument.ToArray | tests/Document/SingleResourceDocumentTest.php:166-173 | `data` is last and is the resource's own `toArray()`; the names follow the fixed member order; a pair is present exactly when the name-by-name reference has it |
| Documents.IdentifierCollectionDocument.constructor | src/Document/IdentifierCollectionDocument.php:25-28 | only the metadata is assigned: it is exactly the given map (empty by default), and links, errors, included resources and jsonapi start out empty |
| DocumentScenarios.ResourceIsKept | tests/Document/SingleResourceDocumentTest.php:15-21 | the document holds the resource it was made with |
| DocumentScenarios.MetadataFromConstructor | tests/Document/SingleResourceDocumentTest.php:23-34 | constructor metadata is probed, read and listed as given |
| DocumentScenarios.MetadataRemove | tests/Document/SingleResourceDocumentTest.php:39-50 | a set attribute is present until removed |
| DocumentScenarios.MetadataSetAgain | tests/Document/SingleResourceDocumentTest.php:43-47 | goes beyond the test, which sets and removes once: after removal the key can be set again, and it reads back the new value |
| DocumentScenarios.Errors | tests/Document/SingleResourceDocumentTest.php:52-65 | no errors at first; after one is added it is the only one |
| DocumentScenarios.ToArrayErrors | tests/Document/SingleResourceDocumentTest.php:67-83 | `toArray()['errors']` is the list of the errors' serialised forms |
| DocumentScenarios.Links | tests/Document/SingleResourceDocumentTest.php:85-99 | a set link is probed, read and listed |
| DocumentScenarios.LinkRemove | tests/Document/SingleResourceDocumentTest.php:101-114 | a set link is present until removed |
| DocumentScenarios.ToArrayLinks | tests/Document/SingleResourceDocumentTest.php:116-138 | the whole serialised document with one link carrying metadata |
| DocumentScenarios.ToArrayMetadata | tests/Document/SingleResourceDocumentTest.php:140-154 | the whole serialised document with one metadata attribute |
| DocumentScenarios.ToArrayResource | tests/Document/SingleResourceDocumentTest.php:156-174 | the whole serialised document is the resource under `data` |
| DocumentScenarios.JsonApi | tests/Document/SingleResourceDocumentTest.php:176-185 | the set jsonapi object is the one held |
| DocumentScenarios.ToArrayJsonApi | tests/Document/SingleResourceDocumentTest.php:187-206 | the whole serialised document with a jsonapi object of version 1.0 |
| DocumentScenarios.Included | tests/Document/SingleResourceDocumentTest.php:208-220 | no included resources at first; after one is added it is the only one |
| DocumentScenarios.ToArrayIncluded | tests/Document/SingleResourceDocumentTest.php:222-246 | the whole serialised document with one included resource, before `data` |
| DocumentScenarios.MissingMetadata | tests/Document/SingleResourceDocumentTest.php:278-284 | reading absent metadata fails with MetadataAttributeNotFound naming the document and key |
| DocumentScenarios.MetadataOverrideRefused | tests/Document/SingleResourceDocumentTest.php:292-299 | the second set of one key fails with MetadataAttributeOverride; beyond the test, which only expects the exception, the first value stays |
| DocumentScenarios.MissingLink | tests/Document/SingleResourceDocumentTest.php:307-313 | reading an absent link fails with LinkNotFound naming the document and link |
| DocumentScenarios.LinkOverrideRefused | tests/Document/SingleResourceDocumentTest.php:321-330 | the second set of one link name fails with LinkOverride |
| ResourceScenarios.Basics | tests/Document/ResourceObjectTest.php:15-21 | id and type are the ones given |
| ResourceScenarios.Attributes | tests/Document/ResourceObjectTest.php:23-33 | constructor attributes are probed, read and listed as given |
| ResourceScenarios.AttributeReplaced | src/Document/Behaviour/RelationshipsContainer.php:32 | no test sets an attribute twice; under the assumed last-write-wins `setAttribute`, like this assignment, setting an existing attribute replaces its value in place and keeps the others |
| ResourceScenarios.Metadata | tests/Document/ResourceObjectTest.php:35-47 | constructor metadata is probed, read and listed as given |
| ResourceScenarios.Links | tests/Document/ResourceObjectTest.php:49-62 | a set link is probed, read and listed |
| ResourceScenarios.Relationships | tests/Document/ResourceObjectTest.php:64-77 | a set relationship is probed, read and listed |
| ResourceScenarios.RelationshipReplaced | src/Document/Behaviour/RelationshipsContainer.php:30-33 | setting a relationship twice keeps one entry, holding the second |
| ResourceScenarios.FreshResource | tests/Document/ResourceObjectTest.php:51 | goes beyond the tests, which set a link or relationship straight after construction: a resource built with only id and type has no link and no relationship |
| ResourceScenarios.IdentifierCollectionMetadata | src/Document/IdentifierCollectionDocument.php:25-28 | the document's metadata is exactly the constructor's map |
| ResourceScenarios.IdentifierCollectionDefaults | src/Document/IdentifierCollectionDocument.php:25 | by default there is no metadata and every other section is empty |

## Left out

- The identifier-collection behaviour and `IdentifierCollectionDocument::toArray()` are not part of this model. Only the constructor is modelled.
- `ResourceObject::toArray()`, `ErrorObject::toArray()` and the relationship classes' `toArray()` are not part of this model. A document sees each of them only as the map it returns.
- `SingleResourceDocument` always holds a resource here. A document without a resource, whose `data` would be `null`, is not modelled.
- Exception messages and `__toString()` are not modelled. A failure carries the owner's class name and the key, which is what the messages are required to contain.
- Mock call counts (`expects($this->once())`) and PHP object identity are not modelled. An object is its value, and sharing one object between documents is not captured.
- Floating-point attribute values are not modelled. `JsonValues.Value` has integers only.
- The mapper (`JmsArrayTransformerHandler`) is not part of this model. Its test is cited only for the call it makes to `setAttribute`.
- Resources.ResourceObject.GetAttribute: requires the attribute to be present. The source of `ResourceObject` is not part of this model, so what it does for an absent name cannot be seen, and that case is excluded.
- Resources.ResourceObject.SetAttribute: the source of `ResourceObject` is not part of this model. Last-write-wins, with no override protection, is assumed by analogy with `setRelationship`.
- Behaviour.RelationshipsContainer.GetRelationship: requires the relationship to be present. For an absent name, `src/Document/Behaviour/RelationshipsContainer.php:54` reads an undefined index, which gives a notice, and then returns `null` from a method typed to return `AbstractRelationship`, which throws a `TypeError`. The `requires` excludes that failing path instead of modelling it.
- Documents.AssembleDocument: the order among several optional sections, and the position of `errors`, are assumed. The tests pin only that each of `jsonapi`, `meta`, `links` and `included`, when it is the only section, comes before `data`.
- Documents.SingleResourceDocument.ToArray: the same assumption, since it is `AssembleDocument` applied to the document's state.
- Objects.LinkToArray: the `{href}` form for a link without metadata is assumed. The only link test (`tests/Document/SingleResourceDocumentTest.php:121-124`) builds its link with metadata, and the source of `LinkObject` is not part of this model.
- Behaviour.MetadataContainer.HasMetadataAttribute: it and `Behaviour.LinksContainer.HasLink` are assumed to test key presence (`array_key_exists`), so a key stored with `null` counts as present and setting it again is refused as an override. The metadata and links traits are not part of this model. The visible relationships trait uses `isset` (`src/Document/Behaviour/RelationshipsContainer.php:43`), which would treat a `null` value as absent.
