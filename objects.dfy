/**
 * The value objects that containers hold. Links are modelled by the three
 * things a document reads from them (reference, metadata, whether there is
 * metadata); errors, relationships and resources embedded in a document are
 * modelled by what their own `toArray()` returns, which is not part of this
 * model.
 */
module Objects {
  import opened JsonValues
  import opened OrderedMaps

  datatype Option<+T> = None | Some(value: T)

  /** A hyperlink: the reference it points to and its metadata, empty when it has none. */
  datatype LinkObject = LinkObject(reference: string, metadata: OrderedMap<Value>) {
    predicate HasMetadata() { metadata != [] }
  }

  /** An error descriptor, known by its serialised form. */
  datatype ErrorObject = ErrorObject(serialized: OrderedMap<Value>)

  /** A to-one or to-many relationship, known by its serialised form. */
  datatype Relationship = Relationship(serialized: OrderedMap<Value>)

  /** A resource object as a document sees it: by its serialised form. */
  datatype EmbeddedResource = EmbeddedResource(serialized: OrderedMap<Value>)

  /** The version a freshly made jsonapi object announces. */
  const DefaultVersion: string := "1.0"

  /** The top-level `jsonapi` member: the version of the format in use. */
  datatype JsonApiObject = JsonApiObject(version: string)

  /** The jsonapi object serialises as an object whose only member is its `version`. */
  function JsonApiToArray(j: JsonApiObject): (r: Value)
    ensures r.Object? && Keys(r.members) == ["version"]
    ensures Get(r.members, "version") == Str(j.version)
  {
    var members := [("version", Str(j.version))];
    MemberIsGet(members, "version", Str(j.version));
    Object(members)
  }

  /**
   * A link serialises as an object with `href` first, holding its reference,
   * and then `meta`, holding its metadata, exactly when it has metadata.
   */
  function LinkToArray(l: LinkObject): (r: Value)
    ensures r.Object?
    ensures Keys(r.members) == if l.HasMetadata() then ["href", "meta"] else ["href"]
    ensures Get(r.members, "href") == Str(l.reference)
    ensures Has(r.members, "meta") <==> l.HasMetadata()
    ensures l.HasMetadata() ==> Get(r.members, "meta") == Object(l.metadata)
  {
    if l.HasMetadata() then
      var members := [("href", Str(l.reference)), ("meta", Object(l.metadata))];
      MemberIsGet(members, "href", Str(l.reference));
      MemberIsGet(members, "meta", Object(l.metadata));
      Object(members)
    else
      var members := [("href", Str(l.reference))];
      MemberIsGet(members, "href", Str(l.reference));
      Object(members)
  }
}
