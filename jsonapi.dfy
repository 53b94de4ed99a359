/** The parsed JSON:API request and the documents the controller reads and
    writes, reduced to the parts the controller inspects. An empty string
    stands for an absent link or identifier, as it does in the wire format. */
module JsonApi {
  import opened Wrappers
  import opened ObjectIds
  import opened Documents

  /** What the parsed URL and method ask for. */
  datatype Intent =
    | ListResources
    | FindResource
    | CreateResource
    | UpdateResource
    | DeleteResource
    | GetRelatedResources
    | GetRelationship
    | SetRelationship
    | AppendToRelationship
    | RemoveFromRelationship
    | CollectionAction
    | ResourceAction

  /** The operation a controller runs for an intent. */
  datatype Operation = List | Find | Create | Update | Delete | CollectionActionOp | ResourceActionOp
  {
    /** Create, Update and Delete write; List and Find only read. */
    predicate Write() { Create? || Update? || Delete? }
    predicate Action() { CollectionActionOp? || ResourceActionOp? }
  }

  datatype Request = Request(
    intent: Intent,
    prefix: string,
    resourceType: string,
    resourceId: string,
    relatedResource: string,
    relationship: string,
    collectionAction: string,
    resourceAction: string,
    pageNumber: int,
    pageSize: int,
    sorting: seq<string>,
    fields: map<string, seq<string>>,
    filters: map<string, seq<string>>)

  /** The request's own URL path, in the scheme the controller uses for the
      links it builds itself. */
  function Self(r: Request): (s: string)
    ensures |s| > 0 && s[0] == '/'
  {
    var base := (if r.prefix != "" then "/" + r.prefix else "") + "/" + r.resourceType;
    match r.intent
    case ListResources => base
    case CreateResource => base
    case CollectionAction => base + "/" + r.collectionAction
    case FindResource => base + "/" + r.resourceId
    case UpdateResource => base + "/" + r.resourceId
    case DeleteResource => base + "/" + r.resourceId
    case GetRelatedResources => base + "/" + r.resourceId + "/" + r.relatedResource
    case ResourceAction => base + "/" + r.resourceId + "/" + r.resourceAction
    case _ => base + "/" + r.resourceId + "/relationships/" + r.relationship
  }

  datatype Links = Links(self: string, related: string, first: string, prev: string, next: string, last: string)

  const NoLinks := Links("", "", "", "", "", "")

  /** A resource object; a resource identifier is one without attributes
      and relationships. */
  datatype Resource = Resource(
    rtype: string,
    id: string,
    attributes: map<string, Value>,
    relationships: map<string, Document>)

  /** Primary data: a single (possibly null) resource or a list. */
  datatype Hybrid = One(one: Option<Resource>) | Many(many: seq<Resource>)

  datatype Document = Document(data: Option<Hybrid>, links: Links)

  function Identifier(rtype: string, id: Id): Resource {
    Resource(rtype, Hex(id), map[], map[])
  }

  /** `t` occurs somewhere in `s`. */
  predicate Occurs(s: string, t: string)
    decreases |s|
  {
    t <= s || (|s| > 0 && Occurs(s[1..], t))
  }

  /** Replaces the first occurrence of `from` in `s` by `to` (Go's
      strings.Replace with n = 1). */
  function ReplaceFirst(s: string, from: string, to: string): (r: string)
    ensures from == "" ==> r == to + s
    ensures !Occurs(s, from) ==> r == s
    decreases |s|
  {
    if from == "" then to + s
    else if from <= s then to + s[|from|..]
    else if s == [] then s
    else [s[0]] + ReplaceFirst(s[1..], from, to)
  }

  lemma ReplaceFirstOfPrefix(from: string, to: string, tail: string)
    requires from != ""
    ensures ReplaceFirst(from + tail, from, to) == to + tail
  {
    assert (from + tail)[..|from|] == from;
    assert (from + tail)[|from|..] == tail;
  }
}
