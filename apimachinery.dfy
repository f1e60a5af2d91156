/**
 * The library types the storage adapter is written against: schema.GroupVersion,
 * unstructured.Unstructured and UnstructuredList, watch.Event and the API error values.
 * Only the parts the adapter reads or writes are kept.
 */
module Apimachinery {

  /** An API error value. NotFound is the one callers inspect (errors.IsNotFound). */
  datatype ApiError =
    | NotFound(name: string)          // the backing store has no object of that name
    | AlreadyExists(name: string)     // a create collided with a stored object
    | Refused(name: string)           // the server refused to change that object (admission, authorization)
    | Unavailable(reason: string)     // any other failure of the backing client
    | Invalid(reason: string)         // a failure reported by a caller-supplied callback
    | Failed(message: string)         // an error built by the adapter itself with fmt.Errorf

  predicate IsNotFound(e: ApiError) {
    e.NotFound?
  }

  /** Go's (value, error) pair: exactly one of the two is meaningful. */
  datatype Result<+T> = Ok(value: T) | Err(error: ApiError)

  /** schema.GroupVersion. */
  datatype GroupVersion = GroupVersion(group: string, version: string) {

    /** GroupVersion.String(): "group/version", or the version alone for the empty (core) group. */
    function String(): (s: string)
      ensures |group| == 0 ==> s == version
      ensures |group| > 0 ==>
        && |s| == |group| + 1 + |version|
        && s[..|group|] == group && s[|group|] == '/' && s[|group| + 1..] == version
    {
      if |group| > 0 then group + "/" + version else version
    }
  }

  /** strings.Count(s, string(c)) for a one-character separator. */
  function Count(s: string, c: char): (n: nat)
    ensures n == 0 <==> c !in s
  {
    if s == [] then 0 else (if s[0] == c then 1 else 0) + Count(s[1..], c)
  }

  /** strings.Index(s, string(c)) for a character that occurs in s. */
  function IndexOf(s: string, c: char): (i: nat)
    requires c in s
    ensures i < |s| && s[i] == c && c !in s[..i]
  {
    if s[0] == c then 0 else 1 + IndexOf(s[1..], c)
  }

  /** schema.ParseGroupVersion: the inverse of GroupVersion.String(). */
  function ParseGroupVersion(s: string): Result<GroupVersion> {
    if |s| == 0 || s == "/" then Ok(GroupVersion("", ""))
    else if Count(s, '/') == 0 then Ok(GroupVersion("", s))
    else if Count(s, '/') == 1 then
      var i := IndexOf(s, '/');
      Ok(GroupVersion(s[..i], s[i + 1..]))
    else Err(Failed("unexpected GroupVersion string: " + s))
  }

  lemma {:induction false} CountAppend(a: string, b: string, c: char)
    ensures Count(a + b, c) == Count(a, c) + Count(b, c)
  {
    if a == [] {
      assert a + b == b;
    } else {
      assert (a + b)[1..] == a[1..] + b;
      CountAppend(a[1..], b, c);
    }
  }

  /** The string Assign writes as apiVersion parses back to the same group and version,
      provided neither part contains the separator. */
  lemma ParseGroupVersionRoundTrip(gv: GroupVersion)
    requires '/' !in gv.group && '/' !in gv.version
    ensures ParseGroupVersion(gv.String()) == Ok(gv)
  {
    if |gv.group| > 0 {
      var s := gv.String();
      CountAppend(gv.group, "/" + gv.version, '/');
      CountAppend("/", gv.version, '/');
      assert s == gv.group + ("/" + gv.version);
      assert s[|gv.group|] == '/' && s[..|gv.group|] == gv.group;
      assert IndexOf(s, '/') == |gv.group|;
      assert s[|gv.group| + 1..] == gv.version;
    }
  }

  /** metadata fields of an object the adapter reads. */
  datatype Meta = Meta(name: string, uid: string, resourceVersion: string)

  /** The document held by an unstructured.Unstructured: its identity fields, its
      metadata, and every other top-level field (spec, status, ...) as opaque content. */
  datatype Object = Object(apiVersion: string, kind: string, metadata: Meta, content: map<string, string>)

  /** The document of a freshly allocated &unstructured.Unstructured{}. */
  function EmptyObject(): Object {
    Object("", "", Meta("", "", ""), map[])
  }

  /** unstructured.Unstructured: a mutable handle on one document. */
  class Unstructured {
    var obj: Object

    constructor (o: Object)
      ensures obj == o
    {
      obj := o;
    }
  }

  /** The list-level metadata a server reports with a list: the revision it was read at and
      the token that continues a paged listing. */
  datatype ListMeta = ListMeta(resourceVersion: string, continueToken: string)

  /** unstructured.UnstructuredList: list-level identity fields and metadata, and the items,
      in order. */
  class UnstructuredList {
    var apiVersion: string
    var kind: string
    var listMeta: ListMeta
    var items: seq<Object>

    constructor (apiVersion: string, kind: string, listMeta: ListMeta, items: seq<Object>)
      ensures this.apiVersion == apiVersion && this.kind == kind
      ensures this.listMeta == listMeta && this.items == items
    {
      this.apiVersion := apiVersion;
      this.kind := kind;
      this.listMeta := listMeta;
      this.items := items;
    }
  }

  /** watch.EventType. */
  datatype EventType = Added | Modified | Deleted | Error

  /** watch.Event. An Error event carries a status document rather than a stored object. */
  datatype Event = Event(eventType: EventType, obj: Object)
}
