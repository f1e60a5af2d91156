/**
 * Resource identities and stamping: GroupVersionKindResource with Assign and AssignList,
 * and the external/internal pair the adapter holds (pkg/storage/storage.go:46-72).
 */
module Identity {
  import opened Apimachinery

  /** A group/version, a kind and the plural resource name. */
  datatype GroupVersionKindResource = GroupVersionKindResource(groupVersion: GroupVersion, kind: string, resource: string) {

    /** True when the object's identity fields already name this identity. */
    predicate Carries(o: Object) {
      o.apiVersion == groupVersion.String() && o.kind == kind
    }

    /** The document Assign leaves behind: the identity fields are overwritten and
        nothing else is touched. */
    function Stamp(o: Object): (r: Object)
      ensures Carries(r)
      ensures r.metadata == o.metadata && r.content == o.content
    {
      o.(apiVersion := groupVersion.String(), kind := kind)
    }

    /** The items of a list after AssignList: as many as before, in the same order,
        each one stamped. */
    function StampAll(os: seq<Object>): (r: seq<Object>)
      ensures |r| == |os|
      ensures forall i :: 0 <= i < |os| ==> r[i] == Stamp(os[i])
    {
      if os == [] then [] else [Stamp(os[0])] + StampAll(os[1..])
    }

    /** The kind AssignList gives the list itself. */
    function ListKind(): (k: string)
      ensures |k| == |kind| + 4 && k[..|kind|] == kind && k[|kind|..] == "List"
    {
      kind + "List"
    }

    /** Overwrites apiVersion and kind of u in place and hands back the same object. */
    method Assign(u: Unstructured) returns (r: Unstructured)
      modifies u
      ensures r == u
      ensures u.obj == Stamp(old(u.obj))
    {
      u.obj := u.obj.(apiVersion := groupVersion.String());
      u.obj := u.obj.(kind := kind);
      r := u;
    }

    /** Overwrites the list's own apiVersion and kind, then stamps every item in turn. */
    method AssignList(ul: UnstructuredList) returns (r: UnstructuredList)
      modifies ul
      ensures r == ul
      ensures ul.apiVersion == groupVersion.String() && ul.kind == ListKind()
      ensures ul.listMeta == old(ul.listMeta)
      ensures ul.items == StampAll(old(ul.items))
    {
      ul.apiVersion := groupVersion.String();
      ul.kind := ListKind();
      var i := 0;
      while i < |ul.items|
        invariant 0 <= i <= |ul.items| == |old(ul.items)|
        invariant ul.apiVersion == groupVersion.String() && ul.kind == ListKind()
        invariant ul.listMeta == old(ul.listMeta)
        invariant forall j :: 0 <= j < i ==> ul.items[j] == Stamp(old(ul.items)[j])
        invariant forall j :: i <= j < |ul.items| ==> ul.items[j] == old(ul.items)[j]
      {
        // The range variable is a copy of the item; the stamp reaches the list only because
        // the copy shares the item's underlying map, which the write-back below stands for.
        var item := new Unstructured(ul.items[i]);
        item := Assign(item);
        ul.items := ul.items[i := item.obj];
        i := i + 1;
      }
      r := ul;
    }
  }

  /** Stamping an object that already carries the identity changes nothing, and only
      such objects are left unchanged. */
  lemma StampFixesExactlyCarriers(id: GroupVersionKindResource, o: Object)
    ensures id.Stamp(o) == o <==> id.Carries(o)
  {
  }

  /** The external identity callers see and the internal identity the backing store keeps. */
  datatype Mapper = Mapper(external: GroupVersionKindResource, internal: GroupVersionKindResource)

  /** Mapping an object to the internal identity and back yields the external identity and
      leaves every other field as it was. */
  lemma InternalThenExternal(m: Mapper, o: Object)
    ensures m.external.Stamp(m.internal.Stamp(o)) == m.external.Stamp(o)
    ensures m.external.Stamp(m.internal.Stamp(o)).metadata == o.metadata
    ensures m.external.Stamp(m.internal.Stamp(o)).content == o.content
  {
  }
}
