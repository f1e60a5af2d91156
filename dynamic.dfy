/**
 * The backing client the adapter delegates to (a dynamic.NamespaceableResourceInterface
 * for the internal resource), modelled as an in-memory store instead of a server.
 */
module Dynamic {
  import opened Wrappers
  import opened Apimachinery

  /** Where an object lives: the namespace of the handle that stored it ("" for the
      cluster-wide handle) and its name. */
  datatype Key = Key(scope: string, name: string)

  /** A client handle: the cluster-wide one, or one bound to a namespace by Namespace(ns).
      A namespaced handle for "" addresses the same objects as the cluster-wide one. */
  datatype Handle = Cluster | Namespaced(namespace: string) {
    function Scope(): string {
      match this
      case Cluster => ""
      case Namespaced(ns) => ns
    }
  }

  /** No key occurs twice. */
  predicate Distinct(ks: seq<Key>) {
    ks == [] || (ks[0] !in ks[1..] && Distinct(ks[1..]))
  }

  lemma {:induction false} DistinctAppend(ks: seq<Key>, k: Key)
    requires Distinct(ks) && k !in ks
    ensures Distinct(ks + [k])
  {
    if ks != [] {
      assert (ks + [k])[1..] == ks[1..] + [k];
      DistinctAppend(ks[1..], k);
    }
  }

  /** In a sequence without repetitions, no key occurs before its own position. */
  lemma {:induction false} DistinctNotBefore(ks: seq<Key>, i: nat)
    requires Distinct(ks) && i < |ks|
    ensures ks[i] !in ks[..i]
  {
    if i > 0 {
      DistinctNotBefore(ks[1..], i - 1);
      assert ks[..i] == [ks[0]] + ks[1..][..i - 1];
      assert ks[i] in ks[1..];
    }
  }

  /** Whether a listing through a handle of this scope reports the key: the empty scope
      lists every namespace, any other scope only its own. */
  predicate Selects(scope: string, k: Key) {
    scope == "" || k.scope == scope
  }

  /** The keys a listing of the scope reports, in store order. */
  function InScope(ks: seq<Key>, scope: string): (r: seq<Key>)
  {
    if ks == [] then []
    else if Selects(scope, ks[0]) then [ks[0]] + InScope(ks[1..], scope)
    else InScope(ks[1..], scope)
  }

  /** The keys not in `gone`, in store order. */
  function Except(ks: seq<Key>, gone: set<Key>): (r: seq<Key>)
  {
    if ks == [] then []
    else if ks[0] in gone then Except(ks[1..], gone)
    else [ks[0]] + Except(ks[1..], gone)
  }

  lemma {:induction false} InScopeMembers(ks: seq<Key>, scope: string)
    ensures forall k :: k in InScope(ks, scope) <==> k in ks && Selects(scope, k)
  {
    if ks != [] {
      InScopeMembers(ks[1..], scope);
    }
  }

  lemma {:induction false} ExceptMembers(ks: seq<Key>, gone: set<Key>)
    ensures forall k :: k in Except(ks, gone) <==> k in ks && k !in gone
  {
    if ks != [] {
      ExceptMembers(ks[1..], gone);
    }
  }

  /** Removing nothing keeps the order. */
  lemma {:induction false} ExceptNone(ks: seq<Key>)
    ensures Except(ks, {}) == ks
  {
    if ks != [] {
      ExceptNone(ks[1..]);
    }
  }

  /** Removing keys in two rounds is removing them all at once, order kept. */
  lemma {:induction false} ExceptExcept(ks: seq<Key>, gone: set<Key>, more: set<Key>)
    ensures Except(Except(ks, gone), more) == Except(ks, gone + more)
  {
    if ks != [] {
      ExceptExcept(ks[1..], gone, more);
      if ks[0] !in gone {
        var r := Except(ks, gone);
        assert r[0] == ks[0] && r[1..] == Except(ks[1..], gone);
      }
    }
  }

  lemma {:induction false} InScopeDistinct(ks: seq<Key>, scope: string)
    requires Distinct(ks)
    ensures Distinct(InScope(ks, scope))
  {
    if ks != [] {
      InScopeDistinct(ks[1..], scope);
      InScopeMembers(ks[1..], scope);
      if Selects(scope, ks[0]) {
        var r := InScope(ks, scope);
        assert r[0] == ks[0] && r[1..] == InScope(ks[1..], scope);
      }
    }
  }

  lemma {:induction false} ExceptDistinct(ks: seq<Key>, gone: set<Key>)
    requires Distinct(ks)
    ensures Distinct(Except(ks, gone))
  {
    if ks != [] {
      ExceptDistinct(ks[1..], gone);
      ExceptMembers(ks[1..], gone);
      if ks[0] !in gone {
        var r := Except(ks, gone);
        assert r[0] == ks[0] && r[1..] == Except(ks[1..], gone);
      }
    }
  }

  /** The stored objects under the given keys, in the keys' order. */
  function Lookup(m: map<Key, Object>, ks: seq<Key>): (r: seq<Object>)
    requires forall k :: k in ks ==> k in m
    ensures |r| == |ks|
    ensures forall i :: 0 <= i < |ks| ==> r[i] == m[ks[i]]
  {
    if ks == [] then [] else [m[ks[0]]] + Lookup(m, ks[1..])
  }

  /** The store behind the client, for one resource. `namespaced` is the resource's scope:
      a namespaced resource keeps every object in a namespace, a cluster-scoped one keeps
      them all under the empty scope. `order` is the order List reports objects in.
      `outage`, when set, makes every call fail with that reason and change nothing.
      `refused` holds the keys whose writes the server turns down (an admission or
      authorization denial), which changes nothing either. `listMeta` is what the server
      reports with a list. Request options reach the server but do not change what the
      store does. */
  class Store {
    const namespaced: bool
    const refused: set<Key>
    const listMeta: ListMeta
    var objects: map<Key, Object>
    var order: seq<Key>
    var outage: Option<string>

    ghost predicate Valid()
      reads this
    {
      && Distinct(order)
      && (forall k :: k in objects <==> k in order)
      && (forall k :: k in objects ==> objects[k].metadata.name == k.name)
      && (forall k :: k in objects ==> (k.scope != "") == namespaced)
    }

    /** Whether single-object requests through the handle reach the resource: a namespaced
        resource only through a namespace, a cluster-scoped one only through the empty scope. */
    predicate Addresses(h: Handle) {
      (h.Scope() != "") == namespaced
    }

    /** Whether collection requests (list, watch) through the handle reach the resource: a
        namespaced resource through any handle, the empty scope meaning all namespaces. */
    predicate Collects(h: Handle) {
      namespaced || h.Scope() == ""
    }

    /** The objects List returns for a scope. */
    function Listing(scope: string): (r: seq<Object>)
      reads this
      requires Valid()
      ensures |r| == |InScope(order, scope)|
    {
      InScopeMembers(order, scope);
      Lookup(objects, InScope(order, scope))
    }

    constructor (namespaced: bool, refused: set<Key>, listMeta: ListMeta)
      ensures Valid() && objects == map[] && order == [] && outage == None
      ensures this.namespaced == namespaced && this.refused == refused && this.listMeta == listMeta
    {
      this.namespaced := namespaced;
      this.refused := refused;
      this.listMeta := listMeta;
      objects := map[];
      order := [];
      outage := None;
    }

    /** A key the handle cannot address is never stored, so such a read is NotFound. */
    method Get(h: Handle, name: string, options: map<string, string>) returns (r: Result<Unstructured>)
      requires Valid()
      ensures outage.Some? ==> r == Err(Unavailable(outage.value))
      ensures outage.None? && Key(h.Scope(), name) !in objects ==> r == Err(NotFound(name))
      ensures outage.None? && Key(h.Scope(), name) in objects ==>
        r.Ok? && fresh(r.value) && r.value.obj == objects[Key(h.Scope(), name)] && Addresses(h)
    {
      var k := Key(h.Scope(), name);
      if outage.Some? {
        r := Err(Unavailable(outage.value));
      } else if k !in objects {
        r := Err(NotFound(name));
      } else {
        var u := new Unstructured(objects[k]);
        r := Ok(u);
      }
    }

    /** Lists a scope. The list-level identity fields are left empty: the adapter
        overwrites them. A namespace of a cluster-scoped resource does not exist. */
    method List(h: Handle) returns (r: Result<UnstructuredList>)
      requires Valid()
      ensures outage.Some? ==> r == Err(Unavailable(outage.value))
      ensures outage.None? && !Collects(h) ==> r == Err(NotFound(""))
      ensures outage.None? && Collects(h) ==>
        && r.Ok? && fresh(r.value)
        && r.value.listMeta == listMeta && r.value.items == Listing(h.Scope())
    {
      if outage.Some? {
        r := Err(Unavailable(outage.value));
      } else if !Collects(h) {
        r := Err(NotFound(""));
      } else {
        var ul := new UnstructuredList("", "", listMeta, Listing(h.Scope()));
        r := Ok(ul);
      }
    }

    method Create(h: Handle, o: Object, options: map<string, string>) returns (r: Result<Unstructured>)
      requires Valid()
      modifies this
      ensures Valid() && outage == old(outage)
      ensures r.Err? ==> unchanged(this)
      ensures old(outage).Some? ==> r == Err(Unavailable(old(outage).value))
      ensures old(outage).None? && !Addresses(h) ==> r == Err(NotFound(o.metadata.name))
      ensures old(outage).None? && Addresses(h) && Key(h.Scope(), o.metadata.name) in refused ==>
        r == Err(Refused(o.metadata.name))
      ensures old(outage).None? && Addresses(h) && Key(h.Scope(), o.metadata.name) !in refused
              && Key(h.Scope(), o.metadata.name) in old(objects) ==>
        r == Err(AlreadyExists(o.metadata.name))
      ensures old(outage).None? && Addresses(h) && Key(h.Scope(), o.metadata.name) !in refused
              && Key(h.Scope(), o.metadata.name) !in old(objects) ==>
        && r.Ok? && fresh(r.value) && r.value.obj == o
        && objects == old(objects)[Key(h.Scope(), o.metadata.name) := o]
        && order == old(order) + [Key(h.Scope(), o.metadata.name)]
    {
      var k := Key(h.Scope(), o.metadata.name);
      if outage.Some? {
        r := Err(Unavailable(outage.value));
      } else if !Addresses(h) {
        r := Err(NotFound(o.metadata.name));
      } else if k in refused {
        r := Err(Refused(o.metadata.name));
      } else if k in objects {
        r := Err(AlreadyExists(o.metadata.name));
      } else {
        objects := objects[k := o];
        DistinctAppend(order, k);
        order := order + [k];
        var u := new Unstructured(o);
        r := Ok(u);
      }
    }

    method Update(h: Handle, o: Object, options: map<string, string>) returns (r: Result<Unstructured>)
      requires Valid()
      modifies this
      ensures Valid() && outage == old(outage) && order == old(order)
      ensures r.Err? ==> unchanged(this)
      ensures old(outage).Some? ==> r == Err(Unavailable(old(outage).value))
      ensures old(outage).None? && Key(h.Scope(), o.metadata.name) !in old(objects) ==>
        r == Err(NotFound(o.metadata.name))
      ensures old(outage).None? && Key(h.Scope(), o.metadata.name) in old(objects)
              && Key(h.Scope(), o.metadata.name) in refused ==>
        r == Err(Refused(o.metadata.name))
      ensures old(outage).None? && Key(h.Scope(), o.metadata.name) in old(objects)
              && Key(h.Scope(), o.metadata.name) !in refused ==>
        && r.Ok? && fresh(r.value) && r.value.obj == o
        && objects == old(objects)[Key(h.Scope(), o.metadata.name) := o]
    {
      var k := Key(h.Scope(), o.metadata.name);
      if outage.Some? {
        r := Err(Unavailable(outage.value));
      } else if k !in objects {
        r := Err(NotFound(o.metadata.name));
      } else if k in refused {
        r := Err(Refused(o.metadata.name));
      } else {
        objects := objects[k := o];
        var u := new Unstructured(o);
        r := Ok(u);
      }
    }

    method Delete(h: Handle, name: string) returns (err: Option<ApiError>)
      requires Valid()
      modifies this
      ensures Valid() && outage == old(outage)
      ensures err.Some? ==> unchanged(this)
      ensures old(outage).Some? ==> err == Some(Unavailable(old(outage).value))
      ensures old(outage).None? && Key(h.Scope(), name) !in old(objects) ==> err == Some(NotFound(name))
      ensures old(outage).None? && Key(h.Scope(), name) in old(objects) && Key(h.Scope(), name) in refused ==>
        err == Some(Refused(name))
      ensures old(outage).None? && Key(h.Scope(), name) in old(objects) && Key(h.Scope(), name) !in refused ==>
        && err == None
        && objects == old(objects) - {Key(h.Scope(), name)}
        && order == Except(old(order), {Key(h.Scope(), name)})
    {
      var k := Key(h.Scope(), name);
      if outage.Some? {
        err := Some(Unavailable(outage.value));
      } else if k !in objects {
        err := Some(NotFound(name));
      } else if k in refused {
        err := Some(Refused(name));
      } else {
        objects := objects - {k};
        ExceptDistinct(order, {k});
        ExceptMembers(order, {k});
        order := Except(order, {k});
        err := None;
      }
    }

    /** Opens a watch. What the watch will deliver is not decided by the store: the
        caller passes the events it is to carry. */
    method Watch(h: Handle, upcoming: seq<Event>) returns (r: Result<seq<Event>>)
      ensures outage.Some? ==> r == Err(Unavailable(outage.value))
      ensures outage.None? && !Collects(h) ==> r == Err(NotFound(""))
      ensures outage.None? && Collects(h) ==> r == Ok(upcoming)
    {
      if outage.Some? {
        r := Err(Unavailable(outage.value));
      } else if !Collects(h) {
        r := Err(NotFound(""));
      } else {
        r := Ok(upcoming);
      }
    }
  }
}
