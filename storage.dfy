/**
 * The identity-remapping REST storage (restStorage, pkg/storage/storage.go): it serves a
 * resource under an external identity and keeps it, through the backing client, under an
 * internal one. Every object it hands back carries the external identity; every object it
 * hands to the store carries the internal one.
 *
 * Options are opaque: what matters is which options reach the backing client. Create and
 * Update test their options for nil the wrong way round; SentOptionsAsWritten records that,
 * and the operations use the corrected SentOptions.
 */
module Storage {
  import opened Wrappers
  import opened Apimachinery
  import opened Identity
  import opened Dynamic
  import opened Relay

  /** The request context as the adapter uses it: the namespace the framework resolved. */
  datatype Context = Context(namespace: Option<string>)

  /** Get, create, update, delete and list options: forwarded, never inspected. */
  type Options = map<string, string>

  /** The options a freshly allocated options struct holds. */
  const DefaultOptions: Options := map[]

  /** Which options Create and Update hand to the backing client as written
      (storage.go:123-126 and 170-173): the nil test is inverted, so options the caller
      passed are replaced by the defaults, and absent options stay absent and are then
      dereferenced. None stands for that nil dereference, a panic. */
  function SentOptionsAsWritten(options: Option<Options>): (sent: Option<Options>)
    ensures sent.None? <==> options.None?
    ensures sent.Some? ==> sent.value == DefaultOptions
  {
    if options.Some? then Some(DefaultOptions) else None
  }

  /** As written, the caller's options never reach the backing client, and Update's create
      fallback, which passes no options (storage.go:142), always reaches the nil dereference. */
  lemma OptionsAsWrittenLost(options: Options)
    requires options != DefaultOptions
    ensures SentOptionsAsWritten(Some(options)) != Some(options)
    ensures SentOptionsAsWritten(None).None?
  {
  }

  /** The options sent, as Get does it (storage.go:249-251): the caller's options when given,
      the defaults otherwise, so there is nothing to dereference. */
  function SentOptions(options: Option<Options>): (sent: Options)
    ensures options.Some? ==> sent == options.value
    ensures options.None? ==> sent == DefaultOptions
  {
    match options
    case Some(o) => o
    case None => DefaultOptions
  }

  /** rest.ValidateObjectFunc: None accepts the object, Some(e) rejects it with e. */
  type ValidateObjectFunc = Object -> Option<ApiError>

  /** rest.ValidateObjectUpdateFunc (new object, old object). */
  type ValidateObjectUpdateFunc = (Object, Object) -> Option<ApiError>

  /** The expected uid and resourceVersion an update may carry. */
  datatype Preconditions = Preconditions(uid: Option<string>, resourceVersion: Option<string>)

  /** rest.UpdatedObjectInfo: optional preconditions and the transform that produces the
      updated object from the current one. */
  datatype UpdatedObjectInfo = UpdatedObjectInfo(
    preconditions: Option<Preconditions>,
    updatedObject: Object -> Result<Object>)

  const UidPreconditionFailed := "failed uid precondition"
  const ResourceVersionPreconditionFailed := "failed resourceVersion precondition"

  predicate UidMismatch(pc: Option<Preconditions>, o: Object) {
    pc.Some? && pc.value.uid.Some? && pc.value.uid.value != o.metadata.uid
  }

  predicate ResourceVersionMismatch(pc: Option<Preconditions>, o: Object) {
    pc.Some? && pc.value.resourceVersion.Some? && pc.value.resourceVersion.value != o.metadata.resourceVersion
  }

  /** The precondition checks Update makes before it writes: the uid first, then the
      resourceVersion; an absent precondition always passes. */
  function CheckPreconditions(pc: Option<Preconditions>, o: Object): (err: Option<ApiError>)
    ensures err == Some(Failed(UidPreconditionFailed)) <==> UidMismatch(pc, o)
    ensures err == Some(Failed(ResourceVersionPreconditionFailed)) <==>
      !UidMismatch(pc, o) && ResourceVersionMismatch(pc, o)
    ensures err == None <==> !UidMismatch(pc, o) && !ResourceVersionMismatch(pc, o)
  {
    if pc.None? then None
    else if pc.value.uid.Some? && pc.value.uid.value != o.metadata.uid then
      Some(Failed(UidPreconditionFailed))
    else if pc.value.resourceVersion.Some? && pc.value.resourceVersion.value != o.metadata.resourceVersion then
      Some(Failed(ResourceVersionPreconditionFailed))
    else None
  }

  /** What Delete reports for the object o that a collection delete listed under key k,
      while k is still stored: a name the context's handle cannot address (an all-namespaces
      listing of a namespaced resource) is not found, then the validation decides, then the
      server may refuse the deletion. None is a successful deletion. */
  function DeleteOutcome(ctx: Context, refused: set<Key>, validate: ValidateObjectFunc, k: Key, o: Object)
    : (r: Option<ApiError>)
    ensures r.None? <==> KeyOf(ctx, o.metadata.name) == k && validate(o).None? && k !in refused
  {
    if KeyOf(ctx, o.metadata.name) != k then Some(NotFound(o.metadata.name))
    else if validate(o).Some? then validate(o)
    else if k in refused then Some(Refused(o.metadata.name))
    else None
  }

  /** The position of the first listed object whose deletion fails, or the length when
      every deletion succeeds: how far DeleteCollection gets. */
  function FirstFailure(ctx: Context, refused: set<Key>, validate: ValidateObjectFunc, ks: seq<Key>, os: seq<Object>)
    : (n: nat)
    requires |ks| == |os|
    ensures n <= |os|
    ensures forall j :: 0 <= j < n ==> DeleteOutcome(ctx, refused, validate, ks[j], os[j]).None?
    ensures n < |os| ==> DeleteOutcome(ctx, refused, validate, ks[n], os[n]).Some?
  {
    if os == [] then 0
    else if DeleteOutcome(ctx, refused, validate, ks[0], os[0]).Some? then 0
    else 1 + FirstFailure(ctx, refused, validate, ks[1..], os[1..])
  }

  /** A listing as DeleteCollection's loop receives it: the keys ks are distinct and
      stored in m, the object listed at each position is the object stored under the key
      at that position, stamped with id, and the key Delete looks its name up under is
      that key or one m does not hold. */
  ghost predicate ListedFrom(ctx: Context, id: GroupVersionKindResource, m: map<Key, Object>,
                             ks: seq<Key>, listed: seq<Object>)
  {
    && |ks| == |listed| && Distinct(ks)
    && forall j :: 0 <= j < |ks| ==>
      && ks[j] in m
      && (KeyOf(ctx, listed[j].metadata.name) == ks[j] || KeyOf(ctx, listed[j].metadata.name) !in m)
      && listed[j] == id.Stamp(m[ks[j]])
  }

  /** What List hands to DeleteCollection's loop: the listed keys of a scope are
      distinct, each names a stored object, and the object listed at the same position
      is that object stamped. The key Delete looks that name up under is the listed key,
      or one the store does not hold. */
  lemma ListedKeys(s: Store, ctx: Context, id: GroupVersionKindResource, ks: seq<Key>, listed: seq<Object>)
    requires s.Valid()
    requires ks == InScope(s.order, GetClient(ctx).Scope())
    requires listed == id.StampAll(s.Listing(GetClient(ctx).Scope()))
    ensures ListedFrom(ctx, id, s.objects, ks, listed)
  {
    InScopeMembers(s.order, GetClient(ctx).Scope());
    InScopeDistinct(s.order, GetClient(ctx).Scope());
    forall j | 0 <= j < |ks|
      ensures ks[j] in s.objects
      ensures KeyOf(ctx, listed[j].metadata.name) == ks[j] || KeyOf(ctx, listed[j].metadata.name) !in s.objects
    {
      assert ks[j] in ks;
    }
  }

  /** The keys of the first n listed objects. */
  function KeysUpTo(ks: seq<Key>, n: nat): set<Key>
    requires n <= |ks|
  {
    if n == 0 then {} else KeysUpTo(ks, n - 1) + {ks[n - 1]}
  }

  /** KeysUpTo(ks, n) holds exactly the keys among the first n. */
  lemma {:induction false} KeysUpToListed(ks: seq<Key>, n: nat)
    requires n <= |ks|
    ensures forall k :: k in KeysUpTo(ks, n) <==> k in ks[..n]
  {
    if n > 0 {
      KeysUpToListed(ks, n - 1);
      assert ks[..n] == ks[..n - 1] + [ks[n - 1]];
    }
  }

  /** When every listed deletion succeeds, DeleteCollection removes exactly what the
      scope lists and leaves every other object as it was. */
  lemma SweptScope(m: map<Key, Object>, order: seq<Key>, scope: string)
    requires forall k :: k in m <==> k in order
    ensures var ks := InScope(order, scope);
      forall k :: k in m - KeysUpTo(ks, |ks|) <==> k in m && !Selects(scope, k)
  {
    var ks := InScope(order, scope);
    KeysUpToListed(ks, |ks|);
    InScopeMembers(order, scope);
    assert ks[..|ks|] == ks;
  }

  /** Deleting the i-th listed key after the ones before it: the key is still stored,
      and the store and its order afterwards are the original less the first i + 1 keys. */
  lemma SweepStep(m: map<Key, Object>, order: seq<Key>, ks: seq<Key>, i: nat)
    requires Distinct(ks) && i < |ks| && ks[i] in m
    ensures ks[i] in m - KeysUpTo(ks, i)
    ensures (m - KeysUpTo(ks, i)) - {ks[i]} == m - KeysUpTo(ks, i + 1)
    ensures Except(Except(order, KeysUpTo(ks, i)), {ks[i]}) == Except(order, KeysUpTo(ks, i + 1))
  {
    KeysUpToListed(ks, i);
    DistinctNotBefore(ks, i);
    ExceptExcept(order, KeysUpTo(ks, i), {ks[i]});
  }

  /** Scanning one more object either finds the first failing one or moves past it. */
  lemma FirstFailureStep(ctx: Context, refused: set<Key>, validate: ValidateObjectFunc,
                         ks: seq<Key>, os: seq<Object>, i: nat)
    requires |ks| == |os| && i <= FirstFailure(ctx, refused, validate, ks, os) && i < |os|
    ensures DeleteOutcome(ctx, refused, validate, ks[i], os[i]).Some? ==>
      FirstFailure(ctx, refused, validate, ks, os) == i
    ensures DeleteOutcome(ctx, refused, validate, ks[i], os[i]).None? ==>
      i + 1 <= FirstFailure(ctx, refused, validate, ks, os)
  {
  }

  /** A collection delete across all namespaces of a namespaced resource addresses each
      listed name outside its namespace, so it stops at the first listed object with
      NotFound and deletes nothing. */
  lemma AllNamespacesSweepStops(ctx: Context, refused: set<Key>, validate: ValidateObjectFunc,
                                ks: seq<Key>, os: seq<Object>)
    requires |ks| == |os| > 0
    requires GetClient(ctx).Scope() == ""
    requires ks[0].scope != "" && ks[0].name == os[0].metadata.name
    ensures FirstFailure(ctx, refused, validate, ks, os) == 0
    ensures DeleteOutcome(ctx, refused, validate, ks[0], os[0]) == Some(NotFound(os[0].metadata.name))
  {
  }

  lemma AppendPrefix<T>(s: seq<T>, i: nat)
    requires i < |s|
    ensures s[..i] + [s[i]] == s[..i + 1]
  {
  }

  /** getClient: a namespace in the context selects the handle bound to it, otherwise the
      cluster-wide handle. namespaceScoped plays no part in the choice. */
  function GetClient(ctx: Context): (h: Handle)
    ensures ctx.namespace.None? ==> h == Cluster
    ensures ctx.namespace.Some? ==> h.Namespaced? && h.Scope() == ctx.namespace.value
  {
    match ctx.namespace
    case Some(ns) => Namespaced(ns)
    case None => Cluster
  }

  /** Where a name lives for the handle the context selects. */
  function KeyOf(ctx: Context, name: string): Key {
    Key(GetClient(ctx).Scope(), name)
  }

  class RestStorage {
    const mapper: Mapper
    const namespaceScoped: bool
    const categories: seq<string>
    const shortNames: seq<string>
    const client: Store

    /** The store is well formed and everything in it carries the internal identity. */
    ghost predicate Valid()
      reads this, client
    {
      && client.Valid()
      && (forall k :: k in client.objects ==> mapper.internal.Carries(client.objects[k]))
    }

    /** NewREST: the client is the backing handle for the internal resource. */
    constructor NewREST(extR: GroupVersionKindResource, intR: GroupVersionKindResource, nsScoped: bool,
                        client: Store, shortNames: seq<string>, categories: seq<string>)
      requires client.Valid()
      requires forall k :: k in client.objects ==> intR.Carries(client.objects[k])
      ensures Valid()
      ensures mapper == Mapper(extR, intR) && namespaceScoped == nsScoped && this.client == client
      ensures this.shortNames == shortNames && this.categories == categories
    {
      mapper := Mapper(extR, intR);
      this.categories := categories;
      this.shortNames := shortNames;
      namespaceScoped := nsScoped;
      this.client := client;
    }

    function Categories(): (c: seq<string>)
      ensures c == categories
    {
      categories
    }

    function ShortNames(): (s: seq<string>)
      ensures s == shortNames
    {
      shortNames
    }

    function NamespaceScoped(): (b: bool)
      ensures b == namespaceScoped
    {
      namespaceScoped
    }

    /** An empty object already carrying the external identity. */
    method New() returns (u: Unstructured)
      ensures fresh(u)
      ensures u.obj == mapper.external.Stamp(EmptyObject())
    {
      u := new Unstructured(EmptyObject());
      u := mapper.external.Assign(u);
    }

    /** An empty list already carrying the external list identity. */
    method NewList() returns (ul: UnstructuredList)
      ensures fresh(ul)
      ensures ul.apiVersion == mapper.external.groupVersion.String() && ul.kind == mapper.external.ListKind()
      ensures ul.listMeta == ListMeta("", "") && ul.items == []
    {
      ul := new UnstructuredList("", "", ListMeta("", ""), []);
      ul := mapper.external.AssignList(ul);
    }

    /** Reads one object through the handle the context selects and stamps it external. */
    method Get(ctx: Context, name: string, options: Option<Options>) returns (res: Result<Unstructured>)
      requires Valid()
      ensures client.outage.Some? ==> res == Err(Unavailable(client.outage.value))
      ensures client.outage.None? && KeyOf(ctx, name) !in client.objects ==> res == Err(NotFound(name))
      ensures client.outage.None? && KeyOf(ctx, name) in client.objects ==>
        && res.Ok? && fresh(res.value)
        && res.value.obj == mapper.external.Stamp(client.objects[KeyOf(ctx, name)])
    {
      var r := client.Get(GetClient(ctx), name, SentOptions(options));
      if r.Err? {
        return r;
      }
      var u := mapper.external.Assign(r.value);
      res := Ok(u);
    }

    /** Lists the scope the context selects and stamps the list and every item external. */
    method List(ctx: Context, options: Options) returns (res: Result<UnstructuredList>)
      requires Valid()
      ensures client.outage.Some? ==> res == Err(Unavailable(client.outage.value))
      ensures client.outage.None? && !client.Collects(GetClient(ctx)) ==> res == Err(NotFound(""))
      ensures client.outage.None? && client.Collects(GetClient(ctx)) ==>
        && res.Ok? && fresh(res.value)
        && res.value.apiVersion == mapper.external.groupVersion.String()
        && res.value.kind == mapper.external.ListKind()
        && res.value.listMeta == client.listMeta
        && res.value.items == mapper.external.StampAll(client.Listing(GetClient(ctx).Scope()))
    {
      var r := client.List(GetClient(ctx));
      if r.Err? {
        return r;
      }
      var ul := mapper.external.AssignList(r.value);
      res := Ok(ul);
    }

    /** Validates, stamps the caller's object internal in place, creates it, and returns
        the created object stamped external. The options sent are the corrected
        SentOptions, not SentOptionsAsWritten. */
    method Create(ctx: Context, obj: Unstructured, createValidation: ValidateObjectFunc, options: Option<Options>)
      returns (res: Result<Unstructured>)
      requires Valid()
      modifies client, obj
      ensures Valid() && client.outage == old(client.outage)
      ensures res.Err? ==> unchanged(client)
      ensures createValidation(old(obj.obj)).Some? ==>
        res == Err(createValidation(old(obj.obj)).value) && obj.obj == old(obj.obj)
      ensures createValidation(old(obj.obj)).None? ==> obj.obj == mapper.internal.Stamp(old(obj.obj))
      ensures createValidation(old(obj.obj)).None? && old(client.outage).Some? ==>
        res == Err(Unavailable(old(client.outage).value))
      ensures createValidation(old(obj.obj)).None? && old(client.outage).None? ==>
        var name := old(obj.obj).metadata.name;
        var k := KeyOf(ctx, name);
        && (!client.Addresses(GetClient(ctx)) ==> res == Err(NotFound(name)))
        && (client.Addresses(GetClient(ctx)) && k in client.refused ==> res == Err(Refused(name)))
        && (client.Addresses(GetClient(ctx)) && k !in client.refused && k in old(client.objects) ==>
              res == Err(AlreadyExists(name)))
        && (client.Addresses(GetClient(ctx)) && k !in client.refused && k !in old(client.objects) ==>
              && res.Ok? && fresh(res.value)
              && res.value.obj == mapper.external.Stamp(old(obj.obj))
              && client.objects == old(client.objects)[k := mapper.internal.Stamp(old(obj.obj))]
              && client.order == old(client.order) + [k])
    {
      var invalid := createValidation(obj.obj);
      if invalid.Some? {
        return Err(invalid.value);
      }
      var orig := mapper.internal.Assign(obj);
      var created := client.Create(GetClient(ctx), orig.obj, SentOptions(options));
      if created.Err? {
        return created;
      }
      var u := mapper.external.Assign(created.value);
      res := Ok(u);
    }

    /** Update's fallback for a missing object: transforms an empty object of the external
        kind (New()) and creates the result with the create validation and no options. */
    method CreateFromNew(ctx: Context, objInfo: UpdatedObjectInfo, createValidation: ValidateObjectFunc)
      returns (res: Result<Unstructured>)
      requires Valid() && client.outage.None?
      modifies client
      ensures Valid() && client.outage.None?
      ensures res.Err? ==> unchanged(client)
      ensures
        var t := objInfo.updatedObject(mapper.external.Stamp(EmptyObject()));
        && (t.Err? ==> res == Err(t.error))
        && (t.Ok? && createValidation(t.value).Some? ==> res == Err(createValidation(t.value).value))
        && (t.Ok? && createValidation(t.value).None? ==>
              var name := t.value.metadata.name;
              var k := KeyOf(ctx, name);
              && (!client.Addresses(GetClient(ctx)) ==> res == Err(NotFound(name)))
              && (client.Addresses(GetClient(ctx)) && k in client.refused ==> res == Err(Refused(name)))
              && (client.Addresses(GetClient(ctx)) && k !in client.refused && k in old(client.objects) ==>
                    res == Err(AlreadyExists(name)))
              && (client.Addresses(GetClient(ctx)) && k !in client.refused && k !in old(client.objects) ==>
                    && res.Ok? && fresh(res.value)
                    && res.value.obj == mapper.external.Stamp(t.value)
                    && client.objects == old(client.objects)[k := mapper.internal.Stamp(t.value)]
                    && client.order == old(client.order) + [k]))
    {
      var blank := New();
      var newObj := objInfo.updatedObject(blank.obj);
      if newObj.Err? {
        return Err(newObj.error);
      }
      var u := new Unstructured(newObj.value);
      res := Create(ctx, u, createValidation, None);
    }

    /** Update once the current object has been read (stamped external): transforms it,
        stamps the result internal, checks the preconditions and writes it back. */
    method UpdateCurrent(ctx: Context, current: Object, objInfo: UpdatedObjectInfo, options: Option<Options>)
      returns (res: Result<Unstructured>)
      requires Valid() && client.outage.None?
      modifies client
      ensures Valid() && client.outage.None?
      ensures res.Err? ==> unchanged(client)
      ensures
        var t := objInfo.updatedObject(current);
        && (t.Err? ==> res == Err(t.error))
        && (t.Ok? ==>
              var u := mapper.internal.Stamp(t.value);
              var k := KeyOf(ctx, u.metadata.name);
              && (CheckPreconditions(objInfo.preconditions, u).Some? ==>
                    res == Err(CheckPreconditions(objInfo.preconditions, u).value))
              && (CheckPreconditions(objInfo.preconditions, u).None? && k !in old(client.objects) ==>
                    res == Err(NotFound(u.metadata.name)))
              && ((CheckPreconditions(objInfo.preconditions, u).None? && k in old(client.objects)
                   && k in client.refused) ==> res == Err(Refused(u.metadata.name)))
              && ((CheckPreconditions(objInfo.preconditions, u).None? && k in old(client.objects)
                   && k !in client.refused) ==>
                    && res.Ok? && fresh(res.value)
                    && res.value.obj == mapper.external.Stamp(t.value)
                    && client.objects == old(client.objects)[k := u]
                    && client.order == old(client.order)))
    {
      var updated := objInfo.updatedObject(current);
      if updated.Err? {
        return Err(updated.error);
      }
      var u := new Unstructured(updated.value);
      var orig := mapper.internal.Assign(u);

      var failed := CheckPreconditions(objInfo.preconditions, orig.obj);
      if failed.Some? {
        return Err(failed.value);
      }

      var returned := client.Update(GetClient(ctx), orig.obj, SentOptions(options));
      if returned.Err? {
        return Err(returned.error);
      }
      var _ := mapper.external.Assign(returned.value);
      res := Ok(returned.value);
    }

    /** Reads the current object; when it is missing and forceAllowCreate is set, creates
        the transform of New() instead (created = true). Otherwise transforms the current
        object, stamps it internal, checks the preconditions and writes it back. The update
        validation is never called. As in Create, the options sent are SentOptions. */
    method Update(ctx: Context, name: string, objInfo: UpdatedObjectInfo,
                  createValidation: ValidateObjectFunc, updateValidation: ValidateObjectUpdateFunc,
                  forceAllowCreate: bool, options: Option<Options>)
      returns (res: Result<Unstructured>, created: bool)
      requires Valid()
      modifies client
      ensures Valid() && client.outage == old(client.outage)
      ensures res.Err? ==> unchanged(client) && !created
      ensures old(client.outage).Some? ==> res == Err(Unavailable(old(client.outage).value))
      ensures old(client.outage).None? && KeyOf(ctx, name) !in old(client.objects) && !forceAllowCreate ==>
        res == Err(NotFound(name))
      ensures old(client.outage).None? && KeyOf(ctx, name) !in old(client.objects) && forceAllowCreate ==>
        var t := objInfo.updatedObject(mapper.external.Stamp(EmptyObject()));
        && (t.Err? ==> res == Err(t.error))
        && (t.Ok? && createValidation(t.value).Some? ==> res == Err(createValidation(t.value).value))
        && (t.Ok? && createValidation(t.value).None? ==>
              var name := t.value.metadata.name;
              var k := KeyOf(ctx, name);
              && (!client.Addresses(GetClient(ctx)) ==> res == Err(NotFound(name)))
              && (client.Addresses(GetClient(ctx)) && k in client.refused ==> res == Err(Refused(name)))
              && (client.Addresses(GetClient(ctx)) && k !in client.refused && k in old(client.objects) ==>
                    res == Err(AlreadyExists(name)))
              && (client.Addresses(GetClient(ctx)) && k !in client.refused && k !in old(client.objects) ==>
                    && res.Ok? && created && fresh(res.value)
                    && res.value.obj == mapper.external.Stamp(t.value)
                    && client.objects == old(client.objects)[k := mapper.internal.Stamp(t.value)]
                    && client.order == old(client.order) + [k]))
      ensures old(client.outage).None? && KeyOf(ctx, name) in old(client.objects) ==>
        var t := objInfo.updatedObject(mapper.external.Stamp(old(client.objects)[KeyOf(ctx, name)]));
        && !created
        && (t.Err? ==> res == Err(t.error))
        && (t.Ok? ==>
              var u := mapper.internal.Stamp(t.value);
              var k := KeyOf(ctx, u.metadata.name);
              && (CheckPreconditions(objInfo.preconditions, u).Some? ==>
                    res == Err(CheckPreconditions(objInfo.preconditions, u).value))
              && (CheckPreconditions(objInfo.preconditions, u).None? && k !in old(client.objects) ==>
                    res == Err(NotFound(u.metadata.name)))
              && ((CheckPreconditions(objInfo.preconditions, u).None? && k in old(client.objects)
                   && k in client.refused) ==> res == Err(Refused(u.metadata.name)))
              && ((CheckPreconditions(objInfo.preconditions, u).None? && k in old(client.objects)
                   && k !in client.refused) ==>
                    && res.Ok? && fresh(res.value)
                    && res.value.obj == mapper.external.Stamp(t.value)
                    && client.objects == old(client.objects)[k := u]
                    && client.order == old(client.order)))
    {
      created := false;
      var o := Get(ctx, name, None);
      if o.Err? {
        if IsNotFound(o.error) && forceAllowCreate {
          res := CreateFromNew(ctx, objInfo, createValidation);
          return res, res.Ok?;
        }
        return Err(o.error), false;
      }
      res := UpdateCurrent(ctx, o.value.obj, objInfo, options);
    }

    /** Reads the object, validates the deletion, deletes it by name and returns the
        object as it was, stamped external. The "deleted immediately" flag is always false. */
    method Delete(ctx: Context, name: string, deleteValidation: ValidateObjectFunc, options: Options)
      returns (res: Result<Unstructured>, immediate: bool)
      requires Valid()
      modifies client
      ensures Valid() && client.outage == old(client.outage)
      ensures !immediate
      ensures res.Err? ==> unchanged(client)
      ensures old(client.outage).Some? ==> res == Err(Unavailable(old(client.outage).value))
      ensures old(client.outage).None? && KeyOf(ctx, name) !in old(client.objects) ==> res == Err(NotFound(name))
      ensures old(client.outage).None? && KeyOf(ctx, name) in old(client.objects) ==>
        var current := mapper.external.Stamp(old(client.objects)[KeyOf(ctx, name)]);
        && (deleteValidation(current).Some? ==> res == Err(deleteValidation(current).value))
        && (deleteValidation(current).None? && KeyOf(ctx, name) in client.refused ==>
              res == Err(Refused(name)))
        && (deleteValidation(current).None? && KeyOf(ctx, name) !in client.refused ==>
              && res.Ok? && fresh(res.value) && res.value.obj == current
              && client.objects == old(client.objects) - {KeyOf(ctx, name)}
              && client.order == Except(old(client.order), {KeyOf(ctx, name)}))
    {
      immediate := false;
      var obj := Get(ctx, name, Some(DefaultOptions));
      if obj.Err? {
        return obj, false;
      }
      var invalid := deleteValidation(obj.value.obj);
      if invalid.Some? {
        return Err(invalid.value), false;
      }
      var orig := mapper.internal.Assign(obj.value);
      var err := client.Delete(GetClient(ctx), orig.obj.metadata.name);
      match err
      case Some(e) => return Err(e), false;
      case None =>
      var u := mapper.external.Assign(orig);
      res := Ok(u);
    }

    /** One step of DeleteCollection's loop: Delete of a listed object whose key is still
        stored fails exactly as DeleteOutcome says, changing nothing, or removes that key
        and returns the listed object. */
    method DeleteNext(ctx: Context, ghost k: Key, o: Object, deleteValidation: ValidateObjectFunc, options: Options)
      returns (r: Result<Unstructured>)
      requires Valid() && client.outage.None?
      requires k in client.objects && o == mapper.external.Stamp(client.objects[k])
      requires KeyOf(ctx, o.metadata.name) == k || KeyOf(ctx, o.metadata.name) !in client.objects
      modifies client
      ensures Valid() && client.outage.None?
      ensures var e := DeleteOutcome(ctx, client.refused, deleteValidation, k, o);
        && (e.Some? ==> r == Err(e.value) && unchanged(client))
        && (e.None? ==> && r.Ok? && r.value.obj == o
                        && client.objects == old(client.objects) - {k}
                        && client.order == Except(old(client.order), {k}))
    {
      var immediate;
      r, immediate := Delete(ctx, o.metadata.name, deleteValidation, options);
    }

    /** The i-th step of DeleteCollection's loop, after the first i listed objects were
        deleted from the store m0 with order o0: either the deletion of the i-th object
        fails, changing nothing, and i is where the loop stops, or it removes the i-th
        key and the store is m0 less the first i + 1 keys. */
    method DeleteAt(ctx: Context, listed: seq<Object>, ghost ks: seq<Key>, ghost m0: map<Key, Object>,
                    ghost o0: seq<Key>, i: nat, deleteValidation: ValidateObjectFunc, options: Options)
      returns (r: Result<Unstructured>)
      requires Valid() && client.outage.None?
      requires ListedFrom(ctx, mapper.external, m0, ks, listed) && i < |ks|
      requires client.objects == m0 - KeysUpTo(ks, i) && client.order == Except(o0, KeysUpTo(ks, i))
      requires i <= FirstFailure(ctx, client.refused, deleteValidation, ks, listed)
      modifies client
      ensures Valid() && client.outage.None?
      ensures r.Err? ==>
        && unchanged(client)
        && FirstFailure(ctx, client.refused, deleteValidation, ks, listed) == i
        && Some(r.error) == DeleteOutcome(ctx, client.refused, deleteValidation, ks[i], listed[i])
      ensures r.Ok? ==>
        && r.value.obj == listed[i]
        && i + 1 <= FirstFailure(ctx, client.refused, deleteValidation, ks, listed)
        && client.objects == m0 - KeysUpTo(ks, i + 1)
        && client.order == Except(o0, KeysUpTo(ks, i + 1))
    {
      SweepStep(m0, o0, ks, i);
      r := DeleteNext(ctx, ks[i], listed[i], deleteValidation, options);
      FirstFailureStep(ctx, client.refused, deleteValidation, ks, listed, i);
    }

    /** The loop of DeleteCollection: deletes the listed objects one by one, in list
        order, through Delete, collects each deleted object, and stops at the first error.
        The i-th listed object is the stored object under ks[i], stamped external. */
    method DeleteInOrder(ctx: Context, listed: seq<Object>, ghost ks: seq<Key>,
                        deleteValidation: ValidateObjectFunc, options: Options)
      returns (done: seq<Object>, err: Option<ApiError>)
      requires Valid() && client.outage.None?
      requires ListedFrom(ctx, mapper.external, client.objects, ks, listed)
      modifies client
      ensures Valid() && client.outage.None?
      ensures
        var n := FirstFailure(ctx, client.refused, deleteValidation, ks, listed);
        && done == listed[..n]
        && err == (if n < |listed| then DeleteOutcome(ctx, client.refused, deleteValidation, ks[n], listed[n]) else None)
        && client.objects == old(client.objects) - KeysUpTo(ks, n)
        && client.order == Except(old(client.order), KeysUpTo(ks, n))
    {
      ghost var m0 := client.objects;
      ghost var o0 := client.order;
      ExceptNone(o0);
      done := [];
      var i := 0;
      while i < |listed|
        invariant i <= |listed|
        invariant Valid() && client.outage.None?
        invariant i <= FirstFailure(ctx, client.refused, deleteValidation, ks, listed)
        invariant done == listed[..i]
        invariant client.objects == m0 - KeysUpTo(ks, i)
        invariant client.order == Except(o0, KeysUpTo(ks, i))
      {
        var r := DeleteAt(ctx, listed, ks, m0, o0, i, deleteValidation, options);
        if r.Err? {
          return done, Some(r.error);
        }
        AppendPrefix(listed, i);
        done := done + [r.value.obj];
        i := i + 1;
      }
      err := None;
    }

    /** DeleteCollection after its listing: starts an empty list of the external kind,
        deletes the listed objects in order up to the first failure, and returns the list
        of those deleted together with that failure. */
    method DeleteListed(ctx: Context, listed: seq<Object>, ghost ks: seq<Key>,
                        deleteValidation: ValidateObjectFunc, options: Options)
      returns (deleted: UnstructuredList, err: Option<ApiError>)
      requires Valid() && client.outage.None?
      requires ListedFrom(ctx, mapper.external, client.objects, ks, listed)
      modifies client
      ensures Valid() && client.outage.None?
      ensures fresh(deleted)
      ensures deleted.apiVersion == mapper.external.groupVersion.String() && deleted.kind == mapper.external.ListKind()
      ensures deleted.listMeta == ListMeta("", "")
      ensures
        var n := FirstFailure(ctx, client.refused, deleteValidation, ks, listed);
        && deleted.items == listed[..n]
        && err == (if n < |listed| then DeleteOutcome(ctx, client.refused, deleteValidation, ks[n], listed[n]) else None)
        && client.objects == old(client.objects) - KeysUpTo(ks, n)
        && client.order == Except(old(client.order), KeysUpTo(ks, n))
    {
      deleted := NewList();
      var done;
      done, err := DeleteInOrder(ctx, listed, ks, deleteValidation, options);
      deleted.items := deleted.items + done;
    }

    /** Lists the scope, then deletes the listed objects one by one in list order. The
        first failure ends the loop: the objects deleted so far stay deleted and are
        returned together with that error. */
    method DeleteCollection(ctx: Context, deleteValidation: ValidateObjectFunc, options: Options, listOptions: Options)
      returns (deleted: UnstructuredList?, err: Option<ApiError>)
      requires Valid()
      modifies client
      ensures Valid() && client.outage == old(client.outage)
      ensures old(client.outage).Some? ==>
        deleted == null && err == Some(Unavailable(old(client.outage).value)) && unchanged(client)
      ensures old(client.outage).None? && !client.Collects(GetClient(ctx)) ==>
        deleted == null && err == Some(NotFound("")) && unchanged(client)
      ensures old(client.outage).None? && client.Collects(GetClient(ctx)) ==>
        var scope := GetClient(ctx).Scope();
        var ks := InScope(old(client.order), scope);
        var candidates := mapper.external.StampAll(old(client.Listing(scope)));
        var n := FirstFailure(ctx, client.refused, deleteValidation, ks, candidates);
        && deleted != null && fresh(deleted)
        && deleted.apiVersion == mapper.external.groupVersion.String()
        && deleted.kind == mapper.external.ListKind()
        && deleted.listMeta == ListMeta("", "")
        && deleted.items == candidates[..n]
        && err == (if n < |candidates| then DeleteOutcome(ctx, client.refused, deleteValidation, ks[n], candidates[n]) else None)
        && client.objects == old(client.objects) - KeysUpTo(ks, n)
        && client.order == Except(old(client.order), KeysUpTo(ks, n))
    {
      var l := List(ctx, listOptions);
      if l.Err? {
        return null, Some(l.error);
      }
      ghost var ks := InScope(client.order, GetClient(ctx).Scope());
      ListedKeys(client, ctx, mapper.external, ks, l.value.items);
      deleted, err := DeleteListed(ctx, l.value.items, ks, deleteValidation, options);
    }

    /** Opens a backing watch for the scope the context selects and wraps it in a watcher
        stamping with the external identity. The backing watch's events are a parameter. */
    method Watch(ctx: Context, options: Options, upcoming: seq<Event>) returns (res: Result<Watcher>)
      ensures client.outage.Some? ==> res == Err(Unavailable(client.outage.value))
      ensures client.outage.None? && !client.Collects(GetClient(ctx)) ==> res == Err(NotFound(""))
      ensures client.outage.None? && client.Collects(GetClient(ctx)) ==>
        && res.Ok? && fresh(res.value)
        && res.value.mapper == mapper.external && res.value.source == upcoming
        && res.value.delivered == [] && !res.value.stopped
    {
      var wi := client.Watch(GetClient(ctx), upcoming);
      if wi.Err? {
        return Err(wi.error);
      }
      var w := new Watcher(mapper.external, wi.value);
      res := Ok(w);
    }
  }
}
