# proxy-apiserver storage adapter, modelled in Dafny

proxy-apiserver serves a Kubernetes resource under one identity (the *external*
group/version/kind/resource) while keeping it, through a dynamic client, under another (the
*internal* one). The adapter that does this is `restStorage` in `pkg/storage/storage.go`. It
implements the apiserver's REST storage interface by delegating every call to the backing
client and re-stamping the objects that cross it. Objects going to the backing store get the
internal `apiVersion` and `kind`. Objects going back to the caller, list items and watch
events included, get the external ones.

The model has one module per concern:

- `Apimachinery` holds the library types the adapter touches: `GroupVersion` and its string
  form, the unstructured object and list (as classes holding a document value), watch events,
  and API errors.
- `Identity` holds `GroupVersionKindResource` with `Assign` and `AssignList`, and the
  external/internal `Mapper` pair.
- `Dynamic` holds the backing client, modelled as an in-memory store for one resource. The
  resource is namespaced or cluster-scoped. Handles are bound to a namespace or to the
  empty one, which lists all namespaces. The store keeps a list order. An `outage` makes
  every call fail, and a set of refused keys makes writes to those objects fail.
- `Relay` holds the watch wrapper's pump (`watcher.run`).
- `Storage` holds `restStorage` as a class with `New`, `NewList`, `Get`, `List`, `Create`,
  `Update`, `Delete`, `DeleteCollection`, `Watch`, the accessors, and `getClient`.

Every operation that changes the store states its whole new state against the old one. Two
invariants are preserved throughout:

- every stored object carries the internal identity;
- the store's keys are distinct and match the stored objects' names.

Every object handed back is proved to be the stored object stamped with the external
identity.

## Model

| member | source | states |
|---|---|---|
| Identity.GroupVersionKindResource.Stamp | pkg/storage/storage.go:62-67 | the stamped object carries the identity (apiVersion is the group/version string, kind the kind) and keeps its metadata and content |
| Identity.GroupVersionKindResource.Assign | pkg/storage/storage.go:62-67 | overwrites apiVersion and kind of the given object in place and returns that same object, whose document is now the stamp of the old one |
| Identity.StampFixesExactlyCarriers | pkg/storage/storage.go:62-67 | stamping leaves an object unchanged exactly when it already carries the identity, so stamping twice is stamping once |
| Identity.GroupVersionKindResource.StampAll | pkg/storage/storage.go:56-58 | the stamped items are as many as before, and each position holds the stamp of the item that was there |
| Identity.GroupVersionKindResource.AssignList | pkg/storage/storage.go:52-60 | the list gets the group/version string and Kind + "List"; its items become the stamps of the old items, in the same order and number |
| Identity.InternalThenExternal | pkg/storage/storage.go:122-130 | stamping an object internal and then external is the same as stamping it external, and metadata and content survive the round trip |
| Apimachinery.GroupVersion.String | pkg/storage/storage.go:54 | the apiVersion written for a group/version: the version alone for the empty group, otherwise the group, "/" and the version |
| Identity.GroupVersionKindResource.ListKind | pkg/storage/storage.go:55 | the list kind is the kind followed by "List" |
| Apimachinery.ParseGroupVersionRoundTrip | pkg/storage/storage.go:64 | the apiVersion string Assign writes parses back to the same group and version when neither contains "/" |
| Storage.RestStorage.NewREST | pkg/storage/storage.go:21-36 | the new storage maps between the given external and internal identities, keeps the given flags and lists, uses the given backing client, and is valid when everything stored carries the internal identity |
| Storage.RestStorage.Categories | pkg/storage/storage.go:38-40 | returns the categories the storage was built with |
| Storage.RestStorage.ShortNames | pkg/storage/storage.go:42-44 | returns the short names the storage was built with |
| Storage.RestStorage.NamespaceScoped | pkg/storage/storage.go:241-243 | returns the namespace-scoped flag the storage was built with |
| Storage.GetClient | pkg/storage/storage.go:220-225 | a namespace in the context selects the handle bound to that namespace; no namespace selects the cluster-wide handle |
| Storage.RestStorage.New | pkg/storage/storage.go:189-195 | a fresh empty object that already carries the external identity |
| Storage.RestStorage.NewList | pkg/storage/storage.go:181-187 | a fresh list with no items and empty list metadata, carrying the external group/version and the external list kind |
| Storage.SentOptions | pkg/storage/storage.go:249-251 | the options sent to the backing client are the caller's when given, and the defaults otherwise |
| Storage.SentOptionsAsWritten | pkg/storage/storage.go:123-125 | as written, absent options stay absent, and any options that are passed become the defaults |
| Storage.OptionsAsWrittenLost | pkg/storage/storage.go:123-126 | with the inverted nil test, options the caller passed never reach the backing client, and absent options reach the dereference |
| Storage.RestStorage.Get | pkg/storage/storage.go:248-258 | a backing failure is returned as is; a missing name gives NotFound; otherwise a fresh object that is the stored one stamped external |
| Storage.RestStorage.List | pkg/storage/storage.go:228-239 | a backing failure is returned as is, including a namespace of a cluster-scoped resource. Otherwise a fresh list with the external list identity and the backing list's metadata. Its items are the objects the handle lists, in store order, each stamped external; the empty namespace lists every namespace |
| Storage.RestStorage.Create | pkg/storage/storage.go:118-131 | a rejected validation returns its error and changes neither the store nor the caller's object. Otherwise the caller's object is stamped internal in place. A handle of the wrong scope gives NotFound, a refused object gives Refused, an existing name gives AlreadyExists, and each changes nothing. On success the store holds the object with the internal identity, appended to the list order, and the caller receives it with the external identity |
| Storage.CheckPreconditions | pkg/storage/storage.go:158-168 | fails with the uid message exactly when a uid precondition mismatches the object it is given; fails with the resourceVersion message exactly when the uid passes and a resourceVersion precondition mismatches; passes otherwise. Update gives it the transformed object stamped internal, not the stored one |
| Storage.RestStorage.CreateFromNew | pkg/storage/storage.go:136-147 | the transform of an empty external object is created as Create would create it; a failing transform or create returns that error and changes nothing |
| Storage.RestStorage.UpdateCurrent | pkg/storage/storage.go:150-178 | the current object is transformed and stamped internal. A failing transform or precondition (uid first, then resourceVersion, both compared with the transformed object, not the stored one) returns that error before any write. A renamed object that is not stored gives NotFound and a refused one Refused. Otherwise the stored object is replaced, its order kept, and the result is the transform stamped external. Every failure changes nothing |
| Storage.RestStorage.Update | pkg/storage/storage.go:133-179 | a missing object with forceAllowCreate creates the transform of New(), with created = true exactly when that succeeds. Any other read failure is returned and changes nothing. An existing object is transformed and stamped internal. The uid precondition is checked, then the resourceVersion precondition, both against that transformed object (not the stored one) and before the write. A renamed object that is not stored gives NotFound and a refused one gives Refused. Otherwise the stored object is replaced, its order position kept, and the result carries the external identity with created = false. Every failure leaves the store unchanged |
| Storage.RestStorage.Delete | pkg/storage/storage.go:270-283 | a read failure, a rejected validation or a refused deletion returns that error and deletes nothing. Otherwise the object is removed from the store and from the list order, and the caller receives the object as it was, stamped external. The immediate flag is always false |
| Storage.DeleteOutcome | pkg/storage/storage.go:300-303 | a listed object's deletion succeeds exactly when the context's handle addresses its key, the validation accepts it and the server does not refuse it; otherwise the error is NotFound, the rejection or Refused, in that order |
| Storage.FirstFailure | pkg/storage/storage.go:299-306 | the position the deletion loop stops at: every earlier deletion succeeds, and the one there, if any, fails |
| Storage.ListedKeys | pkg/storage/storage.go:292-299 | the keys behind a listing are distinct and line up with the listed objects (ListedFrom): each names a stored object, and the listed object at the same position is that object stamped. The key its name is deleted under is that key or one the store does not hold |
| Storage.AllNamespacesSweepStops | pkg/storage/storage.go:299-303 | listing all namespaces of a namespaced resource and deleting by name through the same context fails on the first object with NotFound |
| Storage.SweepStep | pkg/storage/storage.go:299-306 | deleting the i-th listed object after the earlier ones removes a key that is still stored, and leaves the store and its order less the first i + 1 keys |
| Storage.RestStorage.DeleteNext | pkg/storage/storage.go:300-305 | Delete of a listed object whose key is still stored fails as DeleteOutcome says and changes nothing, or removes exactly that key from the store and from its order, keeping the order of the rest, and returns the listed object |
| Storage.RestStorage.DeleteAt | pkg/storage/storage.go:299-305 | the i-th deletion of the loop, after the first i: it fails, changes nothing, and i is where the loop stops; or it returns the i-th listed object and leaves the store and its order less the first i + 1 keys |
| Storage.RestStorage.DeleteInOrder | pkg/storage/storage.go:299-306 | deletes the listed objects through Delete, in list order, stopping at the first deletion that fails. It returns exactly the objects deleted, stamped external, and that failure or none. The store loses exactly the keys of the deleted objects, and its order loses them and keeps the rest in place |
| Storage.RestStorage.DeleteListed | pkg/storage/storage.go:297-308 | a fresh empty list of the external list kind, filled with the objects deleted before the first failure, returned with that failure; the store and its order lose exactly their keys, the rest keeping their order |
| Storage.RestStorage.DeleteCollection | pkg/storage/storage.go:291-309 | a failed listing returns no list and changes nothing. Otherwise it returns a fresh list with the external list identity, holding the prefix of the listing deleted before the first failing Delete, together with that failure. The store loses exactly the keys of that prefix, and its order loses them and keeps the rest in place |
| Storage.SweptScope | pkg/storage/storage.go:291-309 | when every listed deletion succeeds, the collection delete removes exactly the objects the scope lists and keeps every other object |
| Storage.RestStorage.Watch | pkg/storage/storage.go:197-207 | a backing failure is returned as is; otherwise a fresh watcher over the backing watch's events, stamping with the external identity, that has delivered nothing yet |
| Relay.Watcher.constructor | pkg/storage/storage.go:88-96 | the watcher holds the mapper and the backing events and has delivered nothing |
| Relay.Watcher.Run | pkg/storage/storage.go:98-107 | publishes the relay of every backing event, in order, after what was already published, and then stops the wrapper |
| Relay.Relayed | pkg/storage/storage.go:101-105 | one backing event becomes one published event of the same type; an Error event passes unchanged, and any other event's object is stamped |
| Relay.RelayPreservesStream | pkg/storage/storage.go:100-106 | one output event per input event, in order and of the same type; Error events pass through unchanged, and every other event's object is stamped |
| Relay.RelayAllAppend | pkg/storage/storage.go:100-106 | relaying a stream split at any point is relaying each part and concatenating the results |
| Dynamic.Store.Listing | pkg/storage/storage.go:233 | the objects the backing list returns for a scope: one per key the scope lists, in store order; the empty namespace lists every namespace |
| Dynamic.Store.Get | pkg/storage/storage.go:252 | an outage fails with Unavailable; a name not stored under the handle's namespace fails with NotFound; otherwise a fresh copy of the stored object |
| Dynamic.Store.List | pkg/storage/storage.go:233 | an outage fails with Unavailable, and a namespace of a cluster-scoped resource with NotFound; otherwise a fresh list carrying the server's list metadata and the scope's objects |
| Dynamic.Store.Create | pkg/storage/storage.go:126 | an outage, a handle of the wrong scope, a refused object or an existing name fails and changes nothing; otherwise the object is stored and appended to the order |
| Dynamic.Store.Update | pkg/storage/storage.go:173 | an outage, a missing name or a refused object fails and changes nothing; otherwise the stored object is replaced and the order kept |
| Dynamic.Store.Delete | pkg/storage/storage.go:279 | an outage, a missing name or a refused object fails and changes nothing; otherwise the key leaves the store and the order, and the order stays free of repetitions |
| Dynamic.Store.Watch | pkg/storage/storage.go:202 | an outage fails with Unavailable, and a namespace of a cluster-scoped resource with NotFound; otherwise the watch carries the given events |

## Left out

- Storage.RestStorage.List, Storage.RestStorage.Watch and Storage.RestStorage.DeleteCollection:
  list options are opaque. Converting them to metav1 form (toMetaListOptions, storage.go:209-218)
  and applying label and field selectors are not modelled, so a conversion error never occurs.
- Storage.RestStorage.Watch: the goroutine `newWrappedWatcher` starts is modelled as a separate
  sequential `Relay.Watcher.Run` over the events the backing watch delivers before it closes.
  Concurrency, `Stop`, `ResultChan`, and the buffering of `RaceFreeFakeWatcher` are not modelled.
- Identity.GroupVersionKindResource.AssignList: the loop ranges over copies of the items. The
  stamp reaches the list only because each copy shares the item's underlying map. The model
  writes each stamped item back. An item whose map is nil would stay unstamped; that case is
  not modelled.
- The backing dynamic client and the API server behind it are the abstract `Dynamic.Store`.
  Its failures are a missing or duplicate name, a request at the wrong scope (always
  NotFound here, whatever status a real server picks), a refusal of writes to a fixed set
  of objects, and an outage that fails every call. Conflicts, resourceVersion bumps and
  server-side defaulting are not modelled, and the list metadata the server reports is
  a constant of the store.
- The `namespace` field objects carry is not modelled. An object's location is the namespace of
  the handle that stored it, and the cluster-wide handle uses the empty namespace.
- Errors are values of `ApiError`. The adapter's own precondition errors (`fmt.Errorf`) are
  `Failed` with the same messages, not Conflict status errors.
- Logging (klog) and request contexts beyond the namespace they carry are not modelled, and
  neither are context cancellation, deadlines and the network.
- Storage.RestStorage.Update: the create fallback is modelled with the corrected options.
  As written, it passes nil options to Create. Create dereferences them at storage.go:126
  whenever the transform succeeds and the create validation accepts, so that path panics
  instead of creating (see "## Findings").
- Storage.RestStorage.Update compares the uid and resourceVersion preconditions with the
  transformed object stamped internal (storage.go:156-166), as the adapter does, not with the
  stored object. A transform whose result carries the precondition's own uid or
  resourceVersion therefore passes the check even when the stored object would fail it.
  The model keeps this comparison.
- Update never calls `updateValidation`, and Delete always reports "not deleted immediately".
  The model does the same.

## Findings

| source | as written | input that shows it | evidently intended | confidence | as-written member | corrected member |
|---|---|---|---|---|---|---|
| pkg/storage/storage.go:123-126 | `options != nil` replaces the caller's CreateOptions with an empty struct, and nil options are dereferenced (the same at 170-173 for UpdateOptions) | Create with options `{dryRun: [All]}`: the backing create runs without dry-run | nil options replaced by defaults and given options forwarded, as Get does at 249-251 | high, from reading the code; not executed | Storage.OptionsAsWrittenLost | Storage.SentOptions |
| pkg/storage/storage.go:142 | Update's create fallback calls Create with nil options, which Create dereferences at 126 | Update with forceAllowCreate = true for a name that does not exist: nil pointer dereference | the fallback creates the object with default options | high, from reading the code; not executed | Storage.OptionsAsWrittenLost | Storage.SentOptions |
