/**
 * The watch relay (watcher.run, pkg/storage/storage.go:82-107): reads the backing watch's
 * events in order and republishes each one, giving every non-Error object the external
 * identity. The goroutine is modelled as a sequential pump over the events the backing
 * watch delivers before it closes.
 */
module Relay {
  import opened Apimachinery
  import opened Identity

  /** What the relay publishes for one backing event. */
  function Relayed(id: GroupVersionKindResource, e: Event): (r: Event)
    ensures r.eventType == e.eventType
    ensures e.eventType == Error ==> r == e
    ensures e.eventType != Error ==> r.obj == id.Stamp(e.obj)
  {
    if e.eventType != Error then Event(e.eventType, id.Stamp(e.obj)) else e
  }

  /** What the relay publishes for a whole stream, event by event. */
  function RelayAll(id: GroupVersionKindResource, es: seq<Event>): (r: seq<Event>)
    ensures |r| == |es|
  {
    if es == [] then [] else RelayAll(id, es[..|es| - 1]) + [Relayed(id, es[|es| - 1])]
  }

  lemma {:induction false} RelayAllAt(id: GroupVersionKindResource, es: seq<Event>, i: nat)
    requires i < |es|
    ensures RelayAll(id, es)[i] == Relayed(id, es[i])
  {
    if i < |es| - 1 {
      RelayAllAt(id, es[..|es| - 1], i);
    }
  }

  /** One output event per input event, in the same order and of the same type; Error
      events pass through unchanged and every other object is stamped. */
  lemma RelayPreservesStream(id: GroupVersionKindResource, es: seq<Event>)
    ensures |RelayAll(id, es)| == |es|
    ensures forall i :: 0 <= i < |es| ==> RelayAll(id, es)[i].eventType == es[i].eventType
    ensures forall i :: 0 <= i < |es| && es[i].eventType == Error ==> RelayAll(id, es)[i] == es[i]
    ensures forall i :: 0 <= i < |es| && es[i].eventType != Error ==>
      RelayAll(id, es)[i].obj == id.Stamp(es[i].obj)
  {
    forall i | 0 <= i < |es| ensures RelayAll(id, es)[i] == Relayed(id, es[i]) {
      RelayAllAt(id, es, i);
    }
  }

  /** Relaying a stream that was split at any point relays each part. */
  lemma {:induction false} RelayAllAppend(id: GroupVersionKindResource, a: seq<Event>, b: seq<Event>)
    ensures RelayAll(id, a + b) == RelayAll(id, a) + RelayAll(id, b)
  {
    if b != [] {
      assert (a + b)[..|a + b| - 1] == a + b[..|b| - 1];
      RelayAllAppend(id, a, b[..|b| - 1]);
    } else {
      assert a + b == a;
    }
  }

  /** The watcher: the backing watch's events, the mapper it stamps with, and what the
      wrapping watcher has published so far. */
  class Watcher {
    const mapper: GroupVersionKindResource
    const source: seq<Event>
    var delivered: seq<Event>
    var stopped: bool

    /** newWrappedWatcher, before its goroutine has run. */
    constructor (mapper: GroupVersionKindResource, source: seq<Event>)
      ensures this.mapper == mapper && this.source == source
      ensures delivered == [] && !stopped
    {
      this.mapper := mapper;
      this.source := source;
      delivered := [];
      stopped := false;
    }

    /** watcher.run: publish every backing event in order, then stop the wrapper once
        the backing channel is closed. */
    method Run()
      modifies this
      ensures delivered == old(delivered) + RelayAll(mapper, source)
      ensures stopped
    {
      var i := 0;
      while i < |source|
        invariant 0 <= i <= |source|
        invariant delivered == old(delivered) + RelayAll(mapper, source[..i])
      {
        var e := source[i];
        if e.eventType != Error {
          delivered := delivered + [Event(e.eventType, mapper.Stamp(e.obj))];
        } else {
          delivered := delivered + [e];
        }
        assert source[..i + 1][..i] == source[..i];
        i := i + 1;
      }
      assert source[..i] == source;
      stopped := true;
    }
  }
}
