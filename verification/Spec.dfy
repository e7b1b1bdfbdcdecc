/**
 The specification: an atomic map from identifiers to elements with their guards, and
 the set of identifiers that have been removed.  Every operation is one atomic event.
 */
module Spec {
  import opened HeaderWord
  import opened SlotProtocol

  datatype Entry = Entry(element: Element, readers: set<CallId>, writers: set<CallId>) {
    predicate Free() { readers == {} && writers == {} }
  }

  datatype Spec<K> = Spec(live: map<K, Entry>, gone: set<K>)

  datatype Event<K> =
    | Tau
    | EvInsert(key: K, element: Element)
    | EvLockRead(key: K)
    | EvUnlockRead(key: K)
    | EvLockWrite(key: K)
    | EvUnlockWrite(key: K)
    | EvAssign(key: K, payload: int)
    | EvRemove(key: K, element: Element)
    | EvRemoveLocked(key: K, element: Element)

  function Put<K>(s: Spec<K>, k: K, e: Entry): Spec<K> {
    s.(live := s.live[k := e])
  }

  function Drop<K>(s: Spec<K>, k: K): Spec<K> {
    Spec(s.live - {k}, s.gone + {k})
  }

  /** What an event of call `a` requires and does. */
  predicate SpecStep<K>(s: Spec<K>, t: Spec<K>, a: CallId, ev: Event<K>) {
    match ev
    case Tau => t == s
    case EvInsert(k, e) => k !in s.live && k !in s.gone && t == Put(s, k, Entry(e, {}, {}))
    case EvLockRead(k) =>
      && k in s.live && s.live[k].writers == {} && a !in s.live[k].readers
      && t == Put(s, k, s.live[k].(readers := s.live[k].readers + {a}))
    case EvUnlockRead(k) =>
      && k in s.live && a in s.live[k].readers
      && t == Put(s, k, s.live[k].(readers := s.live[k].readers - {a}))
    case EvLockWrite(k) =>
      && k in s.live && s.live[k].Free()
      && t == Put(s, k, s.live[k].(writers := {a}))
    case EvUnlockWrite(k) =>
      && k in s.live && s.live[k].writers == {a}
      && t == Put(s, k, s.live[k].(writers := {}))
    case EvAssign(k, v) =>
      && k in s.live && s.live[k].writers == {a}
      && t == Put(s, k, s.live[k].(element := s.live[k].element.(payload := v)))
    case EvRemove(k, e) => k in s.live && s.live[k].Free() && s.live[k].element == e && t == Drop(s, k)
    case EvRemoveLocked(k, e) =>
      k in s.live && s.live[k].readers == {} && s.live[k].writers == {a} && s.live[k].element == e && t == Drop(s, k)
  }

  /** The specification state justifies an outcome that changes nothing. */
  predicate Justifies<K>(s: Spec<K>, op: Op, k: K, o: Outcome) {
    match o
    case NotFound => k in s.gone
    case TimedOut =>
      && k in s.live
      && if op.Read? then s.live[k].writers != {} else !s.live[k].Free()
    case _ => false
  }

  /** As many readers as there may be. */
  predicate Crowded<K>(s: Spec<K>, k: K) {
    k in s.live && |s.live[k].readers| == MAX_CONCURRENT_READS
  }

  // ----- runs of the specification

  /** `states[i + 1]` follows from `states[i]` by event `events[i].1` of call `events[i].0`. */
  datatype Trace<K> = Trace(states: seq<Spec<K>>, events: seq<(CallId, Event<K>)>)

  predicate IsTrace<K>(t: Trace<K>) {
    && |t.states| == |t.events| + 1
    && t.states[0] == Spec(map[], {})
    && forall i :: 0 <= i < |t.events| ==> SpecStep(t.states[i], t.states[i + 1], t.events[i].0, t.events[i].1)
  }

  predicate Known<K>(s: Spec<K>, k: K) {
    k in s.live || k in s.gone
  }

  predicate IsRemoval<K>(ev: Event<K>) {
    ev.EvRemove? || ev.EvRemoveLocked?
  }

  lemma {:induction false} KnownForever<K>(t: Trace<K>, i: nat, j: nat, k: K)
    requires IsTrace(t) && i <= j < |t.states|
    ensures Known(t.states[i], k) ==> Known(t.states[j], k)
    ensures k in t.states[i].gone ==> k in t.states[j].gone
    decreases j - i
  {
    if i < j {
      assert SpecStep(t.states[i], t.states[i + 1], t.events[i].0, t.events[i].1);
      KnownForever(t, i + 1, j, k);
    }
  }

  /** No identifier is live and removed. */
  lemma {:induction false} GoneIsNotLive<K>(t: Trace<K>, i: nat, k: K)
    requires IsTrace(t) && i < |t.states| && k in t.states[i].gone
    ensures k !in t.states[i].live
  {
    if i > 0 {
      var ev := t.events[i - 1].1;
      assert SpecStep(t.states[i - 1], t.states[i], t.events[i - 1].0, ev);
      if k in t.states[i - 1].gone { GoneIsNotLive(t, i - 1, k); }
    }
  }

  /** No two insertions return the same identifier. */
  lemma IdsAreNeverReused<K>(t: Trace<K>, i: nat, j: nat)
    requires IsTrace(t) && i < j < |t.events| && t.events[i].1.EvInsert? && t.events[j].1.EvInsert?
    ensures t.events[i].1.key != t.events[j].1.key
  {
    assert SpecStep(t.states[i], t.states[i + 1], t.events[i].0, t.events[i].1);
    assert SpecStep(t.states[j], t.states[j + 1], t.events[j].0, t.events[j].1);
    KnownForever(t, i + 1, j, t.events[i].1.key);
  }

  /** After an identifier was removed nothing on it takes effect; in particular it is removed once. */
  lemma RemovedIsDead<K>(t: Trace<K>, i: nat, j: nat)
    requires IsTrace(t) && i < j < |t.events| && IsRemoval(t.events[i].1) && !t.events[j].1.Tau?
    ensures t.events[j].1.key != t.events[i].1.key
  {
    var k := t.events[i].1.key;
    assert SpecStep(t.states[i], t.states[i + 1], t.events[i].0, t.events[i].1);
    assert SpecStep(t.states[j], t.states[j + 1], t.events[j].0, t.events[j].1);
    KnownForever(t, i + 1, j, k);
    GoneIsNotLive(t, j, k);
  }
}
