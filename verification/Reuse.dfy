/**
 The order in which slots are used again (src/lib.rs, src/util/sync/concurrent_queue.rs): the
 slots that leave the erasure queue are those that entered it, in the same order.
 */
module Reuse {
  import opened Store
  import opened Refinement
  import P = SlotProtocol
  import I = SlotInvariant
  import F = SlotFacts
  import B = Bucket

  predicate IsQueued(s: Store, r: SlotRef) {
    r in s.slots && s.slots[r].home.Queued?
  }

  /** The slot that is queued in `t` and was not in `s`, if there is one. */
  ghost function Entering(s: Store, t: Store): seq<SlotRef> {
    if r :| IsQueued(t, r) && !IsQueued(s, r) then [r] else []
  }

  /** The slots that entered the queue in the first `n` steps, in this order. */
  ghost function Entered(run: Run, n: nat): seq<SlotRef>
    requires n < |run.states|
  {
    if n == 0 then [] else Entered(run, n - 1) + Entering(run.states[n - 1], run.states[n])
  }

  /** The slots that left it. */
  ghost function Left(run: Run, n: nat): seq<SlotRef>
    requires n < |run.states|
  {
    if n == 0 then [] else Left(run, n - 1) + Entering(run.states[n], run.states[n - 1])
  }

  // ----- one step

  lemma SameQueued(s: Store, t: Store)
    requires forall r :: IsQueued(s, r) <==> IsQueued(t, r)
    ensures Entering(s, t) == [] && Entering(t, s) == []
  {
  }

  lemma OneMore(s: Store, t: Store, r: SlotRef)
    requires forall q :: IsQueued(t, q) <==> IsQueued(s, q) || q == r
    requires !IsQueued(s, r)
    ensures Entering(s, t) == [r] && Entering(t, s) == []
  {
    assert IsQueued(t, r) && !IsQueued(s, r);
  }

  lemma PopReuses(s: Store, a: P.CallId, e: P.Element, k: nat)
    requires Inv(s) && Enabled(s, a, StartInsert(e, k)) && s.erasures != []
    ensures var t := Next(s, a, StartInsert(e, k));
      && forall q :: IsQueued(s, q) <==> IsQueued(t, q) || q == s.erasures[0]
    ensures !IsQueued(Next(s, a, StartInsert(e, k)), s.erasures[0])
  {
    hide BucketsInv, SlotsInv, FreshInv, CallsInv;
  }

  /** The slot of a hand-out is fresh. */
  lemma AllocateQueuesNothing(s: Store, a: P.CallId, k: nat, r: SlotRef)
    requires Inv(s) && Enabled(s, a, Allocate(k))
    ensures IsQueued(s, r) <==> IsQueued(Next(s, a, Allocate(k)), r)
  {
    hide SlotsInv, FreshInv, ErasuresInv, CallsInv, I.Inv;
    if B.FetchesNow(s.buckets[k], a) {
      AllocateReady(s, a, k);
    } else if s.buckets[k].calls[a].SlowExpand? {
      ExpandedSlots(s, a, k);
    }
  }

  lemma SlotStepQueues(s: Store, a: P.CallId, r: SlotRef, mv: P.Move)
    requires Inv(s) && Enabled(s, a, AtSlot(r, mv))
    ensures var t := Next(s, a, AtSlot(r, mv));
      if Pushes(s.slots[r], a, mv)
      then !IsQueued(s, r) && forall q :: IsQueued(t, q) <==> IsQueued(s, q) || q == r
      else forall q :: IsQueued(t, q) <==> IsQueued(s, q)
  {
    hide I.Inv, BucketsInv, FreshInv, ErasuresInv, CallsInv, P.Next, P.Enabled;
    SlotStepHome(s.slots[r], a, mv);
  }

  lemma SlotStepHome(c: P.Slot, a: P.CallId, mv: P.Move)
    requires I.Inv(c) && P.Enabled(c, a, mv) && !mv.BeginInsert?
    ensures Pushes(c, a, mv) ==> !c.home.Queued? && P.Next(c, a, mv).home.Queued?
    ensures !Pushes(c, a, mv) ==> (P.Next(c, a, mv).home.Queued? <==> c.home.Queued?)
  {
    F.StepHome(c, a, mv);
  }

  /** What enters goes to the end of the queue, and what leaves comes from its front. */
  lemma StepIsFifo(s: Store, a: P.CallId, m: StoreMove)
    requires Inv(s) && Enabled(s, a, m)
    ensures var t := Next(s, a, m); s.erasures + Entering(s, t) == Entering(t, s) + t.erasures
  {
    hide Inv, IsQueued, Entering;
    var t := Next(s, a, m);
    match m
    case StartInsert(e, k) =>
      if s.erasures != [] {
        PopReuses(s, a, e, k);
        OneMore(t, s, s.erasures[0]);
        assert s.erasures == [s.erasures[0]] + t.erasures;
      } else {
        StartQueuesNothing(s, a, e, k);
        SameQueued(s, t);
      }
    case Allocate(k) =>
      forall r ensures IsQueued(s, r) <==> IsQueued(t, r) { AllocateQueuesNothing(s, a, k, r); }
      SameQueued(s, t);
    case AtSlot(r, mv) =>
      SlotStepQueues(s, a, r, mv);
      if Pushes(s.slots[r], a, mv) { OneMore(s, t, r); } else { SameQueued(s, t); }
  }

  lemma StartQueuesNothing(s: Store, a: P.CallId, e: P.Element, k: nat)
    requires Enabled(s, a, StartInsert(e, k)) && s.erasures == []
    ensures forall r :: IsQueued(s, r) <==> IsQueued(Next(s, a, StartInsert(e, k)), r)
  {
  }

  // ----- over a run

  /** First in, first out: the slots that have been used again are the first of those that were erased. */
  lemma {:induction false} ErasuresAreFifo(run: Run, limit: nat, n: nat)
    requires IsRun(run, limit) && n < |run.states|
    ensures Entered(run, n) == Left(run, n) + run.states[n].erasures
  {
    if n == 0 {
      assert run.states[0].erasures == [];
    } else {
      RunStepIsFifo(run, limit, n - 1);
      hide IsRun, Entering;
      ErasuresAreFifo(run, limit, n - 1);
      Regroup(Left(run, n - 1), run.states[n - 1].erasures, Entering(run.states[n - 1], run.states[n]),
              Entering(run.states[n], run.states[n - 1]), run.states[n].erasures);
    }
  }

  lemma RunStepIsFifo(run: Run, limit: nat, i: nat)
    requires IsRun(run, limit) && i + 1 < |run.states|
    ensures run.states[i].erasures + Entering(run.states[i], run.states[i + 1]) ==
            Entering(run.states[i + 1], run.states[i]) + run.states[i + 1].erasures
  {
    hide Inv, Entering;
    RunKeepsInv(run, limit, i);
    assert RunStep(run, i);
    StepIsFifo(run.states[i], run.moves[i].0, run.moves[i].1);
  }

  lemma Regroup(gone: seq<SlotRef>, before: seq<SlotRef>, more: seq<SlotRef>, less: seq<SlotRef>, after: seq<SlotRef>)
    requires before + more == less + after
    ensures gone + before + more == gone + less + after
  {
    assert gone + before + more == gone + (before + more);
  }

  /** An insertion that begins while slots are queued gets the slot that was queued first. */
  lemma InsertReusesFirst(run: Run, limit: nat, i: nat)
    requires IsRun(run, limit) && i < |run.moves| && run.moves[i].1.StartInsert? && run.states[i].erasures != []
    ensures
      var r, a := run.states[i].erasures[0], run.moves[i].0;
      && Entering(run.states[i + 1], run.states[i]) == [r]
      && r in run.states[i + 1].slots && a in run.states[i + 1].slots[r].calls
      && run.states[i + 1].slots[r].calls[a].op == P.Insert(run.moves[i].1.element)
  {
    RunKeepsInv(run, limit, i);
    assert RunStep(run, i);
    var s, t, a, m := run.states[i], run.states[i + 1], run.moves[i].0, run.moves[i].1;
    PopReuses(s, a, m.element, m.bucket);
    OneMore(t, s, s.erasures[0]);
  }
}
