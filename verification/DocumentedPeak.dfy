/**
 When the touched capacity is what its documentation says: in a sequential run, exactly if
 no slot was retired whenever a slot was taken that had never been used.
 */
module DocumentedPeak {
  import opened Store
  import opened Refinement
  import opened HighWater
  import P = SlotProtocol
  import I = SlotInvariant
  import F = SlotFacts
  import B = Bucket
  import C = Capacity

  /** Move `i` of the run takes a slot that was never used before. */
  predicate TakesFreshAt(run: Run, i: nat)
    requires i < |run.moves| && |run.states| == |run.moves| + 1
  {
    TakesFresh(run.states[i], run.moves[i].0, run.moves[i].1)
  }

  /** No slot was retired whenever one was taken that had never been used. */
  predicate TakenUnretired(run: Run, n: nat)
    requires n < |run.states| == |run.moves| + 1
  {
    forall i :: 0 <= i < n && TakesFreshAt(run, i) ==> Count(run.states[i], Retired) == 0
  }

  // ----- a slot taken beside a retired one

  lemma TakingTouches(run: Run, limit: nat, i: nat)
    requires IsRun(run, limit) && i < |run.moves| && TakesFreshAt(run, i)
    ensures |C.Touched(run.states[i + 1])| == |C.Touched(run.states[i])| + 1
  {
    hide C.Touched, Inv;
    RunKeepsInv(run, limit, i);
    assert RunStep(run, i);
    StepTouches(run.states[i], run.moves[i].0, run.moves[i].1);
  }

  /** Before the move fewer slots were touched, and after it the retired one is in the way. */
  lemma LiveBelow(run: Run, limit: nat, i: nat, n: nat, j: nat)
    requires IsRun(run, limit) && i < n < |run.states| && j <= n
    requires TakesFreshAt(run, i) && Count(run.states[i], Retired) > 0
    ensures LiveNumber(run.states[j]) < |C.Touched(run.states[n])|
  {
    hide IsRun, C.Touched, LiveNumber, InUse, Count, TakesFreshAt;
    RunLength(run, limit);
    if j <= i {
      UseNeverAboveTouched(run, limit, j, i);
      TakingTouches(run, limit, i);
      TouchedNeverDecreases(run, limit, i + 1, n);
    } else {
      UseNeverAboveTouched(run, limit, j, n);
      UseBelowTouched(run, limit, j);
      RetiredNeverDecreases(run, limit, i, j);
    }
  }

  /** In every run, concurrent or not: after such a move the peak stays below the touched slots. */
  lemma PeakStaysBelow(run: Run, limit: nat, i: nat, n: nat)
    requires IsRun(run, limit) && i < n < |run.states|
    requires TakesFreshAt(run, i) && Count(run.states[i], Retired) > 0
    ensures Peak(run, n) < |C.Touched(run.states[n])|
  {
    var xs, bound := LiveNumbers(run, n), |C.Touched(run.states[n])|;
    forall j | 0 <= j < |xs| ensures xs[j] < bound {
      LiveBelow(run, limit, i, n, j);
    }
    LargestBelowBound(xs, bound);
  }

  lemma LargestBelowBound(xs: seq<nat>, bound: nat)
    requires xs != [] && forall i :: 0 <= i < |xs| ==> xs[i] < bound
    ensures Largest(xs) < bound
  {
  }

  // ----- no slot taken beside a retired one

  /** The touched slots are at most the peak, or a slot is being filled and none is retired. */
  predicate AtPeak(s: Store, peak: nat) {
    |C.Touched(s)| <= peak || (Filling(s) && Count(s, Retired) == 0)
  }

  /** Neither an insertion nor a call at rest retires a slot. */
  lemma RetiresNone(c: P.Slot, a: P.CallId, mv: P.Move)
    requires I.Inv(c) && P.Enabled(c, a, mv) && !mv.BeginInsert?
    requires a in c.calls && F.Busy(c.calls[a]) ==> I.Inserting(c.calls[a])
    ensures P.Next(c, a, mv).home.Retired? ==> c.home.Retired?
  {
    if a in c.calls {
      I.InvMoves(c, a);
      RetiresNoneLocally(c, a, mv);
    }
  }

  lemma RetiresNoneLocally(c: P.Slot, a: P.CallId, mv: P.Move)
    requires I.Moves(c, a) && P.Enabled(c, a, mv) && !mv.BeginInsert?
    requires F.Busy(c.calls[a]) ==> I.Inserting(c.calls[a])
    ensures P.Next(c, a, mv).home.Retired? ==> c.home.Retired?
  {
  }

  /** The only busy call is the inserter. */
  lemma BusyIsInserter(s: Store, r: SlotRef, a: P.CallId)
    requires SlotsInv(s) && SlotCallsInv(s) && Sequential(s) && Filling(s) && BusyAt(s, r, a)
    ensures I.Inserting(s.slots[r].calls[a])
  {
    hide I.Inv, Count;
    var q, o :| q in s.slots && o in s.slots[q].calls && InsertingAt(s, q, o);
    InserterIsBusy(s, q, o);
    assert IsBusy(s, a);
  }

  /** While a slot is being filled no slot is retired. */
  lemma NoneRetiredWhileFilling(s: Store, a: P.CallId, r: SlotRef, mv: P.Move)
    requires SlotsInv(s) && SlotCallsInv(s) && Sequential(s) && Filling(s) && Enabled(s, a, AtSlot(r, mv))
    ensures Next(s, a, AtSlot(r, mv)).slots[r].home.Retired? ==> s.slots[r].home.Retired?
  {
    hide I.Inv, Count, Filling;
    if BusyAt(s, r, a) { BusyIsInserter(s, r, a); }
    RetiresNone(s.slots[r], a, mv);
  }

  lemma SameRetired(s: Store, t: Store, r: SlotRef)
    requires r in s.slots && r in t.slots && t.slots == s.slots[r := t.slots[r]]
    requires t.slots[r].home.Retired? ==> s.slots[r].home.Retired?
    ensures Count(t, Retired) <= Count(s, Retired)
  {
    KindUpdate(s.slots, r, t.slots[r], Retired);
  }

  lemma FillingRetiresNone(s: Store, a: P.CallId, m: StoreMove)
    requires Inv(s) && Sequential(s) && Filling(s) && Enabled(s, a, m) && !TakesFresh(s, a, m)
    ensures Count(Next(s, a, m), Retired) <= Count(s, Retired)
  {
    hide Count, Filling, Sequential, I.Inv, P.Next;
    match m
    case AtSlot(r, mv) =>
      NoneRetiredWhileFilling(s, a, r, mv);
      SameRetired(s, Next(s, a, m), r);
    case StartInsert(e, k) =>
      FillingQueuesNothing(s);
      SameCounts(s, Next(s, a, m), Retired);
    case Allocate(k) =>
      QuietAllocate(s, a, k);
      SameCounts(s, Next(s, a, m), Retired);
  }

  lemma FillingQueuesNothing(s: Store)
    requires ErasuresInv(s) && Filling(s)
    ensures s.erasures == []
  {
    QueueEmpty(s);
  }

  /** A fetch retires nothing either. */
  lemma FetchRetiresNone(s: Store, a: P.CallId, k: nat)
    requires Inv(s) && Enabled(s, a, Allocate(k)) && B.FetchesNow(s.buckets[k], a)
    ensures Count(Next(s, a, Allocate(k)), Retired) <= Count(s, Retired)
  {
    hide Count;
    var r := FetchGives(s, a, k);
    SameRetired(s, Next(s, a, Allocate(k)), r);
  }

  lemma StepStaysAtPeak(s: Store, a: P.CallId, m: StoreMove, peak: nat)
    requires Inv(s) && Sequential(s) && QueueEmptyWhileLooking(s) && Enabled(s, a, m) && Sequential(Next(s, a, m))
    requires AtPeak(s, peak) && (TakesFresh(s, a, m) ==> Count(s, Retired) == 0)
    ensures AtPeak(Next(s, a, m), if peak < LiveNumber(Next(s, a, m)) then LiveNumber(Next(s, a, m)) else peak)
  {
    hide Inv, Count, Filling, C.Touched, Sequential, QueueEmptyWhileLooking, LiveNumber;
    StepTouches(s, a, m);
    StepKeepsInv(s, a, m);
    if TakesFresh(s, a, m) {
      FetchFills(s, a, m.bucket);
      FetchRetiresNone(s, a, m.bucket);
    } else if Filling(s) && Count(s, Retired) == 0 {
      FillingGoesOn(s, a, m);
      FillingRetiresNone(s, a, m);
      if !Filling(Next(s, a, m)) { AllLive(Next(s, a, m)); }
    }
  }

  lemma AllLive(s: Store)
    requires Inv(s) && Count(s, Queued) == 0 && Count(s, Held) == 0 && Count(s, Retired) == 0
    ensures |C.Touched(s)| == LiveNumber(s)
  {
    hide Count, C.Touched, I.Inv, B.Inv;
    TouchedIsSplit(s);
    LiveCount(s);
  }

  lemma LivePeakGrows(run: Run, n: nat)
    requires 0 < n < |run.states|
    ensures
      var before, here := Peak(run, n - 1), LiveNumber(run.states[n]);
      Peak(run, n) == if before < here then here else before
  {
    hide LiveNumber;
    assert LiveNumbers(run, n)[..n] == LiveNumbers(run, n - 1);
  }

  lemma RunStepAtPeak(run: Run, limit: nat, i: nat, peak: nat)
    requires IsRun(run, limit) && SequentialRun(run) && i < |run.moves| && AtPeak(run.states[i], peak)
    requires TakesFreshAt(run, i) ==> Count(run.states[i], Retired) == 0
    ensures
      var next := LiveNumber(run.states[i + 1]);
      AtPeak(run.states[i + 1], if peak < next then next else peak)
  {
    hide Inv, Count, AtPeak, Sequential, LiveNumber;
    RunKeepsInv(run, limit, i);
    RunQueueEmpty(run, limit, i);
    assert RunStep(run, i) && Sequential(run.states[i]) && Sequential(run.states[i + 1]);
    StepStaysAtPeak(run.states[i], run.moves[i].0, run.moves[i].1, peak);
  }

  lemma {:induction false} RunAtPeak(run: Run, limit: nat, n: nat)
    requires IsRun(run, limit) && SequentialRun(run) && n < |run.states|
    requires forall i :: 0 <= i < n && TakesFreshAt(run, i) ==> Count(run.states[i], Retired) == 0
    ensures AtPeak(run.states[n], Peak(run, n))
  {
    hide SequentialRun, LiveNumber, Largest, Count, TakesFreshAt, Filling;
    if n == 0 {
      NothingTouched(run, limit);
    } else {
      RunAtPeak(run, limit, n - 1);
      RunStepAtPeak(run, limit, n - 1, Peak(run, n - 1));
      LivePeakGrows(run, n);
    }
  }

  /**
   The documented value, exactly: between the operations of a sequential run the touched
   capacity is the largest number of elements ever stored at the same time if and only if no
   slot was retired whenever one was taken that had never been used.
   */
  lemma TouchedIsPeakExactly(run: Run, limit: nat, n: nat)
    requires IsRun(run, limit) && SequentialRun(run) && n < |run.states| && Idle(run.states[n])
    ensures |C.Touched(run.states[n])| == Peak(run, n) <==> TakenUnretired(run, n)
  {
    hide SequentialRun, Peak, Count, C.Touched, Inv, TakesFreshAt, Filling;
    RunLength(run, limit);
    if TakenUnretired(run, n) {
      RunAtPeak(run, limit, n);
      RunKeepsInv(run, limit, n);
      NotFillingWhenIdle(run.states[n]);
      PeakBelowTouched(run, limit, n);
    } else {
      var i :| 0 <= i < n && TakesFreshAt(run, i) && Count(run.states[i], Retired) != 0;
      PeakStaysBelow(run, limit, i, n);
    }
  }

  lemma NotFillingWhenIdle(s: Store)
    requires Inv(s) && Idle(s)
    ensures !Filling(s)
  {
    IdleIsNotFilling(s);
  }
}
