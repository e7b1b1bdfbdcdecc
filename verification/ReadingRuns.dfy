/**
 Two calls of `capacity` in one run of the store: when the second cannot return less than
 the first, and a run on which it does.
 */
module ReadingRuns {
  import opened Blocks
  import opened Store
  import opened Refinement
  import P = SlotProtocol
  import B = Bucket
  import C = Capacity
  import H = HighWater
  import W = Witness
  import V = Readings
  import Bits

  // ----- buckets along a run

  /** Bucket `k` in two states, the second not before the first. */
  ghost predicate Follows(s: Store, t: Store, k: nat) {
    && k < |s.buckets| && k < |t.buckets|
    && V.Sound(s.buckets[k]) && V.Sound(t.buckets[k]) && V.Later(s.buckets[k], t.buckets[k])
  }

  lemma StepFollows(s: Store, a: P.CallId, m: StoreMove, k: nat)
    requires Enabled(s, a, m) && k < |s.buckets| && V.Sound(s.buckets[k])
    ensures Follows(s, Next(s, a, m), k)
  {
    hide V.Sound, B.Inv;
    EachBucket(s, a, m, k);
    if Next(s, a, m).buckets[k] != s.buckets[k] {
      V.StepSound(s.buckets[k], Next(s, a, m).buckets[k], a);
    }
  }

  lemma EachBucket(s: Store, a: P.CallId, m: StoreMove, k: nat)
    requires Enabled(s, a, m) && k < |s.buckets|
    ensures |Next(s, a, m).buckets| == |s.buckets|
    ensures
      var b, c := s.buckets[k], Next(s, a, m).buckets[k];
      c == b || V.BucketStep(b, c, a)
  {
  }

  lemma {:induction false} RunBuckets(run: Run, limit: nat, i: nat, k: nat)
    requires IsRun(run, limit) && i < |run.states| && k < BUCKET_COUNT
    ensures k < |run.states[i].buckets| && V.Sound(run.states[i].buckets[k])
  {
    hide V.Sound;
    if i == 0 {
      V.SoundInit(limit);
    } else {
      RunBuckets(run, limit, i - 1, k);
      assert RunStep(run, i - 1);
      StepFollows(run.states[i - 1], run.moves[i - 1].0, run.moves[i - 1].1, k);
    }
  }

  lemma {:induction false} RunFollows(run: Run, limit: nat, i: nat, j: nat, k: nat)
    requires IsRun(run, limit) && i <= j < |run.states| && k < BUCKET_COUNT
    ensures Follows(run.states[i], run.states[j], k)
    decreases j
  {
    hide V.Sound;
    RunBuckets(run, limit, j, k);
    if i < j {
      RunFollows(run, limit, i, j - 1, k);
      assert RunStep(run, j - 1);
      StepFollows(run.states[j - 1], run.moves[j - 1].0, run.moves[j - 1].1, k);
    }
  }

  // ----- two calls of `capacity`

  /** Bucket `k` was read in state `times[k]`, while it was not write locked. */
  predicate ReadAt(run: Run, times: seq<nat>, bs: seq<B.Bucket>) {
    && |times| == |bs| == BUCKET_COUNT
    && forall k :: 0 <= k < BUCKET_COUNT ==>
         && times[k] < |run.states| && k < |run.states[times[k]].buckets|
         && bs[k] == run.states[times[k]].buckets[k] && bs[k].writer == {}
  }

  /** The allocated number never goes down; the touched one not while at most one miss is pending in each bucket. */
  lemma CapacityKeepsUp(run: Run, limit: nat, earlier: seq<nat>, bs: seq<B.Bucket>, later: seq<nat>, cs: seq<B.Bucket>)
    requires IsRun(run, limit) && ReadAt(run, earlier, bs) && ReadAt(run, later, cs)
    requires forall k :: 0 <= k < BUCKET_COUNT ==> earlier[k] <= later[k]
    ensures C.AllocatedBelow(bs, BUCKET_COUNT) <= C.AllocatedBelow(cs, BUCKET_COUNT)
    ensures (forall k :: 0 <= k < BUCKET_COUNT ==> |B.Missers(bs[k])| <= 1) ==> C.Returned(bs) <= C.Returned(cs)
  {
    hide IsRun, V.Reading, B.Missers, B.Inv, V.Sound;
    forall k | 0 <= k < BUCKET_COUNT
      ensures bs[k].blocks <= cs[k].blocks
      ensures |B.Missers(bs[k])| <= 1 ==> V.Reading(bs[k]) <= V.Reading(cs[k])
    {
      RunFollows(run, limit, earlier[k], later[k], k);
      if |B.Missers(bs[k])| <= 1 { V.ReadingKeepsUp(bs[k], cs[k]); }
    }
    AllocatedKeepsUp(bs, cs, BUCKET_COUNT);
    if forall k :: 0 <= k < BUCKET_COUNT ==> |B.Missers(bs[k])| <= 1 {
      ReturnedKeepsUp(bs, cs, BUCKET_COUNT);
    }
  }

  lemma {:induction false} AllocatedKeepsUp(bs: seq<B.Bucket>, cs: seq<B.Bucket>, n: nat)
    requires n <= |bs| == |cs| && forall k :: 0 <= k < n ==> bs[k].blocks <= cs[k].blocks
    ensures C.AllocatedBelow(bs, n) <= C.AllocatedBelow(cs, n)
  {
    if n > 0 {
      AllocatedKeepsUp(bs, cs, n - 1);
      Bits.PowerMonotone(bs[n - 1].blocks, cs[n - 1].blocks);
    }
  }

  lemma {:induction false} ReturnedKeepsUp(bs: seq<B.Bucket>, cs: seq<B.Bucket>, n: nat)
    requires n <= |bs| == |cs| && forall k :: 0 <= k < n ==> V.Reading(bs[k]) <= V.Reading(cs[k])
    ensures C.HandedBelow(bs, n) + C.PendingBelow(bs, n) <= C.HandedBelow(cs, n) + C.PendingBelow(cs, n)
  {
    hide C.HandedNumber, B.Missers;
    if n > 0 { ReturnedKeepsUp(bs, cs, n - 1); }
  }

  // ----- a run on which it goes down

  /** Calls 1 and 2 are in the bucket. */
  function Two(blocks: nat, next: nat, writer: set<P.CallId>, one: B.Pc, two: B.Pc): B.Bucket {
    B.Bucket(blocks, next, writer, map[1 := one, 2 := two], 3)
  }

  const BOTH_MISSED: B.Bucket := Two(1, 3, {}, B.FastMiss(1), B.FastMiss(1))
  const ONE_EXPANDED: B.Bucket := B.Bucket(2, 1, {}, map[2 := B.WantWrite(1)], 3)

  lemma SecondCallMisses()
    ensures
      var b := W.Alone(1, 2, {}, 1, B.FastMiss(1), 3);
      && B.CanBegin(b, 2) && B.Begin(b, 2) == Two(1, 2, {}, B.FastMiss(1), B.WantRead)
      && W.Moves(Two(1, 2, {}, B.FastMiss(1), B.WantRead), 2, Two(1, 2, {}, B.FastMiss(1), B.FastFetch), false)
      && W.Moves(Two(1, 2, {}, B.FastMiss(1), B.FastFetch), 2, BOTH_MISSED, false)
  {
    assert HeadLen(1) == 1;
    assert |map[1 := B.FastMiss(1)]| == 1;
  }

  lemma BothWait()
    ensures W.Moves(BOTH_MISSED, 1, Two(1, 3, {}, B.WantWrite(1), B.FastMiss(1)), false)
    ensures W.Moves(Two(1, 3, {}, B.WantWrite(1), B.FastMiss(1)), 2,
                    Two(1, 3, {}, B.WantWrite(1), B.WantWrite(1)), false)
    ensures W.Moves(Two(1, 3, {}, B.WantWrite(1), B.WantWrite(1)), 1,
                    Two(1, 3, {1}, B.SlowFetch(1), B.WantWrite(1)), false)
  {
    assert B.Readers(Two(1, 3, {}, B.WantWrite(1), B.WantWrite(1))) == {};
  }

  lemma FirstExpands()
    ensures W.Moves(Two(1, 3, {1}, B.SlowFetch(1), B.WantWrite(1)), 1,
                    Two(1, 4, {1}, B.SlowExpand(1), B.WantWrite(1)), false)
    ensures W.Moves(Two(1, 4, {1}, B.SlowExpand(1), B.WantWrite(1)), 1,
                    Two(2, 0, {1}, B.SlowRefetch, B.WantWrite(1)), false)
    ensures W.Moves(Two(2, 0, {1}, B.SlowRefetch, B.WantWrite(1)), 1,
                    Two(2, 1, {1}, B.SlowHit(B.Location(1, 0)), B.WantWrite(1)), true)
    ensures W.Moves(Two(2, 1, {1}, B.SlowHit(B.Location(1, 0)), B.WantWrite(1)), 1, ONE_EXPANDED, false)
  {
    assert HeadLen(1) == 1 && HeadLen(2) == 2;
    assert B.Leave(Two(2, 1, {1}, B.SlowHit(B.Location(1, 0)), B.WantWrite(1)), 1).calls == ONE_EXPANDED.calls;
  }

  lemma TwoReadings()
    ensures V.Reading(BOTH_MISSED) == 3 && V.Reading(ONE_EXPANDED) == 2
  {
    assert HeadLen(1) == 1 && HeadLen(2) == 2;
    assert B.Missers(BOTH_MISSED) == {1, 2};
    assert B.Missers(ONE_EXPANDED) == {};
  }

  /** Only bucket 0 was ever used, and it is as given; `live` and `touched` count as in `Witness.Shows`. */
  ghost predicate At(run: Run, b: B.Bucket, touched: nat) {
    && IsRun(run, 3) && W.Shows(run, 0, b, 0, touched) && |W.Last(run).buckets| == BUCKET_COUNT
    && forall k :: 0 < k < BUCKET_COUNT ==> W.Last(run).buckets[k] == B.NewBucket(3)
  }

  lemma Quiet(run: Run, a: P.CallId, b: B.Bucket, next: B.Bucket, touched: nat) returns (more: Run)
    requires At(run, b, touched) && W.Moves(b, a, next, false)
    ensures At(more, next, touched) && run.states <= more.states
  {
    hide IsRun, W.AtMostOne, H.LiveNumber, C.Touched;
    more := W.Looks(run, 3, 0, a, b, next, 0, touched);
  }

  lemma Hit(run: Run, a: P.CallId, b: B.Bucket, next: B.Bucket, touched: nat) returns (more: Run)
    requires At(run, b, touched) && W.Moves(b, a, next, true)
    ensures At(more, next, touched + 1) && run.states <= more.states
  {
    hide IsRun, W.AtMostOne, H.LiveNumber, C.Touched;
    var r;
    more, r := W.Fetches(run, 3, 0, a, 0, touched, b, next);
  }

  lemma OneMisses() returns (run: Run)
    ensures At(run, W.Alone(1, 2, {}, 1, B.FastMiss(1), 3), 1) && W.Last(run).used == {0, 1}
  {
    hide IsRun, W.AtMostOne, H.LiveNumber, C.Touched;
    var start := W.Start(3);
    forall k | 0 < k < BUCKET_COUNT ensures W.Last(start).buckets[k] == B.NewBucket(3) {
      assert W.Shows(start, k, B.NewBucket(3), 0, 0);
    }
    var one := W.OneInserted(start, 3);
    run := W.SecondMisses(one, 3, 0, 1, P.Element(1, 0), 0, 1);
  }

  lemma SecondBegins(run: Run) returns (more: Run)
    requires At(run, W.Alone(1, 2, {}, 1, B.FastMiss(1), 3), 1) && W.Last(run).used == {0, 1}
    ensures At(more, Two(1, 2, {}, B.FastMiss(1), B.WantRead), 1)
  {
    hide IsRun, W.AtMostOne, H.LiveNumber, C.Touched;
    SecondCallMisses();
    more := W.Starts(run, 3, 0, 2, P.Element(2, 0), W.Alone(1, 2, {}, 1, B.FastMiss(1), 3), 0, 1);
  }

  /** One slot handed out, and two calls that have missed. */
  lemma BothMiss() returns (run: Run)
    ensures At(run, BOTH_MISSED, 1)
  {
    hide At;
    SecondCallMisses();
    run := OneMisses();
    run := SecondBegins(run);
    run := Quiet(run, 2, Two(1, 2, {}, B.FastMiss(1), B.WantRead), Two(1, 2, {}, B.FastMiss(1), B.FastFetch), 1);
    run := Quiet(run, 2, Two(1, 2, {}, B.FastMiss(1), B.FastFetch), BOTH_MISSED, 1);
  }

  /** Both wait for the write lock, and the first of them gets it. */
  lemma FirstGetsLock(run: Run) returns (more: Run)
    requires At(run, BOTH_MISSED, 1)
    ensures At(more, Two(1, 3, {1}, B.SlowFetch(1), B.WantWrite(1)), 1) && run.states <= more.states
  {
    hide At;
    BothWait();
    more := Quiet(run, 1, BOTH_MISSED, Two(1, 3, {}, B.WantWrite(1), B.FastMiss(1)), 1);
    more := Quiet(more, 2, Two(1, 3, {}, B.WantWrite(1), B.FastMiss(1)),
                  Two(1, 3, {}, B.WantWrite(1), B.WantWrite(1)), 1);
    more := Quiet(more, 1, Two(1, 3, {}, B.WantWrite(1), B.WantWrite(1)),
                  Two(1, 3, {1}, B.SlowFetch(1), B.WantWrite(1)), 1);
  }

  /** It expands, takes its slot and leaves. */
  lemma FirstLeaves(run: Run) returns (more: Run)
    requires At(run, Two(1, 3, {1}, B.SlowFetch(1), B.WantWrite(1)), 1)
    ensures At(more, ONE_EXPANDED, 2) && run.states <= more.states
  {
    hide At;
    FirstExpands();
    more := Quiet(run, 1, Two(1, 3, {1}, B.SlowFetch(1), B.WantWrite(1)),
                  Two(1, 4, {1}, B.SlowExpand(1), B.WantWrite(1)), 1);
    more := Quiet(more, 1, Two(1, 4, {1}, B.SlowExpand(1), B.WantWrite(1)),
                  Two(2, 0, {1}, B.SlowRefetch, B.WantWrite(1)), 1);
    more := Hit(more, 1, Two(2, 0, {1}, B.SlowRefetch, B.WantWrite(1)),
                Two(2, 1, {1}, B.SlowHit(B.Location(1, 0)), B.WantWrite(1)), 1);
    more := Quiet(more, 1, Two(2, 1, {1}, B.SlowHit(B.Location(1, 0)), B.WantWrite(1)), ONE_EXPANDED, 2);
  }

  /** With all other buckets unused the sum is the reading of bucket 0. */
  lemma {:induction false} SumIsReading(bs: seq<B.Bucket>, limit: nat, n: nat)
    requires 0 < n <= |bs| && forall k :: 0 < k < n ==> bs[k] == B.NewBucket(limit)
    ensures C.HandedBelow(bs, n) + C.PendingBelow(bs, n) == V.Reading(bs[0])
  {
    hide B.Missers;
    if n == 1 {
      assert C.HandedBelow(bs, 0) == 0 && C.PendingBelow(bs, 0) == 0;
    } else {
      SumIsReading(bs, limit, n - 1);
      NewReading(limit);
    }
  }

  lemma NewReading(limit: nat)
    ensures |B.Missers(B.NewBucket(limit))| == 0 && C.HandedNumber(B.NewBucket(limit)) == 0
  {
    assert B.Missers(B.NewBucket(limit)) == {};
  }

  lemma AtReturns(run: Run, b: B.Bucket, touched: nat)
    requires At(run, b, touched) && b.writer == {}
    ensures W.Unwritten(W.Last(run).buckets) && C.Returned(W.Last(run).buckets) == V.Reading(b)
  {
    SumIsReading(W.Last(run).buckets, 3, BUCKET_COUNT);
  }

  /**
   A run on which `capacity` returns 3 touched slots and later 2: at first two calls have
   missed the only block, and then one of them has expanded and is done.
   */
  lemma CapacityDrops() returns (run: Run, i: nat)
    ensures IsRun(run, 3) && i < |run.states|
    ensures W.Unwritten(run.states[i].buckets) && C.Returned(run.states[i].buckets) == 3
    ensures W.Unwritten(W.Last(run).buckets) && C.Returned(W.Last(run).buckets) == 2
  {
    hide At, C.Returned, W.Unwritten, V.Reading;
    var half := BothMiss();
    AtReturns(half, BOTH_MISSED, 1);
    AtRun(half, BOTH_MISSED, 1);
    run := FirstGetsLock(half);
    run := FirstLeaves(run);
    AtReturns(run, ONE_EXPANDED, 2);
    AtRun(run, ONE_EXPANDED, 2);
    TwoReadings();
    i := |half.states| - 1;
    assert run.states[i] == W.Last(half);
  }

  lemma AtRun(run: Run, b: B.Bucket, touched: nat)
    requires At(run, b, touched)
    ensures IsRun(run, 3) && run.states != []
  {
  }
}
