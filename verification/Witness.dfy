/**
 Two runs of the store on which `capacity` does not keep what its documentation says: one
 in which its subtraction underflows, and one in which more slots are touched than there
 ever were elements at the same time.
 */
module Witness {
  import opened Blocks
  import opened Store
  import P = SlotProtocol
  import B = Bucket
  import C = Capacity
  import H = HighWater
  import L = Linearization
  import opened Spec
  import opened Refinement

  function Last(run: Run): Store
    requires run.states != []
  {
    run.states[|run.states| - 1]
  }

  lemma Step(run: Run, limit: nat, a: P.CallId, m: StoreMove) returns (more: Run)
    requires IsRun(run, limit) && Enabled(Last(run), a, m)
    ensures IsRun(more, limit) && more.states == run.states + [Next(Last(run), a, m)]
  {
    more := Run(run.states + [Next(Last(run), a, m)], run.moves + [(a, m)]);
    forall i | 0 <= i < |more.moves| ensures RunStep(more, i) {
      if i < |run.moves| { assert RunStep(run, i); }
    }
  }

  /** In every state there is at most one element. */
  predicate AtMostOne(run: Run) {
    forall i :: 0 <= i < |run.states| ==> H.LiveNumber(run.states[i]) <= 1
  }

  /** A step that inserts and removes no element. */
  lemma Quietly(run: Run, limit: nat, a: P.CallId, m: StoreMove) returns (more: Run)
    requires IsRun(run, limit) && AtMostOne(run) && Enabled(Last(run), a, m)
    requires EventOf(Last(run), a, m).Tau?
    ensures IsRun(more, limit) && AtMostOne(more) && Last(more) == Next(Last(run), a, m)
    ensures run.states <= more.states
    ensures H.LiveNumber(Last(more)) == H.LiveNumber(Last(run))
    ensures |C.Touched(Last(more))| == |C.Touched(Last(run))| + (if H.TakesFresh(Last(run), a, m) then 1 else 0)
  {
    more := Step(run, limit, a, m);
    RunKeepsInv(run, limit, |run.states| - 1);
    StepRefines(Last(run), a, m);
    H.StepTouches(Last(run), a, m);
    Appended(run, more);
  }

  lemma Appended(run: Run, more: Run)
    requires run.states != [] && more.states != [] && AtMostOne(run) && more.states == run.states + [Last(more)]
    requires H.LiveNumber(Last(more)) <= 1
    ensures AtMostOne(more)
  {
    forall i | 0 <= i < |more.states| ensures H.LiveNumber(more.states[i]) <= 1 {
      if i < |run.states| { assert more.states[i] == run.states[i]; }
    }
  }

  /** The last state: bucket `k`, an empty queue, and the numbers of elements and of touched slots. */
  predicate Shows(run: Run, k: nat, b: B.Bucket, live: nat, touched: nat) {
    && run.states != [] && k < |Last(run).buckets| && Last(run).buckets[k] == b && Last(run).erasures == []
    && AtMostOne(run) && H.LiveNumber(Last(run)) == live && |C.Touched(Last(run))| == touched
  }

  /** One step of the allocator in bucket `k`. */
  lemma Allocates(run: Run, limit: nat, k: nat, a: P.CallId, b: B.Bucket, live: nat, touched: nat) returns (more: Run)
    requires IsRun(run, limit) && k < BUCKET_COUNT && Shows(run, k, b, live, touched) && B.Enabled(b, a)
    ensures IsRun(more, limit)
    ensures run.states <= more.states
    ensures Enabled(Last(run), a, Allocate(k)) && Last(more) == Next(Last(run), a, Allocate(k))
    ensures Shows(more, k, B.Next(b, a), live, touched + (if B.FetchesNow(b, a) then 1 else 0))
  {
    hide AtMostOne, H.LiveNumber, C.Touched, IsRun, Inv;
    RunKeepsInv(run, limit, |run.states| - 1);
    AllocateReady(Last(run), a, k);
    more := Quietly(run, limit, a, Allocate(k));
  }

  /** The only call in the bucket is `a`, at `pc`. */
  function Alone(blocks: nat, next: nat, writer: set<P.CallId>, a: P.CallId, pc: B.Pc, limit: nat): B.Bucket {
    B.Bucket(blocks, next, writer, map[a := pc], limit)
  }

  predicate Moves(b: B.Bucket, a: P.CallId, next: B.Bucket, hit: bool) {
    B.Enabled(b, a) && B.Next(b, a) == next && B.FetchesNow(b, a) == hit
  }

  /** Steps of call `a` that get no slot. */
  predicate QuietPath(path: seq<B.Bucket>, a: P.CallId) {
    forall i :: 0 < i < |path| ==> Moves(path[i - 1], a, path[i], false)
  }

  lemma PathInside(a: P.CallId, limit: nat)
    ensures Moves(Alone(0, 0, {}, a, B.WantRead, limit), a, Alone(0, 0, {}, a, B.FastFetch, limit), false)
    ensures Moves(Alone(0, 0, {}, a, B.FastFetch, limit), a, Alone(0, 0, {}, a, B.FastMiss(0), limit), false)
    ensures Moves(Alone(0, 0, {}, a, B.FastMiss(0), limit), a, Alone(0, 0, {}, a, B.WantWrite(0), limit), false)
  {
  }

  lemma PathUnderLock(a: P.CallId, limit: nat)
    ensures Moves(Alone(0, 0, {}, a, B.WantWrite(0), limit), a, Alone(0, 0, {a}, a, B.SlowFetch(0), limit), false)
    ensures Moves(Alone(0, 0, {a}, a, B.SlowFetch(0), limit), a, Alone(0, 0, {a}, a, B.SlowExpand(0), limit), false)
    ensures Moves(Alone(0, 0, {a}, a, B.SlowExpand(0), limit), a, Alone(1, 0, {a}, a, B.SlowRefetch, limit), false)
  {
    assert B.Readers(Alone(0, 0, {}, a, B.WantWrite(0), limit)) == {};
  }

  /** The first insertion into a bucket misses twice and expands. */
  lemma PathToBlock(a: P.CallId, limit: nat) returns (path: seq<B.Bucket>)
    requires 0 < limit
    ensures B.CanBegin(B.NewBucket(limit), a)
    ensures QuietPath(path, a) && |path| == 7 && path[0] == B.Begin(B.NewBucket(limit), a)
    ensures path[6] == Alone(1, 0, {a}, a, B.SlowRefetch, limit)
  {
    hide Moves;
    PathInside(a, limit);
    PathUnderLock(a, limit);
    path := [
      Alone(0, 0, {}, a, B.WantRead, limit),
      Alone(0, 0, {}, a, B.FastFetch, limit),
      Alone(0, 0, {}, a, B.FastMiss(0), limit),
      Alone(0, 0, {}, a, B.WantWrite(0), limit),
      Alone(0, 0, {a}, a, B.SlowFetch(0), limit),
      Alone(0, 0, {a}, a, B.SlowExpand(0), limit),
      Alone(1, 0, {a}, a, B.SlowRefetch, limit)
    ];
  }

  /** Then it gets the only slot, and leaves. */
  lemma PathFromBlock(a: P.CallId, limit: nat)
    ensures Moves(Alone(1, 0, {a}, a, B.SlowRefetch, limit), a,
                  Alone(1, 1, {a}, a, B.SlowHit(B.Location(0, 0)), limit), true)
    ensures Moves(Alone(1, 1, {a}, a, B.SlowHit(B.Location(0, 0)), limit), a, B.Bucket(1, 1, {}, map[], limit), false)
  {
    assert HeadLen(1) == 1;
    assert B.Leave(Alone(1, 1, {a}, a, B.SlowHit(B.Location(0, 0)), limit), a).calls == map[];
  }

  /** Since state `s` insertion `a` of element `e` went to bucket `k`, and nothing else happened. */
  predicate Since(s: Store, t: Store, k: nat, a: P.CallId, e: P.Element) {
    && k < |s.buckets| == |t.buckets| && t.buckets == s.buckets[k := t.buckets[k]]
    && t.used == s.used + {a} && a in t.elements && t.elements[a] == e
    && H.SameButFresh(s, t)
  }

  lemma Looks(run: Run, limit: nat, k: nat, a: P.CallId, b: B.Bucket, next: B.Bucket, live: nat, touched: nat)
      returns (more: Run)
    requires IsRun(run, limit) && k < BUCKET_COUNT && Shows(run, k, b, live, touched) && Moves(b, a, next, false)
    ensures IsRun(more, limit) && Shows(more, k, next, live, touched)
    ensures run.states <= more.states
    ensures H.SameButFresh(Last(run), Last(more))
    ensures Last(more).elements == Last(run).elements && Last(more).used == Last(run).used
    ensures Last(more).buckets == Last(run).buckets[k := next]
  {
    hide AtMostOne, H.LiveNumber, C.Touched;
    more := Allocates(run, limit, k, a, b, live, touched);
    RunKeepsInv(run, limit, |run.states| - 1);
    H.QuietAllocate(Last(run), a, k);
  }

  lemma SinceStep(s: Store, t: Store, u: Store, k: nat, a: P.CallId, e: P.Element)
    requires Since(s, t, k, a, e) && H.SameButFresh(t, u)
    requires u.elements == t.elements && u.used == t.used && |u.buckets| == |t.buckets|
    requires u.buckets == t.buckets[k := u.buckets[k]]
    ensures Since(s, u, k, a, e)
  {
  }

  /** The allocator goes along a path on which it gets no slot. */
  lemma {:induction false} Follows(run: Run, limit: nat, k: nat, a: P.CallId, path: seq<B.Bucket>,
                                   live: nat, touched: nat, s: Store, e: P.Element)
    returns (more: Run)
    requires IsRun(run, limit) && k < BUCKET_COUNT && QuietPath(path, a) && path != []
    requires Shows(run, k, path[0], live, touched) && Since(s, Last(run), k, a, e)
    ensures IsRun(more, limit) && Shows(more, k, path[|path| - 1], live, touched) && Since(s, Last(more), k, a, e)
    decreases |path|
  {
    hide IsRun, AtMostOne, H.LiveNumber, C.Touched;
    if |path| == 1 { return run; }
    assert Moves(path[0], a, path[1], false);
    more := Looks(run, limit, k, a, path[0], path[1], live, touched);
    SinceStep(s, Last(run), Last(more), k, a, e);
    forall i | 0 < i < |path[1..]| ensures Moves(path[1..][i - 1], a, path[1..][i], false) {
      assert Moves(path[i], a, path[i + 1], false);
    }
    more := Follows(more, limit, k, a, path[1..], live, touched, s, e);
  }

  /** Since state `s` insertion `a` was given the new slot `r` of bucket `k`, and nothing else happened. */
  predicate Given(s: Store, t: Store, k: nat, a: P.CallId, e: P.Element, r: SlotRef) {
    && k < |s.buckets| == |t.buckets| && t.buckets == s.buckets[k := t.buckets[k]] && t.used == s.used + {a}
    && r.bucket == k && r in t.slots && t.slots[r] == P.Reserve(P.NEW_SLOT, a, e)
    && t.slots.Keys >= s.slots.Keys && forall q :: q in s.slots && q != r ==> t.slots[q] == s.slots[q]
  }

  lemma NoSlotYet(s: Store, r: SlotRef)
    requires BucketsInv(s) && r.bucket < BUCKET_COUNT && s.buckets[r.bucket].blocks == 0
    ensures r !in s.slots
  {
    assert r in s.slots <==> InRange(s, r);
  }

  lemma GivenByFetch(s: Store, t: Store, u: Store, k: nat, a: P.CallId, e: P.Element, r: SlotRef)
    requires Since(s, t, k, a, e) && r !in s.slots && r in t.slots && r.bucket == k
    requires u.slots == t.slots[r := P.Reserve(t.slots[r], a, t.elements[a])] && u.used == t.used
    requires |u.buckets| == |t.buckets| && u.buckets == t.buckets[k := u.buckets[k]]
    ensures Given(s, u, k, a, e, r)
  {
  }

  lemma GivenStep(s: Store, t: Store, u: Store, k: nat, a: P.CallId, e: P.Element, r: SlotRef)
    requires Given(s, t, k, a, e, r) && H.SameButFresh(t, u) && u.used == t.used
    requires |u.buckets| == |t.buckets| && u.buckets == t.buckets[k := u.buckets[k]]
    ensures Given(s, u, k, a, e, r)
  {
  }

  /** The fetch from the new block. */
  lemma Fetches(run: Run, limit: nat, k: nat, a: P.CallId, live: nat, touched: nat, b: B.Bucket, next: B.Bucket)
      returns (more: Run, r: SlotRef)
    requires IsRun(run, limit) && k < BUCKET_COUNT && Shows(run, k, b, live, touched) && Moves(b, a, next, true)
    ensures IsRun(more, limit) && Shows(more, k, next, live, touched + 1)
    ensures run.states <= more.states
    ensures r.bucket == k && r in Last(run).slots && a in Last(run).elements
    ensures Last(more).slots == Last(run).slots[r := P.Reserve(Last(run).slots[r], a, Last(run).elements[a])]
    ensures Last(more).used == Last(run).used && Last(more).buckets == Last(run).buckets[k := next]
  {
    hide IsRun, AtMostOne, H.LiveNumber, C.Touched;
    r := RefOf(k, B.Offered(b));
    more := Allocates(run, limit, k, a, b, live, touched);
  }

  lemma Starts(run: Run, limit: nat, k: nat, a: P.CallId, e: P.Element, b: B.Bucket, live: nat, touched: nat)
    returns (more: Run)
    requires IsRun(run, limit) && k < BUCKET_COUNT && Shows(run, k, b, live, touched) && B.CanBegin(b, a)
    requires a !in Last(run).used && e.token == a
    ensures IsRun(more, limit) && Shows(more, k, B.Begin(b, a), live, touched)
    ensures Since(Last(run), Last(more), k, a, e)
  {
    hide IsRun, AtMostOne, H.LiveNumber, C.Touched;
    more := Quietly(run, limit, a, StartInsert(e, k));
  }

  /** The way of an insertion through a bucket that has no block yet, up to the fetch. */
  lemma FirstFetch(run: Run, limit: nat, k: nat, a: P.CallId, e: P.Element, live: nat, touched: nat)
      returns (more: Run, r: SlotRef)
    requires IsRun(run, limit) && 0 < limit && k < BUCKET_COUNT && Shows(run, k, B.NewBucket(limit), live, touched)
    requires a !in Last(run).used && e.token == a
    ensures IsRun(more, limit)
    ensures Shows(more, k, Alone(1, 1, {a}, a, B.SlowHit(B.Location(0, 0)), limit), live, touched + 1)
    ensures Given(Last(run), Last(more), k, a, e, r)
  {
    hide IsRun, AtMostOne, H.LiveNumber, C.Touched;
    var path := PathToBlock(a, limit);
    more := Starts(run, limit, k, a, e, B.NewBucket(limit), live, touched);
    more := Follows(more, limit, k, a, path, live, touched, Last(run), e);
    PathFromBlock(a, limit);
    var t := Last(more);
    more, r := Fetches(more, limit, k, a, live, touched, path[6],
                       Alone(1, 1, {a}, a, B.SlowHit(B.Location(0, 0)), limit));
    LastBuckets(run, limit);
    NoSlotYet(Last(run), r);
    GivenByFetch(Last(run), t, Last(more), k, a, e, r);
  }

  lemma LastBuckets(run: Run, limit: nat)
    requires IsRun(run, limit)
    ensures BucketsInv(Last(run))
  {
    RunKeepsInv(run, limit, |run.states| - 1);
  }

  /** And out of the bucket again. */
  lemma FirstInsert(run: Run, limit: nat, k: nat, a: P.CallId, e: P.Element, live: nat, touched: nat)
      returns (more: Run, r: SlotRef)
    requires IsRun(run, limit) && 0 < limit && k < BUCKET_COUNT && Shows(run, k, B.NewBucket(limit), live, touched)
    requires a !in Last(run).used && e.token == a
    ensures IsRun(more, limit) && Shows(more, k, B.Bucket(1, 1, {}, map[], limit), live, touched + 1)
    ensures Given(Last(run), Last(more), k, a, e, r)
  {
    hide IsRun, AtMostOne, H.LiveNumber, C.Touched;
    more, r := FirstFetch(run, limit, k, a, e, live, touched);
    PathFromBlock(a, limit);
    var t := Last(more);
    more := Looks(more, limit, k, a, Alone(1, 1, {a}, a, B.SlowHit(B.Location(0, 0)), limit),
                  B.Bucket(1, 1, {}, map[], limit), live, touched + 1);
    GivenStep(Last(run), t, Last(more), k, a, e, r);
  }

  /** The run of nothing. */
  lemma Start(limit: nat) returns (run: Run)
    requires limit <= Bits.TWO31
    ensures IsRun(run, limit) && Last(run).used == {} && Unwritten(Last(run).buckets) && Ready(Last(run), limit)
    ensures forall k :: 0 <= k < BUCKET_COUNT ==> Shows(run, k, B.NewBucket(limit), 0, 0)
  {
    run := Run([NewStore(limit)], []);
    assert AbsOf(NewStore(limit)).live == map[];
    assert C.Touched(NewStore(limit)) == {};
  }

  // ----- the underflow

  /** A fast path that finds the only block full. */
  lemma MissPath(a: P.CallId, limit: nat)
    requires 0 < limit
    ensures
      var b := B.Bucket(1, 1, {}, map[], limit);
      && B.CanBegin(b, a) && B.Begin(b, a) == Alone(1, 1, {}, a, B.WantRead, limit)
      && Moves(Alone(1, 1, {}, a, B.WantRead, limit), a, Alone(1, 1, {}, a, B.FastFetch, limit), false)
      && Moves(Alone(1, 1, {}, a, B.FastFetch, limit), a, Alone(1, 2, {}, a, B.FastMiss(1), limit), false)
  {
    assert HeadLen(1) == 1;
  }

  lemma SecondMisses(run: Run, limit: nat, k: nat, a: P.CallId, e: P.Element, live: nat, touched: nat)
    returns (more: Run)
    requires IsRun(run, limit) && 0 < limit && k < BUCKET_COUNT
    requires Shows(run, k, B.Bucket(1, 1, {}, map[], limit), live, touched)
    requires a !in Last(run).used && e.token == a
    ensures IsRun(more, limit) && Shows(more, k, Alone(1, 2, {}, a, B.FastMiss(1), limit), live, touched)
    ensures Last(more).buckets == Last(run).buckets[k := Last(more).buckets[k]]
    ensures Last(more).used == Last(run).used + {a}
  {
    hide IsRun, AtMostOne, H.LiveNumber, C.Touched;
    MissPath(a, limit);
    more := Starts(run, limit, k, a, e, B.Bucket(1, 1, {}, map[], limit), live, touched);
    more := Looks(more, limit, k, a, Alone(1, 1, {}, a, B.WantRead, limit),
                  Alone(1, 1, {}, a, B.FastFetch, limit), live, touched);
    more := Looks(more, limit, k, a, Alone(1, 1, {}, a, B.FastFetch, limit),
                  Alone(1, 2, {}, a, B.FastMiss(1), limit), live, touched);
  }

  lemma MissCounts(a: P.CallId, limit: nat)
    ensures
      var b := Alone(1, 2, {}, a, B.FastMiss(1), limit);
      C.MissPending(b) && C.HandedNumber(b) == 1 && |B.Missers(b)| == 1 && SlotsOf(b.blocks) == 1
  {
    var b := Alone(1, 2, {}, a, B.FastMiss(1), limit);
    assert a in b.calls && B.MissedIn(b.calls[a], b.blocks);
    assert B.Missers(b) == {a};
  }

  /** No bucket is write locked. */
  predicate Unwritten(bs: seq<B.Bucket>) {
    forall k :: 0 <= k < |bs| ==> bs[k].writer == {}
  }

  lemma OneInserted(start: Run, limit: nat) returns (run: Run)
    requires IsRun(start, limit) && 0 < limit && Shows(start, 0, B.NewBucket(limit), 0, 0)
    requires Last(start).used == {} && Unwritten(Last(start).buckets)
    ensures IsRun(run, limit) && Shows(run, 0, B.Bucket(1, 1, {}, map[], limit), 0, 1)
    ensures |Last(run).buckets| == |Last(start).buckets|
    ensures Last(run).buckets == Last(start).buckets[0 := Last(run).buckets[0]]
    ensures Last(run).used == {0} && Unwritten(Last(run).buckets)
  {
    hide IsRun, AtMostOne, H.LiveNumber, C.Touched;
    var r;
    run, r := FirstInsert(start, limit, 0, 0, P.Element(0, 0), 0, 0);
    StillUnwritten(Last(start).buckets, Last(run).buckets, 0);
  }

  lemma StillUnwritten(bs: seq<B.Bucket>, cs: seq<B.Bucket>, k: nat)
    requires Unwritten(bs) && k < |bs| == |cs| && cs == bs[k := cs[k]] && cs[k].writer == {}
    ensures Unwritten(cs)
  {
  }

  lemma OneThenMiss(start: Run, limit: nat) returns (run: Run)
    requires IsRun(start, limit) && 0 < limit && Shows(start, 0, B.NewBucket(limit), 0, 0)
    requires Last(start).used == {} && Unwritten(Last(start).buckets)
    ensures IsRun(run, limit) && Shows(run, 0, Alone(1, 2, {}, 1, B.FastMiss(1), limit), 0, 1)
    ensures Unwritten(Last(run).buckets)
  {
    hide IsRun, AtMostOne, H.LiveNumber, C.Touched;
    var one := OneInserted(start, limit);
    run := SecondMisses(one, limit, 0, 1, P.Element(1, 0), 0, 1);
    StillUnwritten(Last(one).buckets, Last(run).buckets, 0);
  }

  /**
   One insertion, and a second one that has just missed: `capacity` subtracts 2 from 1, and
   with wrapping subtraction reports 2 touched slots of 1 allocated, when 1 was handed out.
   */
  lemma CapacityUnderflows() returns (run: Run)
    ensures IsRun(run, 2) && Unwritten(Last(run).buckets) && |Last(run).buckets| > 0
    ensures
      var b := Last(run).buckets[0];
      C.MissPending(b) && C.HandedNumber(b) == 1 && |B.Missers(b)| == 1 && SlotsOf(b.blocks) == 1
    ensures |C.Touched(Last(run))| == 1
  {
    run := Start(2);
    run := OneThenMiss(run, 2);
    MissCounts(1, 2);
  }

  // ----- the peak

  /** An empty queue, and the numbers of elements and of touched slots. */
  predicate Counts(run: Run, live: nat, touched: nat) {
    && run.states != [] && Last(run).erasures == []
    && AtMostOne(run) && H.LiveNumber(Last(run)) == live && |C.Touched(Last(run))| == touched
  }

  function LiveAfter(ev: Event<Id>, live: nat): nat {
    if ev.EvInsert? then live + 1 else if IsRemoval(ev) && live > 0 then live - 1 else live
  }

  lemma EventCounts(s: Spec<Id>, t: Spec<Id>, a: P.CallId, ev: Event<Id>)
    requires SpecStep(s, t, a, ev)
    ensures |t.live| == LiveAfter(ev, |s.live|)
  {
    EventKeys(s, t, a, ev);
    hide SpecStep, IsRemoval;
    assert |t.live| == |t.live.Keys| && |s.live| == |s.live.Keys|;
  }

  lemma EventKeys(s: Spec<Id>, t: Spec<Id>, a: P.CallId, ev: Event<Id>)
    requires SpecStep(s, t, a, ev)
    ensures ev.EvInsert? ==> ev.key !in s.live.Keys && t.live.Keys == s.live.Keys + {ev.key}
    ensures IsRemoval(ev) ==> ev.key in s.live.Keys && t.live.Keys == s.live.Keys - {ev.key}
    ensures !ev.EvInsert? && !IsRemoval(ev) ==> t.live.Keys == s.live.Keys
  {
  }

  /** Slot `r` and everything else after a step of call `a` at `r`. */
  predicate Moved(s: Store, t: Store, r: SlotRef, a: P.CallId, d: P.Slot) {
    t.slots == s.slots[r := d] && t.buckets == s.buckets && t.used == s.used + {a}
  }

  predicate NobodyAllocating(s: Store) {
    forall k :: 0 <= k < |s.buckets| ==> s.buckets[k].calls == map[]
  }

  lemma AtEnabled(s: Store, r: SlotRef, a: P.CallId, mv: P.Move)
    requires NobodyAllocating(s) && r in s.slots && P.Enabled(s.slots[r], a, mv)
    requires !mv.BeginInsert? && (mv.Begin? ==> a !in s.used) && !Pushes(s.slots[r], a, mv)
    ensures Enabled(s, a, AtSlot(r, mv))
    ensures Moved(s, Next(s, a, AtSlot(r, mv)), r, a, P.Next(s.slots[r], a, mv))
    ensures Next(s, a, AtSlot(r, mv)).erasures == s.erasures
  {
  }

  lemma StepCounts(s: Store, a: P.CallId, m: StoreMove)
    requires Inv(s) && Enabled(s, a, m)
    ensures H.LiveNumber(Next(s, a, m)) == LiveAfter(EventOf(s, a, m), H.LiveNumber(s))
    ensures !m.Allocate? ==> |C.Touched(Next(s, a, m))| == |C.Touched(s)|
  {
    StepRefines(s, a, m);
    EventCounts(AbsOf(s), AbsOf(Next(s, a, m)), a, EventOf(s, a, m));
    H.StepTouches(s, a, m);
  }

  lemma Append(run: Run, limit: nat, a: P.CallId, m: StoreMove) returns (more: Run)
    requires IsRun(run, limit) && AtMostOne(run) && Enabled(Last(run), a, m) && !m.Allocate?
    requires LiveAfter(EventOf(Last(run), a, m), H.LiveNumber(Last(run))) <= 1
    ensures IsRun(more, limit) && AtMostOne(more) && Last(more) == Next(Last(run), a, m)
    ensures H.LiveNumber(Last(more)) == LiveAfter(EventOf(Last(run), a, m), H.LiveNumber(Last(run)))
    ensures |C.Touched(Last(more))| == |C.Touched(Last(run))|
  {
    more := Step(run, limit, a, m);
    RunKeepsInv(run, limit, |run.states| - 1);
    StepCounts(Last(run), a, m);
    Appended(run, more);
  }

  /** A step of call `a` at slot `r`, which is `c` before and `d` after. */
  lemma At(run: Run, limit: nat, r: SlotRef, a: P.CallId, mv: P.Move, c: P.Slot, d: P.Slot, live: nat, touched: nat)
      returns (more: Run)
    requires IsRun(run, limit) && Counts(run, live, touched) && NobodyAllocating(Last(run))
    requires r in Last(run).slots && Last(run).slots[r] == c && P.Enabled(c, a, mv) && d == P.Next(c, a, mv)
    requires !mv.BeginInsert? && (mv.Begin? ==> a !in Last(run).used) && !Pushes(c, a, mv)
    requires LiveAfter(Lift(r, L.EventOf(c, a, mv)), live) <= 1
    ensures IsRun(more, limit) && Counts(more, LiveAfter(Lift(r, L.EventOf(c, a, mv)), live), touched)
    ensures Moved(Last(run), Last(more), r, a, d)
  {
    AtEnabled(Last(run), r, a, mv);
    more := Append(run, limit, a, AtSlot(r, mv));
  }

  /** Slot `c` becomes `d` by a step of call `a` that pushes nothing and is the event `ev`. */
  predicate SlotMoves(c: P.Slot, a: P.CallId, mv: P.Move, d: P.Slot, ev: Event<nat>) {
    && P.Enabled(c, a, mv) && P.Next(c, a, mv) == d && L.EventOf(c, a, mv) == ev
    && !mv.BeginInsert? && !Pushes(c, a, mv)
  }

  /** A new slot given to an insertion; then written; then occupied; then being removed; then removed. */
  function Reserved(a: P.CallId, e: P.Element): P.Slot { P.Reserve(P.NEW_SLOT, a, e) }
  function Written(a: P.CallId, e: P.Element): P.Slot { P.WriteValue(Reserved(a, e), a) }
  function Occupied(a: P.CallId, e: P.Element): P.Slot { P.Occupy(Written(a, e), a) }

  lemma FillMoves(a: P.CallId, e: P.Element)
    ensures SlotMoves(Reserved(a, e), a, P.Go, Written(a, e), Tau)
    ensures SlotMoves(Written(a, e), a, P.Go, Occupied(a, e), EvInsert(0, e))
  {
  }

  /** The slot while it is being removed, and removed. */
  lemma RemoveMoves(r: SlotRef, a: P.CallId, e: P.Element, b: P.CallId)
      returns (mv: P.Move, c: P.Slot, d: P.Slot, f: P.Slot, ev: Event<nat>)
    requires a != b
    ensures c == Occupied(a, e) && SlotMoves(c, b, mv, d, Tau) && SlotMoves(d, b, P.Go, f, ev)
    ensures LiveAfter(Lift(r, ev), 1) == 0
  {
    c := Occupied(a, e);
    mv := P.Begin(P.Remove(0), P.DontBlock);
    d := P.Next(c, b, mv);
    f := P.Transitioned(d, b, P.RemoveTake);
    ev := EvRemove(0, e);
  }

  lemma MovedTwice(s: Store, t: Store, u: Store, r: SlotRef, a: P.CallId, c: P.Slot, d: P.Slot)
    requires Moved(s, t, r, a, c) && Moved(t, u, r, a, d)
    ensures Moved(s, u, r, a, d)
  {
  }

  lemma AtKnown(run: Run, limit: nat, r: SlotRef, a: P.CallId, mv: P.Move, c: P.Slot, d: P.Slot, ev: Event<nat>,
                live: nat, touched: nat) returns (more: Run)
    requires IsRun(run, limit) && Counts(run, live, touched) && NobodyAllocating(Last(run))
    requires r in Last(run).slots && Last(run).slots[r] == c && SlotMoves(c, a, mv, d, ev)
    requires mv.Begin? ==> a !in Last(run).used
    requires LiveAfter(Lift(r, ev), live) <= 1
    ensures IsRun(more, limit) && Counts(more, LiveAfter(Lift(r, ev), live), touched)
    ensures Moved(Last(run), Last(more), r, a, d)
  {
    hide IsRun, AtMostOne, H.LiveNumber, C.Touched;
    more := At(run, limit, r, a, mv, c, d, live, touched);
  }

  /** Two steps in a row, the first of which inserts and removes nothing. */
  lemma Twice(run: Run, limit: nat, r: SlotRef, a: P.CallId, first: P.Move, c: P.Slot, d: P.Slot, f: P.Slot,
              ev: Event<nat>, live: nat, touched: nat)
    returns (more: Run)
    requires IsRun(run, limit) && Counts(run, live, touched) && NobodyAllocating(Last(run)) && live <= 1
    requires r in Last(run).slots && Last(run).slots[r] == c
    requires SlotMoves(c, a, first, d, Tau) && SlotMoves(d, a, P.Go, f, ev)
    requires first.Begin? ==> a !in Last(run).used
    requires LiveAfter(Lift(r, ev), live) <= 1
    ensures IsRun(more, limit) && Counts(more, LiveAfter(Lift(r, ev), live), touched)
    ensures Moved(Last(run), Last(more), r, a, f)
  {
    hide IsRun, AtMostOne, H.LiveNumber, C.Touched, SlotMoves;
    var half := AtKnown(run, limit, r, a, first, c, d, Tau, live, touched);
    more := AtKnown(half, limit, r, a, P.Go, d, f, ev, live, touched);
    MovedTwice(Last(run), Last(half), Last(more), r, a, d, f);
  }

  /** An insertion that has its slot writes the element and occupies. */
  lemma Fills(run: Run, limit: nat, r: SlotRef, a: P.CallId, e: P.Element, touched: nat) returns (more: Run)
    requires IsRun(run, limit) && Counts(run, 0, touched) && NobodyAllocating(Last(run))
    requires r in Last(run).slots && Last(run).slots[r] == Reserved(a, e)
    ensures IsRun(more, limit) && Counts(more, 1, touched)
    ensures Moved(Last(run), Last(more), r, a, Occupied(a, e))
  {
    hide IsRun, AtMostOne, H.LiveNumber, C.Touched, SlotMoves;
    FillMoves(a, e);
    more := Twice(run, limit, r, a, P.Go, Reserved(a, e), Written(a, e), Occupied(a, e), EvInsert(0, e), 0, touched);
  }

  /** Everybody is out of the buckets, and bucket 1 was never used. */
  predicate Ready(s: Store, limit: nat) {
    NobodyAllocating(s) && |s.buckets| == BUCKET_COUNT && s.buckets[1] == B.NewBucket(limit)
  }

  lemma InsertsFirst(start: Run, limit: nat) returns (run: Run, r: SlotRef)
    requires IsRun(start, limit) && 0 < limit && Shows(start, 0, B.NewBucket(limit), 0, 0)
    requires Ready(Last(start), limit) && Last(start).used == {}
    ensures IsRun(run, limit) && Counts(run, 0, 1) && Ready(Last(run), limit) && Last(run).used == {0}
    ensures r in Last(run).slots && Last(run).slots[r] == Reserved(0, P.Element(0, 0))
  {
    hide IsRun, AtMostOne, H.LiveNumber, C.Touched;
    run, r := FirstInsert(start, limit, 0, 0, P.Element(0, 0), 0, 0);
  }

  lemma InsertsSecond(start: Run, limit: nat) returns (run: Run, r: SlotRef)
    requires IsRun(start, limit) && 0 < limit && Counts(start, 0, 1)
    requires Ready(Last(start), limit) && Last(start).used == {0, 1}
    ensures IsRun(run, limit) && Counts(run, 0, 2) && NobodyAllocating(Last(run))
    ensures r in Last(run).slots && Last(run).slots[r] == Reserved(2, P.Element(2, 0))
  {
    hide IsRun, AtMostOne, H.LiveNumber, C.Touched;
    run, r := FirstInsert(start, limit, 1, 2, P.Element(2, 0), 0, 1);
  }

  lemma InsertsAndFills() returns (run: Run, r: SlotRef)
    ensures IsRun(run, 1) && Counts(run, 1, 1) && Ready(Last(run), 1) && Last(run).used == {0}
    ensures r in Last(run).slots && Last(run).slots[r] == Occupied(0, P.Element(0, 0))
  {
    hide IsRun, AtMostOne, H.LiveNumber, C.Touched;
    run := Start(1);
    run, r := InsertsFirst(run, 1);
    run := Fills(run, 1, r, 0, P.Element(0, 0), 1);
  }

  /** A removal gets as far as having the slot to itself. */
  lemma Removes(run: Run, r: SlotRef, mv: P.Move, c: P.Slot, d: P.Slot, f: P.Slot, ev: Event<nat>, live: nat)
    returns (more: Run)
    requires IsRun(run, 1) && Counts(run, 1, 1) && NobodyAllocating(Last(run)) && 1 !in Last(run).used
    requires r in Last(run).slots && Last(run).slots[r] == c
    requires SlotMoves(c, 1, mv, d, Tau) && SlotMoves(d, 1, P.Go, f, ev)
    requires live == LiveAfter(Lift(r, ev), 1) && live <= 1
    ensures IsRun(more, 1) && Counts(more, live, 1) && Moved(Last(run), Last(more), r, 1, f)
  {
    hide IsRun, AtMostOne, H.LiveNumber, C.Touched, SlotMoves;
    more := Twice(run, 1, r, 1, mv, c, d, f, ev, 1, 1);
  }

  lemma MovedIsReady(s: Store, t: Store, r: SlotRef, a: P.CallId, d: P.Slot, limit: nat)
    requires Moved(s, t, r, a, d) && Ready(s, limit)
    ensures Ready(t, limit)
  {
  }

  /** An insertion, and a removal of its element that still has the slot. */
  lemma InsertAndRemove() returns (run: Run)
    ensures IsRun(run, 1) && Counts(run, 0, 1) && Ready(Last(run), 1) && Last(run).used == {0, 1}
  {
    hide IsRun, AtMostOne, H.LiveNumber, C.Touched, SlotMoves;
    var r;
    run, r := InsertsAndFills();
    var before := Last(run);
    var mv, c, d, f, ev := RemoveMoves(r, 0, P.Element(0, 0), 1);
    run := Removes(run, r, mv, c, d, f, ev, 0);
    MovedIsReady(before, Last(run), r, 1, f, 1);
  }

  /**
   An insertion, a removal that has not pushed its slot yet, and a second insertion: there
   never was more than one element, but two slots are touched.
   */
  lemma TouchedExceedsPeak() returns (run: Run)
    ensures IsRun(run, 1)
    ensures |C.Touched(Last(run))| == 2 && H.Peak(run, |run.states| - 1) == 1
  {
    var q;
    run := InsertAndRemove();
    run, q := InsertsSecond(run, 1);
    run := Fills(run, 1, q, 2, P.Element(2, 0), 2);
    PeakIsOne(run);
  }

  lemma PeakIsOne(run: Run)
    requires run.states != [] && AtMostOne(run) && H.LiveNumber(Last(run)) == 1
    ensures H.Peak(run, |run.states| - 1) == 1
  {
    hide AtMostOne, H.Peak, H.LiveNumber;
    H.LiveBelowPeak(run, |run.states| - 1, |run.states| - 1);
    PeakAtMostOne(run, |run.states| - 1);
  }

  lemma PeakAtMostOne(run: Run, n: nat)
    requires AtMostOne(run) && n < |run.states|
    ensures H.Peak(run, n) <= 1
  {
    var xs := H.LiveNumbers(run, n);
    forall i | 0 <= i < |xs| ensures xs[i] <= 1 {
      assert xs[i] == H.LiveNumber(run.states[i]);
    }
    H.LargestWithin(xs, 1);
  }
}
