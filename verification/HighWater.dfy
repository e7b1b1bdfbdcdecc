/**
 The touched capacity over runs of the store: in every run it never decreases and bounds
 the number of live elements; in every sequential run it is the high-water mark of live
 elements and retired slots together.
 */
module HighWater {
  import opened Store
  import P = SlotProtocol
  import I = SlotInvariant
  import F = SlotFacts
  import L = Linearization
  import B = Bucket
  import C = Capacity
  import Bits
  import opened Refinement

  // ----- counting slots by who has them

  datatype Kind = Fresh | Queued | Held | Live | Retired

  function KindOf(h: P.Home): Kind {
    match h
    case Fresh => Fresh
    case Queued => Queued
    case Held(_) => Held
    case Live => Live
    case Retired => Retired
  }

  function OfKind(slots: map<SlotRef, P.Slot>, k: Kind): set<SlotRef> {
    set r | r in slots && KindOf(slots[r].home) == k
  }

  function Count(s: Store, k: Kind): nat {
    |OfKind(s.slots, k)|
  }

  lemma KindUpdate(slots: map<SlotRef, P.Slot>, r: SlotRef, c: P.Slot, k: Kind)
    requires r in slots
    ensures |OfKind(slots[r := c], k)| + I.One(KindOf(slots[r].home) == k) ==
            |OfKind(slots, k)| + I.One(KindOf(c.home) == k)
  {
    hide KindOf;
    var before, after := OfKind(slots, k), OfKind(slots[r := c], k);
    KindElsewhere(slots, r, c, k);
    assert r in before <==> KindOf(slots[r].home) == k;
    assert r in after <==> KindOf(c.home) == k;
    Without(before, r);
    Without(after, r);
  }

  lemma KindElsewhere(slots: map<SlotRef, P.Slot>, r: SlotRef, c: P.Slot, k: Kind)
    requires r in slots
    ensures OfKind(slots, k) - {r} == OfKind(slots[r := c], k) - {r}
  {
    hide KindOf;
  }

  lemma Without(rs: set<SlotRef>, r: SlotRef)
    ensures |rs| == |rs - {r}| + I.One(r in rs)
  {
  }

  lemma ByKind(s: Store, r: SlotRef)
    ensures r in C.Touched(s) <==>
            || r in OfKind(s.slots, Queued) || r in OfKind(s.slots, Held)
            || r in OfKind(s.slots, Live) || r in OfKind(s.slots, Retired)
  {
  }

  lemma Disjoint(slots: map<SlotRef, P.Slot>, j: Kind, k: Kind)
    requires j != k
    ensures OfKind(slots, j) !! OfKind(slots, k)
  {
  }

  lemma SizeOfFour(q: set<SlotRef>, h: set<SlotRef>, l: set<SlotRef>, r: set<SlotRef>)
    requires q !! h && q !! l && q !! r && h !! l && h !! r && l !! r
    ensures |q + h + l + r| == |q| + |h| + |l| + |r|
  {
    assert (q + h) !! l && (q + h + l) !! r;
  }

  /** Every slot that was handed out is in the queue, on its way, live, or retired. */
  lemma TouchedIsSplit(s: Store)
    ensures |C.Touched(s)| == Count(s, Queued) + Count(s, Held) + Count(s, Live) + Count(s, Retired)
  {
    hide OfKind, C.Touched;
    var q, h, l, r := OfKind(s.slots, Queued), OfKind(s.slots, Held), OfKind(s.slots, Live), OfKind(s.slots, Retired);
    forall x ensures x in C.Touched(s) <==> x in q + h + l + r { ByKind(s, x); }
    assert C.Touched(s) == q + h + l + r;
    Disjoint(s.slots, Queued, Held);
    Disjoint(s.slots, Queued, Live);
    Disjoint(s.slots, Queued, Retired);
    Disjoint(s.slots, Held, Live);
    Disjoint(s.slots, Held, Retired);
    Disjoint(s.slots, Live, Retired);
    SizeOfFour(q, h, l, r);
  }

  // ----- the live elements

  function LiveIds(s: Store, rs: set<SlotRef>): set<Id> {
    set r | r in rs && r in s.slots :: Id(r, s.slots[r].word.id)
  }

  lemma {:induction false} LiveIdsSize(s: Store, rs: set<SlotRef>)
    requires forall r :: r in rs ==> r in s.slots
    ensures |LiveIds(s, rs)| == |rs|
  {
    if rs != {} {
      var r :| r in rs;
      LiveIdsSize(s, rs - {r});
      var id := Id(r, s.slots[r].word.id);
      assert id !in LiveIds(s, rs - {r});
      assert LiveIds(s, rs) == LiveIds(s, rs - {r}) + {id};
    }
  }

  lemma LiveByHome(s: Store, r: SlotRef)
    requires SlotsInv(s) && r in s.slots
    ensures L.IsLive(s.slots[r]) <==> s.slots[r].home.Live?
  {
    assert I.Inv(s.slots[r]);
  }

  lemma IsLiveId(s: Store, id: Id)
    ensures id in LiveIds(s, OfKind(s.slots, Live)) <==>
            id.slot in s.slots && s.slots[id.slot].home.Live? && id.ord == s.slots[id.slot].word.id
  {
    var rs := OfKind(s.slots, Live);
    assert id.slot in s.slots ==> (id.slot in rs <==> s.slots[id.slot].home.Live?);
    if id.slot in rs {
      assert Id(id.slot, s.slots[id.slot].word.id) in LiveIds(s, rs);
    }
  }

  lemma LiveOrdinal(c: P.Slot, o: nat)
    ensures o in L.SpecOf(c).live <==> L.IsLive(c) && o == c.word.id
  {
  }

  lemma LiveIdsAreLive(s: Store, id: Id)
    requires SlotsInv(s)
    ensures id in AbsOf(s).live <==> id in LiveIds(s, OfKind(s.slots, Live))
  {
    hide AbsOf, L.SpecOf, SlotsInv, KindOf, LiveIds;
    AbsAt(s, id.slot, id.ord);
    IsLiveId(s, id);
    if id.slot in s.slots {
      LiveByHome(s, id.slot);
      LiveOrdinal(s.slots[id.slot], id.ord);
    }
  }

  /** The number of live slots is the number of elements in the abstract map. */
  lemma LiveCount(s: Store)
    requires SlotsInv(s)
    ensures Count(s, Live) == |AbsOf(s).live|
  {
    hide AbsOf, SlotsInv, LiveIds;
    var rs := OfKind(s.slots, Live);
    LiveIdsSize(s, rs);
    forall id: Id ensures id in AbsOf(s).live.Keys <==> id in LiveIds(s, rs) {
      LiveIdsAreLive(s, id);
    }
    assert AbsOf(s).live.Keys == LiveIds(s, rs);
  }

  /** Slots that hold an element or never will again. */
  function InUse(s: Store): nat {
    Count(s, Live) + Count(s, Retired)
  }

  // ----- what a step does to the counts

  /** The step hands out a slot that was never handed out before. */
  predicate TakesFresh(s: Store, a: P.CallId, m: StoreMove) {
    m.Allocate? && m.bucket < |s.buckets| && B.FetchesNow(s.buckets[m.bucket], a)
  }

  lemma AtSlotTouched(s: Store, a: P.CallId, r: SlotRef, mv: P.Move)
    requires SlotsInv(s) && Enabled(s, a, AtSlot(r, mv))
    ensures C.Touched(Next(s, a, AtSlot(r, mv))) == C.Touched(s)
  {
    F.StepHome(s.slots[r], a, mv);
    SameTouched(s, Next(s, a, AtSlot(r, mv)), r);
  }

  lemma SameTouched(s: Store, t: Store, r: SlotRef)
    requires r in s.slots && r in t.slots && t.slots == s.slots[r := t.slots[r]]
    requires t.slots[r].home.Fresh? == s.slots[r].home.Fresh?
    ensures C.Touched(t) == C.Touched(s)
  {
  }

  lemma QuietAllocate(s: Store, a: P.CallId, k: nat)
    requires Inv(s) && Enabled(s, a, Allocate(k)) && !B.FetchesNow(s.buckets[k], a)
    ensures SameButFresh(s, Next(s, a, Allocate(k)))
  {
    if s.buckets[k].calls[a].SlowExpand? { ExpandedSlots(s, a, k); }
  }

  /** At most untouched slots were added. */
  predicate SameButFresh(s: Store, t: Store) {
    && t.slots.Keys >= s.slots.Keys
    && forall r :: r in t.slots ==> if r in s.slots then t.slots[r] == s.slots[r] else t.slots[r] == P.NEW_SLOT
  }

  lemma SameCounts(s: Store, t: Store, k: Kind)
    requires SameButFresh(s, t)
    ensures C.Touched(t) == C.Touched(s)
    ensures k != Fresh ==> Count(t, k) == Count(s, k)
  {
    if k != Fresh { assert OfKind(t.slots, k) == OfKind(s.slots, k); }
  }

  /** Slot `r` of the store is given to the insertion `a`. */
  predicate Gives(s: Store, t: Store, r: SlotRef, a: P.CallId) {
    && r in s.slots && (s.slots[r].home.Fresh? || s.slots[r].home.Queued?)
    && r in t.slots && t.slots == s.slots[r := t.slots[r]]
    && t.slots[r].home.Held? && InsertingAt(t, r, a)
  }

  /** A fetch that hits gives a slot that was never touched to the insertion. */
  lemma FetchGives(s: Store, a: P.CallId, k: nat) returns (r: SlotRef)
    requires Inv(s) && Enabled(s, a, Allocate(k)) && B.FetchesNow(s.buckets[k], a)
    ensures Gives(s, Next(s, a, Allocate(k)), r, a) && s.slots[r].home.Fresh?
  {
    AllocateReady(s, a, k);
    r := RefOf(k, B.Offered(s.buckets[k]));
  }

  lemma GivesFresh(s: Store, t: Store, r: SlotRef, a: P.CallId)
    requires Gives(s, t, r, a) && s.slots[r].home.Fresh?
    ensures |C.Touched(t)| == |C.Touched(s)| + 1 && C.Touched(s) <= C.Touched(t)
  {
    assert C.Touched(t) == C.Touched(s) + {r};
  }

  lemma GivenCounts(s: Store, t: Store, r: SlotRef, a: P.CallId)
    requires Gives(s, t, r, a)
    ensures Count(t, Queued) + I.One(s.slots[r].home.Queued?) == Count(s, Queued)
    ensures Count(t, Held) == Count(s, Held) + 1
    ensures InUse(t) == InUse(s)
  {
    KindUpdate(s.slots, r, t.slots[r], Queued);
    KindUpdate(s.slots, r, t.slots[r], Held);
    KindUpdate(s.slots, r, t.slots[r], Live);
    KindUpdate(s.slots, r, t.slots[r], Retired);
  }

  predicate InsertingAt(s: Store, r: SlotRef, a: P.CallId) {
    r in s.slots && a in s.slots[r].calls && I.Inserting(s.slots[r].calls[a])
  }

  /** Call `a` has a slot to insert into. */
  predicate Inserter(s: Store, a: P.CallId) {
    exists r :: r in s.slots && InsertingAt(s, r, a)
  }

  lemma StartTouched(s: Store, a: P.CallId, e: P.Element, k: nat)
    requires ErasuresInv(s) && Enabled(s, a, StartInsert(e, k))
    ensures C.Touched(Next(s, a, StartInsert(e, k))) == C.Touched(s)
  {
    if s.erasures != [] { SameTouched(s, Next(s, a, StartInsert(e, k)), s.erasures[0]); }
  }

  /** No step takes a slot back, expansions included; only a fetch that hits touches a new one. */
  lemma StepTouches(s: Store, a: P.CallId, m: StoreMove)
    requires Inv(s) && Enabled(s, a, m)
    ensures C.Touched(s) <= C.Touched(Next(s, a, m))
    ensures |C.Touched(Next(s, a, m))| == |C.Touched(s)| + I.One(TakesFresh(s, a, m))
  {
    match m
    case AtSlot(r, mv) => AtSlotTouched(s, a, r, mv);
    case StartInsert(e, k) => StartTouched(s, a, e, k);
    case Allocate(k) =>
      if B.FetchesNow(s.buckets[k], a) {
        var r := FetchGives(s, a, k);
        GivesFresh(s, Next(s, a, m), r, a);
      } else {
        QuietAllocate(s, a, k);
        SameCounts(s, Next(s, a, m), Live);
      }
  }

  // ----- in every run

  lemma RunStepTouches(run: Run, limit: nat, i: nat)
    requires IsRun(run, limit) && i < |run.moves|
    ensures C.Touched(run.states[i]) <= C.Touched(run.states[i + 1])
    ensures |C.Touched(run.states[i])| <= |C.Touched(run.states[i + 1])|
  {
    RunKeepsInv(run, limit, i);
    assert RunStep(run, i);
    StepTouches(run.states[i], run.moves[i].0, run.moves[i].1);
  }

  /** The touched slots only become more. */
  lemma {:induction false} TouchedNeverDecreases(run: Run, limit: nat, i: nat, j: nat)
    requires IsRun(run, limit) && i <= j < |run.states|
    ensures C.Touched(run.states[i]) <= C.Touched(run.states[j])
    ensures |C.Touched(run.states[i])| <= |C.Touched(run.states[j])|
    decreases j - i
  {
    if i < j {
      TouchedNeverDecreases(run, limit, i, j - 1);
      RunStepTouches(run, limit, j - 1);
    }
  }

  function Largest(xs: seq<nat>): (m: nat)
    requires xs != []
    ensures m in xs && forall x :: x in xs ==> x <= m
  {
    var last := xs[|xs| - 1];
    if |xs| == 1 then last
    else
      var m := Largest(xs[..|xs| - 1]);
      assert forall x :: x in xs ==> x in xs[..|xs| - 1] || x == last;
      if m < last then last else m
  }

  function LiveNumber(s: Store): nat {
    |AbsOf(s).live|
  }

  /** The number of elements in the store in the states up to `n`. */
  function LiveNumbers(run: Run, n: nat): seq<nat>
    requires n < |run.states|
  {
    seq(n + 1, i requires 0 <= i <= n => LiveNumber(run.states[i]))
  }

  function NumbersInUse(run: Run, n: nat): seq<nat>
    requires n < |run.states|
  {
    seq(n + 1, i requires 0 <= i <= n => InUse(run.states[i]))
  }

  /** The largest number of elements ever in the store at the same time. */
  function Peak(run: Run, n: nat): nat
    requires n < |run.states|
  {
    Largest(LiveNumbers(run, n))
  }

  /** The largest number of slots ever in use at the same time. */
  function PeakInUse(run: Run, n: nat): nat
    requires n < |run.states|
  {
    Largest(NumbersInUse(run, n))
  }

  lemma UseBelowTouched(run: Run, limit: nat, n: nat)
    requires IsRun(run, limit) && n < |run.states|
    ensures LiveNumber(run.states[n]) + Count(run.states[n], Retired) == InUse(run.states[n])
    ensures InUse(run.states[n]) <= |C.Touched(run.states[n])|
  {
    RunKeepsInv(run, limit, n);
    LiveCount(run.states[n]);
    TouchedIsSplit(run.states[n]);
  }

  lemma LargestBelow(xs: seq<nat>, ys: seq<nat>, bound: nat)
    requires |xs| == |ys| > 0 && forall i :: 0 <= i < |xs| ==> xs[i] <= ys[i] <= bound
    ensures Largest(xs) <= Largest(ys) <= bound
  {
    var i :| 0 <= i < |xs| && xs[i] == Largest(xs);
    assert ys[i] in ys;
  }

  lemma UseNeverAboveTouched(run: Run, limit: nat, i: nat, n: nat)
    requires IsRun(run, limit) && i <= n < |run.states|
    ensures LiveNumber(run.states[i]) <= InUse(run.states[i]) <= |C.Touched(run.states[n])|
  {
    UseBelowTouched(run, limit, i);
    TouchedNeverDecreases(run, limit, i, n);
  }

  /** In every run, concurrent or not, the peaks are within the touched slots. */
  lemma PeakBelowTouched(run: Run, limit: nat, n: nat)
    requires IsRun(run, limit) && n < |run.states|
    ensures Peak(run, n) <= PeakInUse(run, n) <= |C.Touched(run.states[n])|
  {
    var live, used, bound := LiveNumbers(run, n), NumbersInUse(run, n), |C.Touched(run.states[n])|;
    forall i | 0 <= i < |live| ensures live[i] <= used[i] <= bound {
      UseNeverAboveTouched(run, limit, i, n);
    }
    LargestBelow(live, used, bound);
  }

  lemma BucketStepHands(b: B.Bucket, a: P.CallId)
    requires B.Inv(b) && B.Enabled(b, a)
    ensures C.HandedNumber(b) <= C.HandedNumber(B.Next(b, a)) && b.blocks <= B.Next(b, a).blocks
  {
    C.HandedGrows(b, a);
  }

  /** What a step does to one bucket. */
  lemma BucketAfter(s: Store, a: P.CallId, m: StoreMove, k: nat)
    requires Enabled(s, a, m) && k < |s.buckets|
    ensures |Next(s, a, m).buckets| == |s.buckets|
    ensures
      var b, c := s.buckets[k], Next(s, a, m).buckets[k];
      c == b || c == B.Begin(b, a) || (B.Enabled(b, a) && c == B.Next(b, a))
  {
  }

  lemma BucketHands(b: B.Bucket, c: B.Bucket, a: P.CallId)
    requires B.Inv(b) && (c == b || c == B.Begin(b, a) || (B.Enabled(b, a) && c == B.Next(b, a)))
    ensures C.HandedNumber(b) <= C.HandedNumber(c) && b.blocks <= c.blocks
  {
    if B.Enabled(b, a) && c == B.Next(b, a) { BucketStepHands(b, a); }
  }

  lemma StepHands(s: Store, a: P.CallId, m: StoreMove, k: nat)
    requires Inv(s) && Enabled(s, a, m) && k < BUCKET_COUNT
    ensures HandsMore(s, Next(s, a, m), k)
  {
    BucketAfter(s, a, m, k);
    BucketHands(s.buckets[k], Next(s, a, m).buckets[k], a);
  }

  /** What bucket `k` has handed out, and its blocks, in two states. */
  predicate HandsMore(s: Store, t: Store, k: nat) {
    && k < |s.buckets| && k < |t.buckets|
    && C.HandedNumber(s.buckets[k]) <= C.HandedNumber(t.buckets[k])
    && s.buckets[k].blocks <= t.buckets[k].blocks
  }

  lemma RunStepHands(run: Run, limit: nat, i: nat, k: nat)
    requires IsRun(run, limit) && i < |run.moves| && k < BUCKET_COUNT
    ensures HandsMore(run.states[i], run.states[i + 1], k)
  {
    RunKeepsInv(run, limit, i);
    assert RunStep(run, i);
    StepHands(run.states[i], run.moves[i].0, run.moves[i].1, k);
  }

  lemma {:induction false} RunHands(run: Run, limit: nat, i: nat, j: nat, k: nat)
    requires IsRun(run, limit) && i <= j < |run.states| && k < BUCKET_COUNT
    ensures HandsMore(run.states[i], run.states[j], k)
    decreases j - i
  {
    hide B.Inv, C.HandedNumber;
    if i < j {
      RunHands(run, limit, i, j - 1, k);
      RunStepHands(run, limit, j - 1, k);
    } else {
      RunKeepsInv(run, limit, i);
    }
  }

  lemma {:induction false} SumsGrow(s: Store, t: Store, bs: seq<B.Bucket>, n: nat)
    requires |s.buckets| == |t.buckets| == |bs| && n <= |bs|
    requires forall k :: 0 <= k < n ==>
               && C.HandedNumber(s.buckets[k]) <= C.HandedNumber(bs[k]) <= C.HandedNumber(t.buckets[k])
               && s.buckets[k].blocks <= bs[k].blocks <= t.buckets[k].blocks
    ensures C.HandedBelow(s.buckets, n) <= C.HandedBelow(bs, n) <= C.HandedBelow(t.buckets, n)
    ensures C.AllocatedBelow(s.buckets, n) <= C.AllocatedBelow(bs, n) <= C.AllocatedBelow(t.buckets, n)
  {
    if n > 0 {
      SumsGrow(s, t, bs, n - 1);
      Bits.PowerMonotone(s.buckets[n - 1].blocks, bs[n - 1].blocks);
      Bits.PowerMonotone(bs[n - 1].blocks, t.buckets[n - 1].blocks);
    }
  }

  /** Bucket `k` was read in state `times[k]`, between the states `first` and `last`. */
  predicate ReadBetween(run: Run, times: seq<nat>, first: nat, last: nat, bs: seq<B.Bucket>) {
    && |times| == |bs| == BUCKET_COUNT && first <= last < |run.states|
    && forall k :: 0 <= k < BUCKET_COUNT ==>
         && first <= times[k] <= last
         && k < |run.states[times[k]].buckets| && bs[k] == run.states[times[k]].buckets[k]
  }

  /**
   What `capacity` returns (`Capacity.SumCapacity`) when it reads the buckets one by one while
   the store is in use: the touched number is at least the true one at the beginning, and
   above the true one at the end by no more than the calls between a miss and the slow path.
   */
  lemma CapacityDuringRun(run: Run, limit: nat, times: seq<nat>, first: nat, last: nat, bs: seq<B.Bucket>)
    requires IsRun(run, limit) && ReadBetween(run, times, first, last, bs)
    ensures |C.Touched(run.states[first])| <= C.Returned(bs)
    ensures C.Returned(bs) <= |C.Touched(run.states[last])| + C.PendingBelow(bs, BUCKET_COUNT)
    ensures |run.states[first].slots| <= C.AllocatedBelow(bs, BUCKET_COUNT) <= |run.states[last].slots|
  {
    hide C.HandedNumber;
    var s, t := run.states[first], run.states[last];
    SumsOfState(run, limit, first);
    SumsOfState(run, limit, last);
    forall k | 0 <= k < BUCKET_COUNT
      ensures C.HandedNumber(s.buckets[k]) <= C.HandedNumber(bs[k]) <= C.HandedNumber(t.buckets[k])
      ensures s.buckets[k].blocks <= bs[k].blocks <= t.buckets[k].blocks
    {
      RunHands(run, limit, first, times[k], k);
      RunHands(run, limit, times[k], last, k);
    }
    SumsGrow(s, t, bs, BUCKET_COUNT);
  }

  lemma SumsOfState(run: Run, limit: nat, n: nat)
    requires IsRun(run, limit) && n < |run.states|
    ensures |run.states[n].buckets| == BUCKET_COUNT
    ensures |C.Touched(run.states[n])| == C.HandedBelow(run.states[n].buckets, BUCKET_COUNT)
    ensures |run.states[n].slots| == C.AllocatedBelow(run.states[n].buckets, BUCKET_COUNT)
  {
    RunKeepsInv(run, limit, n);
    C.TouchedIsSum(run.states[n]);
    C.AllocatedIsSum(run.states[n]);
  }

  // ----- sequential runs

  predicate BusyAt(s: Store, r: SlotRef, a: P.CallId) {
    r in s.slots && a in s.slots[r].calls && F.Busy(s.slots[r].calls[a])
  }

  predicate IsBusy(s: Store, a: P.CallId) {
    InAllocator(s, a) || exists r :: r in s.slots && BusyAt(s, r, a)
  }

  /** At most one operation is going on. */
  ghost predicate Sequential(s: Store) {
    forall a, b :: IsBusy(s, a) && IsBusy(s, b) ==> a == b
  }

  ghost predicate SequentialRun(run: Run) {
    forall i :: 0 <= i < |run.states| ==> Sequential(run.states[i])
  }

  lemma HeldIsBusy(s: Store, r: SlotRef) returns (a: P.CallId)
    requires SlotsInv(s) && r in s.slots && s.slots[r].home.Held?
    ensures s.slots[r].home == P.Held(a) && BusyAt(s, r, a) && IsBusy(s, a)
    ensures I.Inserting(s.slots[r].calls[a]) || I.Evicting(s.slots[r].calls[a])
  {
    assert I.Inv(s.slots[r]);
    a := s.slots[r].home.owner;
    assert BusyAt(s, r, a);
  }

  lemma InserterIsBusy(s: Store, r: SlotRef, a: P.CallId)
    requires SlotsInv(s) && InsertingAt(s, r, a)
    ensures BusyAt(s, r, a) && IsBusy(s, a) && s.slots[r].home == P.Held(a)
  {
    I.InvMoves(s.slots[r], a);
    assert BusyAt(s, r, a);
  }

  /** The one operation going on has at most one slot. */
  lemma OneHeld(s: Store, q: SlotRef, r: SlotRef)
    requires SlotsInv(s) && SlotCallsInv(s) && Sequential(s)
    requires q in s.slots && r in s.slots && s.slots[q].home.Held? && s.slots[r].home.Held?
    ensures q == r
  {
    var a := HeldIsBusy(s, q);
    var b := HeldIsBusy(s, r);
  }

  lemma HeldAtMostOne(s: Store)
    requires SlotsInv(s) && SlotCallsInv(s) && Sequential(s)
    ensures Count(s, Held) <= 1
  {
    var held := OfKind(s.slots, Held);
    forall q, r | q in held && r in held ensures q == r { OneHeld(s, q, r); }
    AtMostOne(held);
  }

  lemma AtMostOne(rs: set<SlotRef>)
    requires forall q, r :: q in rs && r in rs ==> q == r
    ensures |rs| <= 1
  {
    if rs != {} {
      var r :| r in rs;
      assert rs == {r};
    }
  }

  /** An insertion that is looking for a slot in a bucket. */
  predicate Looking(s: Store, k: nat, a: P.CallId) {
    k < |s.buckets| && a in s.buckets[k].calls && !Carrying(s.buckets[k].calls[a])
  }

  lemma NothingHeldWhileLooking(s: Store, k: nat, a: P.CallId)
    requires SlotsInv(s) && CallsInv(s) && Sequential(s) && Looking(s, k, a)
    ensures Count(s, Held) == 0
  {
    assert InAllocator(s, a) && IsBusy(s, a);
    assert Placed(s, k, a);
    forall r | r in OfKind(s.slots, Held) ensures false {
      var b := HeldIsBusy(s, r);
    }
    assert OfKind(s.slots, Held) == {};
  }

  /** An insertion looks for a slot only when the queue is empty, and in a sequential run it stays empty. */
  ghost predicate QueueEmptyWhileLooking(s: Store) {
    forall k, a :: Looking(s, k, a) ==> s.erasures == []
  }

  lemma QueueEmpty(s: Store)
    requires ErasuresInv(s)
    ensures s.erasures == [] <==> Count(s, Queued) == 0
  {
    if s.erasures == [] {
      assert OfKind(s.slots, Queued) == {};
    } else {
      assert s.erasures[0] in OfKind(s.slots, Queued);
    }
  }

  lemma LookingBefore(s: Store, a: P.CallId, m: StoreMove, k: nat, b: P.CallId)
    requires Enabled(s, a, m) && Looking(Next(s, a, m), k, b)
    ensures Looking(s, k, b) || (m.StartInsert? && s.erasures == [])
  {
    if m.Allocate? && m.bucket == k { BucketStepTouchesOneCall(s.buckets[k], a); }
  }

  lemma QueueStaysEmpty(s: Store, a: P.CallId, m: StoreMove)
    requires Inv(s) && Enabled(s, a, m) && Sequential(s) && QueueEmptyWhileLooking(s)
    ensures QueueEmptyWhileLooking(Next(s, a, m))
  {
    hide Inv, Sequential, Looking;
    var t := Next(s, a, m);
    forall k, b | Looking(t, k, b) ensures t.erasures == [] {
      LookingBefore(s, a, m, k, b);
      if Looking(s, k, b) && m.AtSlot? { NoPushWhileLooking(s, a, m.slot, m.move, k, b); }
    }
  }

  lemma NoPushWhileLooking(s: Store, a: P.CallId, r: SlotRef, mv: P.Move, k: nat, b: P.CallId)
    requires Enabled(s, a, AtSlot(r, mv)) && Sequential(s) && Looking(s, k, b)
    ensures !Pushes(s.slots[r], a, mv)
  {
    assert InAllocator(s, b) && IsBusy(s, b);
    if Pushes(s.slots[r], a, mv) { PusherIsBusy(s, a, r, mv); }
  }

  lemma PusherIsBusy(s: Store, a: P.CallId, r: SlotRef, mv: P.Move)
    requires r in s.slots && Pushes(s.slots[r], a, mv)
    ensures BusyAt(s, r, a) && IsBusy(s, a)
  {
    assert BusyAt(s, r, a);
  }

  /** An insertion is filling the only slot that is neither in use nor untouched. */
  predicate Filling(s: Store) {
    && Count(s, Queued) == 0 && Count(s, Held) == 1
    && exists r, a :: r in s.slots && a in s.slots[r].calls && InsertingAt(s, r, a)
  }

  /** The touched slots are at most `mark`, or one more than are in use. */
  predicate AtMark(s: Store, mark: nat) {
    |C.Touched(s)| <= mark || Filling(s)
  }

  lemma FillingMeans(s: Store)
    requires Filling(s)
    ensures |C.Touched(s)| == InUse(s) + 1
  {
    TouchedIsSplit(s);
  }

  lemma AllInUseWhileLooking(s: Store, k: nat, a: P.CallId)
    requires Inv(s) && Sequential(s) && QueueEmptyWhileLooking(s) && Looking(s, k, a)
    ensures Count(s, Queued) == 0 && Count(s, Held) == 0
  {
    QueueEmpty(s);
    NothingHeldWhileLooking(s, k, a);
  }

  lemma GivenIsFilling(s: Store, t: Store, r: SlotRef, a: P.CallId)
    requires Gives(s, t, r, a) && Count(s, Queued) == 0 && Count(s, Held) == 0
    ensures Filling(t)
  {
    GivenCounts(s, t, r, a);
    assert InsertingAt(t, r, a);
  }

  lemma FetcherLooks(s: Store, a: P.CallId, k: nat)
    requires k < |s.buckets| && B.FetchesNow(s.buckets[k], a)
    ensures Looking(s, k, a)
  {
  }

  /** The fetch of a sequential run finds all touched slots in use. */
  lemma FetchFills(s: Store, a: P.CallId, k: nat)
    requires Inv(s) && Sequential(s) && QueueEmptyWhileLooking(s)
    requires Enabled(s, a, Allocate(k)) && B.FetchesNow(s.buckets[k], a)
    ensures Filling(Next(s, a, Allocate(k)))
  {
    var r := FetchGives(s, a, k);
    FetcherLooks(s, a, k);
    AllInUseWhileLooking(s, k, a);
    GivenIsFilling(s, Next(s, a, Allocate(k)), r, a);
  }

  lemma SameFilling(s: Store, t: Store)
    requires SameButFresh(s, t) && Filling(s)
    ensures Filling(t)
  {
    SameCounts(s, t, Queued);
    SameCounts(s, t, Held);
    var r, a :| r in s.slots && a in s.slots[r].calls && InsertingAt(s, r, a);
    assert InsertingAt(t, r, a);
  }

  /** While a slot is being filled nothing is pushed. */
  lemma NoPushWhileFilling(s: Store, a: P.CallId, r: SlotRef, mv: P.Move, q: SlotRef, o: P.CallId)
    requires SlotsInv(s) && SlotCallsInv(s) && Sequential(s) && InsertingAt(s, q, o) && r in s.slots
    ensures !Pushes(s.slots[r], a, mv)
  {
    InserterIsBusy(s, q, o);
    if Pushes(s.slots[r], a, mv) { PusherIsBusy(s, a, r, mv); }
  }

  /** The step of call `a` at slot `r`, and that its operation stays what it is. */
  predicate OneCallStep(s: Store, t: Store, a: P.CallId, r: SlotRef) {
    && r in s.slots && r in t.slots && t.slots == s.slots[r := t.slots[r]] && a in t.slots[r].calls
    && t.slots[r].calls == s.slots[r].calls[a := t.slots[r].calls[a]]
    && (a in s.slots[r].calls ==> t.slots[r].calls[a].op == s.slots[r].calls[a].op)
  }

  /** The call that is busy after the step is the one that was busy before. */
  lemma SameBusyCall(s: Store, t: Store, a: P.CallId, r: SlotRef, q: SlotRef, o: P.CallId, h: SlotRef, b: P.CallId)
    requires Sequential(s) && Sequential(t) && SlotCallsInv(t) && OneCallStep(s, t, a, r)
    requires BusyAt(s, q, o) && BusyAt(t, h, b)
    ensures b == o && h == q
  {
    if o != a {
      assert BusyAt(t, q, o);
      assert IsBusy(t, o) && IsBusy(t, b);
    } else if b != a {
      assert BusyAt(s, h, b);
      assert IsBusy(s, b) && IsBusy(s, o);
    }
    assert b in t.slots[h].calls && o in t.slots[q].calls;
  }

  lemma InserterStays(s: Store, t: Store, a: P.CallId, r: SlotRef, q: SlotRef, o: P.CallId)
    requires SlotsInv(s) && SlotsInv(t) && OneCallStep(s, t, a, r)
    requires InsertingAt(s, q, o) && q in t.slots && o in t.slots[q].calls
    requires I.Inserting(t.slots[q].calls[o]) || I.Evicting(t.slots[q].calls[o])
    ensures InsertingAt(t, q, o)
  {
    hide I.Inv, P.Shape, I.Inserting, I.Evicting;
    F.AlwaysShaped(s.slots[q], o);
    F.AlwaysShaped(t.slots[q], o);
    InsertsOrEvicts(s.slots[q].calls[o], t.slots[q].calls[o]);
  }

  /** A call that inserts never evicts. */
  lemma InsertsOrEvicts(c: P.Call, d: P.Call)
    requires P.Shape(c) && P.Shape(d) && d.op == c.op && I.Inserting(c)
    requires I.Inserting(d) || I.Evicting(d)
    ensures I.Inserting(d)
  {
  }

  /** A slot held after the step is still being filled. */
  lemma StillFilling(s: Store, t: Store, a: P.CallId, r: SlotRef, q: SlotRef, o: P.CallId, h: SlotRef)
    requires SlotsInv(s) && Sequential(s) && InsertingAt(s, q, o) && OneCallStep(s, t, a, r)
    requires SlotsInv(t) && SlotCallsInv(t) && Sequential(t) && h in t.slots && t.slots[h].home.Held?
    ensures InsertingAt(t, q, o)
  {
    InserterIsBusy(s, q, o);
    var b := HeldIsBusy(t, h);
    SameBusyCall(s, t, a, r, q, o, h, b);
    InserterStays(s, t, a, r, q, o);
  }

  lemma HeldIsStillFilling(s: Store, t: Store, a: P.CallId, r: SlotRef, q: SlotRef, o: P.CallId)
    requires SlotsInv(s) && Sequential(s) && InsertingAt(s, q, o) && OneCallStep(s, t, a, r)
    requires SlotsInv(t) && SlotCallsInv(t) && Sequential(t) && Count(t, Held) > 0
    ensures InsertingAt(t, q, o)
  {
    var h :| h in OfKind(t.slots, Held);
    StillFilling(s, t, a, r, q, o, h);
  }

  /** After a step at a slot nothing is being filled any more, or it still is. */
  lemma FillingStep(s: Store, t: Store, a: P.CallId, r: SlotRef)
    requires SlotsInv(s) && Sequential(s) && Filling(s) && OneCallStep(s, t, a, r)
    requires SlotsInv(t) && SlotCallsInv(t) && Sequential(t) && Count(t, Queued) == 0
    ensures Filling(t) || Count(t, Held) == 0
  {
    var q, o :| q in s.slots && o in s.slots[q].calls && InsertingAt(s, q, o);
    HeldAtMostOne(t);
    if Count(t, Held) > 0 {
      HeldIsStillFilling(s, t, a, r, q, o);
      FillsOne(t, q, o);
    }
  }

  lemma FillsOne(t: Store, q: SlotRef, o: P.CallId)
    requires Count(t, Queued) == 0 && Count(t, Held) == 1 && InsertingAt(t, q, o)
    ensures Filling(t)
  {
  }

  lemma NothingQueued(s: Store, a: P.CallId, r: SlotRef, mv: P.Move)
    requires Inv(s) && Sequential(s) && Filling(s) && Enabled(s, a, AtSlot(r, mv)) && Inv(Next(s, a, AtSlot(r, mv)))
    ensures Count(Next(s, a, AtSlot(r, mv)), Queued) == 0
  {
    var q, o :| q in s.slots && o in s.slots[q].calls && InsertingAt(s, q, o);
    NoPushWhileFilling(s, a, r, mv, q, o);
    QueueEmpty(s);
    QueueEmpty(Next(s, a, AtSlot(r, mv)));
  }

  /** In a sequential run the mark rises only with what is in use. */
  lemma StepStaysAtMark(s: Store, a: P.CallId, m: StoreMove, mark: nat)
    requires Inv(s) && Sequential(s) && QueueEmptyWhileLooking(s) && Enabled(s, a, m) && Sequential(Next(s, a, m))
    requires AtMark(s, mark)
    ensures AtMark(Next(s, a, m), if mark < InUse(Next(s, a, m)) then InUse(Next(s, a, m)) else mark)
  {
    StepTouches(s, a, m);
    StepKeepsInv(s, a, m);
    if TakesFresh(s, a, m) {
      FetchFills(s, a, m.bucket);
    } else if Filling(s) {
      FillingGoesOn(s, a, m);
      TouchedIsSplit(Next(s, a, m));
    }
  }

  lemma FillingGoesOn(s: Store, a: P.CallId, m: StoreMove)
    requires Inv(s) && Sequential(s) && Filling(s) && Enabled(s, a, m) && !TakesFresh(s, a, m)
    requires Inv(Next(s, a, m)) && Sequential(Next(s, a, m))
    ensures var t := Next(s, a, m); Filling(t) || (Count(t, Queued) == 0 && Count(t, Held) == 0)
  {
    match m
    case AtSlot(r, mv) =>
      NothingQueued(s, a, r, mv);
      F.StepTouchesOneCall(s.slots[r], a, mv);
      FillingStep(s, Next(s, a, m), a, r);
    case StartInsert(e, k) =>
      QueueEmpty(s);
      SameFilling(s, Next(s, a, m));
    case Allocate(k) =>
      QuietAllocate(s, a, k);
      SameFilling(s, Next(s, a, m));
  }

  lemma RunStepQueueEmpty(run: Run, limit: nat, i: nat)
    requires IsRun(run, limit) && SequentialRun(run) && i < |run.moves| && QueueEmptyWhileLooking(run.states[i])
    ensures QueueEmptyWhileLooking(run.states[i + 1])
  {
    RunKeepsInv(run, limit, i);
    assert RunStep(run, i) && Sequential(run.states[i]);
    QueueStaysEmpty(run.states[i], run.moves[i].0, run.moves[i].1);
  }

  lemma {:induction false} RunQueueEmpty(run: Run, limit: nat, n: nat)
    requires IsRun(run, limit) && SequentialRun(run) && n < |run.states|
    ensures QueueEmptyWhileLooking(run.states[n])
  {
    if n > 0 {
      RunQueueEmpty(run, limit, n - 1);
      RunStepQueueEmpty(run, limit, n - 1);
    }
  }

  lemma RunStepAtMark(run: Run, limit: nat, i: nat, mark: nat)
    requires IsRun(run, limit) && SequentialRun(run) && i < |run.moves| && AtMark(run.states[i], mark)
    ensures
      var next := InUse(run.states[i + 1]);
      AtMark(run.states[i + 1], if mark < next then next else mark)
  {
    RunKeepsInv(run, limit, i);
    RunQueueEmpty(run, limit, i);
    assert RunStep(run, i) && Sequential(run.states[i]) && Sequential(run.states[i + 1]);
    StepStaysAtMark(run.states[i], run.moves[i].0, run.moves[i].1, mark);
  }

  lemma PeakGrows(run: Run, n: nat)
    requires 0 < n < |run.states|
    ensures
      var before, here := PeakInUse(run, n - 1), InUse(run.states[n]);
      PeakInUse(run, n) == if before < here then here else before
  {
    assert NumbersInUse(run, n)[..n] == NumbersInUse(run, n - 1);
  }

  lemma NothingTouched(run: Run, limit: nat)
    requires IsRun(run, limit)
    ensures C.Touched(run.states[0]) == {}
  {
  }

  lemma {:induction false} RunAtMark(run: Run, limit: nat, n: nat)
    requires IsRun(run, limit) && SequentialRun(run) && n < |run.states|
    ensures AtMark(run.states[n], PeakInUse(run, n))
  {
    hide SequentialRun, InUse, Largest;
    if n == 0 {
      NothingTouched(run, limit);
    } else {
      RunAtMark(run, limit, n - 1);
      RunStepAtMark(run, limit, n - 1, PeakInUse(run, n - 1));
      PeakGrows(run, n);
    }
  }

  /**
   The high-water mark.  In a sequential run the touched slots are exactly as many as were
   ever in use at the same time, except for the slot an insertion is filling at that moment.
   */
  lemma HighWaterMark(run: Run, limit: nat, n: nat)
    requires IsRun(run, limit) && SequentialRun(run) && n < |run.states|
    ensures Filling(run.states[n]) ==> |C.Touched(run.states[n])| == InUse(run.states[n]) + 1
    ensures !Filling(run.states[n]) ==> |C.Touched(run.states[n])| == PeakInUse(run, n)
  {
    RunAtMark(run, limit, n);
    PeakBelowTouched(run, limit, n);
    if Filling(run.states[n]) { FillingMeans(run.states[n]); }
  }

  // ----- and the documented peak

  lemma RetiredLocal(c: P.Slot, a: P.CallId, mv: P.Move)
    requires I.Moves(c, a) && I.Housed(c) && c.home.Retired? && P.Enabled(c, a, mv)
    ensures P.Next(c, a, mv).home.Retired?
  {
  }

  lemma RetiredStays(c: P.Slot, a: P.CallId, mv: P.Move)
    requires I.Inv(c) && c.home.Retired? && P.Enabled(c, a, mv) && !mv.BeginInsert?
    ensures P.Next(c, a, mv).home.Retired?
  {
    if a in c.calls {
      I.InvMoves(c, a);
      RetiredLocal(c, a, mv);
    }
  }

  lemma RetiredUpdate(s: Store, t: Store, r: SlotRef)
    requires r in s.slots && r in t.slots && t.slots == s.slots[r := t.slots[r]]
    requires s.slots[r].home.Retired? ==> t.slots[r].home.Retired?
    ensures Count(s, Retired) <= Count(t, Retired)
  {
    KindUpdate(s.slots, r, t.slots[r], Retired);
  }

  lemma AtSlotRetired(s: Store, a: P.CallId, r: SlotRef, mv: P.Move)
    requires SlotsInv(s) && Enabled(s, a, AtSlot(r, mv))
    ensures Count(s, Retired) <= Count(Next(s, a, AtSlot(r, mv)), Retired)
  {
    hide I.Inv, Count;
    if s.slots[r].home.Retired? { RetiredStays(s.slots[r], a, mv); }
    RetiredUpdate(s, Next(s, a, AtSlot(r, mv)), r);
  }

  lemma StartRetired(s: Store, a: P.CallId, e: P.Element, k: nat)
    requires ErasuresInv(s) && Enabled(s, a, StartInsert(e, k))
    ensures Count(s, Retired) <= Count(Next(s, a, StartInsert(e, k)), Retired)
  {
    if s.erasures != [] { RetiredUpdate(s, Next(s, a, StartInsert(e, k)), s.erasures[0]); }
  }

  lemma AllocateRetired(s: Store, a: P.CallId, k: nat)
    requires Inv(s) && Enabled(s, a, Allocate(k))
    ensures Count(s, Retired) <= Count(Next(s, a, Allocate(k)), Retired)
  {
    if B.FetchesNow(s.buckets[k], a) {
      var r := FetchGives(s, a, k);
      RetiredUpdate(s, Next(s, a, Allocate(k)), r);
    } else {
      QuietAllocate(s, a, k);
      SameCounts(s, Next(s, a, Allocate(k)), Retired);
    }
  }

  /** A retired slot stays retired. */
  lemma RetiredGrow(s: Store, a: P.CallId, m: StoreMove)
    requires Inv(s) && Enabled(s, a, m)
    ensures Count(s, Retired) <= Count(Next(s, a, m), Retired)
  {
    match m
    case AtSlot(r, mv) => AtSlotRetired(s, a, r, mv);
    case StartInsert(e, k) => StartRetired(s, a, e, k);
    case Allocate(k) => AllocateRetired(s, a, k);
  }

  lemma RunStepRetired(run: Run, limit: nat, i: nat)
    requires IsRun(run, limit) && i < |run.moves|
    ensures Count(run.states[i], Retired) <= Count(run.states[i + 1], Retired)
  {
    RunKeepsInv(run, limit, i);
    assert RunStep(run, i);
    RetiredGrow(run.states[i], run.moves[i].0, run.moves[i].1);
  }

  lemma {:induction false} RetiredNeverDecreases(run: Run, limit: nat, i: nat, j: nat)
    requires IsRun(run, limit) && i <= j < |run.states|
    ensures Count(run.states[i], Retired) <= Count(run.states[j], Retired)
    decreases j - i
  {
    if i < j {
      RetiredNeverDecreases(run, limit, i, j - 1);
      RunStepRetired(run, limit, j - 1);
    }
  }

  lemma LiveBelowPeak(run: Run, i: nat, n: nat)
    requires i <= n < |run.states|
    ensures LiveNumber(run.states[i]) <= Peak(run, n)
  {
    InLargest(LiveNumbers(run, n), i);
  }

  lemma InLargest(xs: seq<nat>, i: nat)
    requires i < |xs|
    ensures xs[i] <= Largest(xs)
  {
    assert xs[i] in xs;
  }

  lemma InUseBelowPeak(run: Run, limit: nat, i: nat, n: nat)
    requires IsRun(run, limit) && i <= n < |run.states|
    ensures InUse(run.states[i]) <= Peak(run, n) + Count(run.states[n], Retired)
  {
    UseBelowTouched(run, limit, i);
    RetiredNeverDecreases(run, limit, i, n);
    LiveBelowPeak(run, i, n);
  }

  lemma LargestWithin(xs: seq<nat>, bound: nat)
    requires xs != [] && forall i :: 0 <= i < |xs| ==> xs[i] <= bound
    ensures Largest(xs) <= bound
  {
  }

  /** No operation is going on. */
  ghost predicate Idle(s: Store) {
    forall a :: !IsBusy(s, a)
  }

  lemma IdleIsNotFilling(s: Store)
    requires SlotsInv(s) && Idle(s)
    ensures !Filling(s)
  {
    if Filling(s) {
      var r, a :| r in s.slots && a in s.slots[r].calls && InsertingAt(s, r, a);
      InserterIsBusy(s, r, a);
    }
  }

  /**
   Between the operations of a sequential run the touched capacity is at least the largest
   number of elements ever stored at the same time, and exceeds it by at most the number of
   retired slots.  `DocumentedPeak.TouchedIsPeakExactly` says when the two are the same.
   */
  lemma TouchedIsPeak(run: Run, limit: nat, n: nat)
    requires IsRun(run, limit) && SequentialRun(run) && n < |run.states| && Idle(run.states[n])
    ensures Peak(run, n) <= |C.Touched(run.states[n])| <= Peak(run, n) + Count(run.states[n], Retired)
    ensures Count(run.states[n], Retired) == 0 ==> |C.Touched(run.states[n])| == Peak(run, n)
    ensures |C.Touched(run.states[n])| ==
              Count(run.states[n], Live) + Count(run.states[n], Queued) + Count(run.states[n], Retired)
  {
    RunKeepsInv(run, limit, n);
    IdleIsNotFilling(run.states[n]);
    HighWaterMark(run, limit, n);
    PeakBelowTouched(run, limit, n);
    var used := NumbersInUse(run, n);
    forall i | 0 <= i < |used| ensures used[i] <= Peak(run, n) + Count(run.states[n], Retired) {
      InUseBelowPeak(run, limit, i, n);
    }
    LargestWithin(used, Peak(run, n) + Count(run.states[n], Retired));
    IdleHoldsNothing(run.states[n]);
    TouchedIsSplit(run.states[n]);
  }

  lemma IdleHoldsNothing(s: Store)
    requires SlotsInv(s) && Idle(s)
    ensures Count(s, Held) == 0
  {
    forall r | r in OfKind(s.slots, Held) ensures false {
      var a := HeldIsBusy(s, r);
    }
    assert OfKind(s.slots, Held) == {};
  }
}
