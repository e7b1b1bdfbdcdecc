/**
 `capacity` (src/bucket.rs, src/lib.rs): what it reads, when its subtraction leaves `u32`,
 and how what it returns relates to the slots of the store.
 */
module Capacity {
  import opened Bits
  import opened Blocks
  import opened Store
  import B = Bucket
  import P = SlotProtocol
  import R = Refinement

  // ----- one bucket

  /** The number of slots that were handed out. */
  function HandedNumber(b: B.Bucket): nat {
    if b.blocks == 0 then 0
    else SlotsOf(b.blocks - 1) + (if b.nextUnused < HeadLen(b.blocks) then b.nextUnused else HeadLen(b.blocks))
  }

  /** A call has missed the present head and has not been through the slow path yet. */
  predicate MissPending(b: B.Bucket) {
    exists a :: a in b.calls && B.MissedIn(b.calls[a], b.blocks)
  }

  /**
   `Bucket::capacity`, with `u32` subtraction that wraps and reports it.  The read lock keeps
   writers out.  The subtraction underflows exactly while a call sits between a miss and the
   slow path.  The number touched counts each such call as a slot, and is otherwise the
   number of slots handed out; so it exceeds the allocated number exactly in that case.
   */
  method BucketCapacity(b: B.Bucket) returns (touched: nat, total: nat, underflow: bool)
    requires B.Inv(b) && b.writer == {}
    ensures total == SlotsOf(b.blocks)
    ensures touched == HandedNumber(b) + |B.Missers(b)| < TWO32
    ensures underflow <==> MissPending(b)
    ensures underflow <==> touched > total
  {
    MissersAreOvershoot(b);
    AllocatedBound(b);
    var headSize := HeadLen(b.blocks);
    var fits, unused, under;
    total, fits := HeadSizeToTotalSize(headSize, b.blocks);
    assert fits;
    unused, underflow := WrappingSub(headSize, b.nextUnused);
    touched, under := WrappingSub(total, unused);
  }

  method WrappingSub(x: nat, y: nat) returns (d: nat, underflow: bool)
    requires x < TWO32 && y < TWO32
    ensures underflow <==> x < y
    ensures d == if x < y then x + TWO32 - y else x - y
  {
    underflow := x < y;
    d := (x + TWO32 - y) % TWO32;
  }

  lemma MissersAreOvershoot(b: B.Bucket)
    requires B.Inv(b) && b.writer == {}
    ensures B.Overshoot(b) == |B.Missers(b)| <= TWO31
    ensures MissPending(b) <==> B.Missers(b) != {}
    ensures b.nextUnused < TWO32
  {
    assert B.SlowMissers(b) <= b.writer;
    B.SmallSubset(B.Missers(b), b.calls.Keys);
    B.OvershootBound(b);
    if MissPending(b) {
      var a :| a in b.calls && B.MissedIn(b.calls[a], b.blocks);
      assert a in B.Missers(b);
    } else {
      assert B.Missers(b) == {};
    }
  }

  lemma AllocatedBound(b: B.Bucket)
    requires B.Inv(b)
    ensures HeadLen(b.blocks) <= SlotsOf(b.blocks) < TWO31
    ensures b.blocks > 0 ==> SlotsOf(b.blocks) == SlotsOf(b.blocks - 1) + HeadLen(b.blocks)
  {
    PowerMonotone(b.blocks, 31);
    Powers();
  }

  // ----- the number handed out, as a number of locations

  /** The locations before slot `m` of block `n`, in the order they are handed out. */
  function Before(n: nat, m: nat): (ls: set<B.Location>)
    ensures |ls| == SlotsOf(n) + m
    ensures forall l :: l in ls <==> (l.block < n && l.slot < Pow2(l.block)) || (l.block == n && l.slot < m)
    decreases n, m
  {
    if m > 0 then Before(n, m - 1) + {B.Location(n, m - 1)}
    else if n > 0 then Before(n - 1, Pow2(n - 1))
    else {}
  }

  function Handed(b: B.Bucket): set<B.Location> {
    if b.blocks == 0 then {}
    else Before(b.blocks - 1, if b.nextUnused < HeadLen(b.blocks) then b.nextUnused else HeadLen(b.blocks))
  }

  lemma HandedCounts(b: B.Bucket)
    ensures |Handed(b)| == HandedNumber(b)
    ensures forall l :: l in Handed(b) <==> B.HandedOut(b, l)
  {
  }

  /** What was handed out is never taken back, also across an expansion; a fetch that hits adds one. */
  lemma HandedGrows(b: B.Bucket, a: P.CallId)
    requires B.Inv(b) && B.Enabled(b, a)
    ensures HandedNumber(B.Next(b, a)) == HandedNumber(b) + (if B.FetchesNow(b, a) then 1 else 0)
  {
    hide B.Inv, B.Next, B.HandedOut, Handed, HandedNumber;
    var t := B.Next(b, a);
    HandedCounts(b);
    HandedCounts(t);
    forall l ensures B.HandedOut(t, l) <==> B.HandedOut(b, l) || (B.FetchesNow(b, a) && l == B.Offered(b)) {
      B.HandOut(b, a, l);
    }
    if B.FetchesNow(b, a) {
      B.HandOut(b, a, B.Offered(b));
      assert Handed(t) == Handed(b) + {B.Offered(b)};
    } else {
      assert Handed(t) == Handed(b);
    }
  }

  // ----- the whole store

  function TouchedIn(s: Store, k: nat): set<SlotRef> {
    set r | r in s.slots && r.bucket == k && !s.slots[r].home.Fresh?
  }

  /** The slots that ever held an element, or are about to. */
  function Touched(s: Store): set<SlotRef> {
    set r | r in s.slots && !s.slots[r].home.Fresh?
  }

  function Refs(k: nat, ls: set<B.Location>): set<SlotRef> {
    set l | l in ls :: RefOf(k, l)
  }

  lemma {:induction false} RefsSize(k: nat, ls: set<B.Location>)
    requires forall l :: l in ls ==> l.block <= MAX_BLOCK && l.slot < Pow2(l.block)
    ensures |Refs(k, ls)| == |ls|
  {
    if ls != {} {
      var l :| l in ls;
      var rest := ls - {l};
      RefsSize(k, rest);
      forall m | m in rest ensures RefOf(k, m) != RefOf(k, l) {
        RefRoundTrip(k, m);
        RefRoundTrip(k, l);
      }
      assert Refs(k, ls) == Refs(k, rest) + {RefOf(k, l)};
    }
  }

  lemma TouchedInBucket(s: Store, k: nat)
    requires BucketsInv(s) && FreshInv(s) && k < BUCKET_COUNT
    ensures |TouchedIn(s, k)| == HandedNumber(s.buckets[k])
  {
    TouchedAreHanded(s, k);
    HandedCounts(s.buckets[k]);
    HandedExist(s.buckets[k]);
    RefsSize(k, Handed(s.buckets[k]));
  }

  lemma HandedExist(b: B.Bucket)
    requires B.Inv(b)
    ensures forall l :: l in Handed(b) ==> l.block <= MAX_BLOCK && l.slot < Pow2(l.block)
  {
    HandedCounts(b);
  }

  lemma TouchedAreHanded(s: Store, k: nat)
    requires BucketsInv(s) && FreshInv(s) && k < BUCKET_COUNT
    ensures TouchedIn(s, k) == Refs(k, Handed(s.buckets[k]))
  {
    forall r ensures r in TouchedIn(s, k) <==> r in Refs(k, Handed(s.buckets[k])) {
      TouchedIsHanded(s, k, r);
    }
  }

  lemma TouchedIsHanded(s: Store, k: nat, r: SlotRef)
    requires BucketsInv(s) && FreshInv(s) && k < BUCKET_COUNT
    ensures r in TouchedIn(s, k) <==> r in Refs(k, Handed(s.buckets[k]))
  {
    var b := s.buckets[k];
    HandedCounts(b);
    assert B.Inv(b);
    if r in TouchedIn(s, k) {
      LogicalRoundTrip(r);
      assert LogicalOf(r) in Handed(b);
    }
    if r in Refs(k, Handed(b)) {
      var l :| l in Handed(b) && r == RefOf(k, l);
      RefRoundTrip(k, l);
      assert InRange(s, r);
    }
  }

  function TouchedBelow(s: Store, n: nat): set<SlotRef> {
    set r | r in s.slots && r.bucket < n && !s.slots[r].home.Fresh?
  }

  /** The sum of a number over the first `n` buckets. */
  function HandedBelow(bs: seq<B.Bucket>, n: nat): nat
    requires n <= |bs|
  {
    if n == 0 then 0 else HandedBelow(bs, n - 1) + HandedNumber(bs[n - 1])
  }

  function AllocatedBelow(bs: seq<B.Bucket>, n: nat): nat
    requires n <= |bs|
  {
    if n == 0 then 0 else AllocatedBelow(bs, n - 1) + SlotsOf(bs[n - 1].blocks)
  }

  lemma {:induction false} TouchedAdds(s: Store, n: nat)
    requires n <= |s.buckets|
    requires forall k :: 0 <= k < n ==> |TouchedIn(s, k)| == HandedNumber(s.buckets[k])
    ensures |TouchedBelow(s, n)| == HandedBelow(s.buckets, n)
  {
    if n == 0 {
      assert TouchedBelow(s, 0) == {};
    } else {
      TouchedAdds(s, n - 1);
      TouchedSplits(s, n - 1);
    }
  }

  lemma TouchedSplits(s: Store, n: nat)
    ensures |TouchedBelow(s, n + 1)| == |TouchedBelow(s, n)| + |TouchedIn(s, n)|
  {
    assert TouchedBelow(s, n + 1) == TouchedBelow(s, n) + TouchedIn(s, n);
  }

  /** The numbers of the buckets add up to the number of slots ever handed out. */
  lemma TouchedIsSum(s: Store)
    requires BucketsInv(s) && FreshInv(s)
    ensures |Touched(s)| == HandedBelow(s.buckets, BUCKET_COUNT)
  {
    forall k | 0 <= k < BUCKET_COUNT ensures |TouchedIn(s, k)| == HandedNumber(s.buckets[k]) {
      TouchedInBucket(s, k);
    }
    TouchedAdds(s, BUCKET_COUNT);
    assert TouchedBelow(s, BUCKET_COUNT) == Touched(s);
  }

  /** Slots are named by bucket, block and index, with no gaps. */
  ghost predicate Domain(s: Store) {
    |s.buckets| == BUCKET_COUNT && forall r :: r in s.slots <==> InRange(s, r)
  }

  function SlotsBelow(s: Store, k: nat, n: nat): set<SlotRef> {
    set r | r in s.slots && (r.bucket < k || (r.bucket == k && r.block < n))
  }

  /** The slots of a block. */
  function BlockRefs(k: nat, block: nat, m: nat): (rs: set<SlotRef>)
    ensures |rs| == m
    ensures forall r :: r in rs <==> r.bucket == k && r.block == block && r.index < m
  {
    if m == 0 then {} else BlockRefs(k, block, m - 1) + {SlotRef(k, block, m - 1)}
  }

  lemma {:induction false} BlocksAdd(s: Store, k: nat, n: nat)
    requires Domain(s) && k < BUCKET_COUNT && n <= s.buckets[k].blocks
    ensures |SlotsBelow(s, k, n)| == |SlotsBelow(s, k, 0)| + SlotsOf(n)
  {
    if n > 0 {
      BlocksAdd(s, k, n - 1);
      BlockAdds(s, k, n);
    }
  }

  lemma {:induction false} BucketsAdd(s: Store, k: nat)
    requires Domain(s) && k < BUCKET_COUNT
    ensures |SlotsBelow(s, k, 0)| == AllocatedBelow(s.buckets, k)
  {
    if k > 0 {
      BucketsAdd(s, k - 1);
      BlocksAdd(s, k - 1, s.buckets[k - 1].blocks);
      BucketAdds(s, k);
    } else {
      assert SlotsBelow(s, 0, 0) == {};
    }
  }

  lemma BlockAdds(s: Store, k: nat, n: nat)
    requires Domain(s) && k < BUCKET_COUNT && 0 < n <= s.buckets[k].blocks
    ensures |SlotsBelow(s, k, n)| == |SlotsBelow(s, k, n - 1)| + Pow2(n - 1)
  {
    var block := BlockRefs(k, n - 1, Pow2(n - 1));
    BlockPresent(s, k, n - 1, block);
    assert SlotsBelow(s, k, n) == SlotsBelow(s, k, n - 1) + block;
  }

  lemma BucketAdds(s: Store, k: nat)
    requires Domain(s) && 0 < k < BUCKET_COUNT
    ensures SlotsBelow(s, k, 0) == SlotsBelow(s, k - 1, s.buckets[k - 1].blocks)
  {
    forall r | r in s.slots && r.bucket == k - 1 ensures r.block < s.buckets[k - 1].blocks {
      assert InRange(s, r);
    }
  }

  lemma BlockPresent(s: Store, k: nat, block: nat, refs: set<SlotRef>)
    requires Domain(s) && k < BUCKET_COUNT && block < s.buckets[k].blocks
    requires forall r :: r in refs <==> r.bucket == k && r.block == block && r.index < Pow2(block)
    ensures forall r :: r in refs <==> r in s.slots && r.bucket == k && r.block == block
  {
    forall r ensures r in refs <==> r in s.slots && r.bucket == k && r.block == block {
      assert r in s.slots <==> InRange(s, r);
    }
  }

  lemma AllocatedIsSum(s: Store)
    requires Domain(s)
    ensures |s.slots| == AllocatedBelow(s.buckets, BUCKET_COUNT)
  {
    var last := BUCKET_COUNT - 1;
    BucketsAdd(s, last);
    BlocksAdd(s, last, s.buckets[last].blocks);
    forall r | r in s.slots ensures r in SlotsBelow(s, last, s.buckets[last].blocks) {
      assert InRange(s, r);
    }
    assert SlotsBelow(s, last, s.buckets[last].blocks) == s.slots.Keys;
  }

  /** The calls between a miss and the slow path, over the first `n` buckets. */
  function PendingBelow(bs: seq<B.Bucket>, n: nat): nat
    requires n <= |bs|
  {
    if n == 0 then 0 else PendingBelow(bs, n - 1) + |B.Missers(bs[n - 1])|
  }

  /** The touched number that `capacity` returns, as long as it fits. */
  function Returned(bs: seq<B.Bucket>): nat {
    HandedBelow(bs, |bs|) + PendingBelow(bs, |bs|)
  }

  /** The loop of `RwStore::capacity`, each bucket read while it is not write locked. */
  method SumCapacity(bs: seq<B.Bucket>) returns (touched: nat, total: nat, underflow: bool, fits: bool)
    requires forall k :: 0 <= k < |bs| ==> B.Inv(bs[k]) && bs[k].writer == {}
    ensures touched == Returned(bs)
    ensures total == AllocatedBelow(bs, |bs|)
    ensures underflow <==> PendingBelow(bs, |bs|) > 0
    ensures fits <==> touched < TWO32 && total < TWO32
  {
    touched, total, underflow, fits := 0, 0, false, true;
    for k := 0 to |bs|
      invariant touched == HandedBelow(bs, k) + PendingBelow(bs, k)
      invariant total == AllocatedBelow(bs, k)
      invariant underflow <==> PendingBelow(bs, k) > 0
      invariant fits <==> touched < TWO32 && total < TWO32
    {
      var t, a, under := BucketCapacity(bs[k]);
      MissersAreOvershoot(bs[k]);
      touched, total := touched + t, total + a;
      underflow := underflow || under;
      fits := fits && touched < TWO32 && total < TWO32;
    }
  }

  /**
   `RwStore::capacity` while no bucket is write locked.  Each call between a miss and the
   slow path is counted as one more slot and makes a subtraction underflow; without any,
   the result is the number of slots ever handed out and the number there are.
   */
  method StoreCapacity(s: Store) returns (touched: nat, total: nat, underflow: bool, fits: bool)
    requires Inv(s) && forall k :: 0 <= k < BUCKET_COUNT ==> s.buckets[k].writer == {}
    ensures touched == |Touched(s)| + PendingBelow(s.buckets, BUCKET_COUNT)
    ensures total == |s.slots|
    ensures underflow <==> PendingBelow(s.buckets, BUCKET_COUNT) > 0
    ensures fits <==> touched < TWO32 && total < TWO32
  {
    TouchedIsSum(s);
    AllocatedIsSum(s);
    touched, total, underflow, fits := SumCapacity(s.buckets);
  }
}
