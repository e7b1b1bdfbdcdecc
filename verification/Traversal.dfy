/**
 Iterating over, and dropping, a store that nobody is using: the chains of blocks that the
 iterators walk are the slots of the store, and what they yield is its live set.
 */
module Traversal {
  import opened Bits
  import opened Blocks
  import opened Iter
  import opened Store
  import P = SlotProtocol
  import I = SlotInvariant
  import B = Bucket
  import F = SlotFacts
  import L = Linearization
  import R = Refinement
  import C = Capacity
  import Facts = StoreFacts

  // ----- the chain of a bucket

  /** The slots of the first `n` blocks of bucket `k` exist. */
  ghost predicate Present(s: Store, k: nat, n: nat) {
    forall r: SlotRef :: r.bucket == k && r.block < n && r.index < Pow2(r.block) ==> r in s.slots
  }

  function PhysicalOf(s: Store, r: SlotRef): Physical
    requires r in s.slots
  {
    Physical(r, s.slots[r].word, s.slots[r].cell)
  }

  function BlockOf(s: Store, k: nat, block: nat): seq<Physical>
    requires Present(s, k, block + 1)
  {
    seq(Pow2(block), i requires 0 <= i < Pow2(block) => PhysicalOf(s, SlotRef(k, block, i)))
  }

  /** The blocks of bucket `k` numbered below `n`, the last one first. */
  function ChainOf(s: Store, k: nat, n: nat): (c: Chain)
    requires Present(s, k, n)
    ensures c.Depth() == n && c.Len() == HeadLen(n)
  {
    if n == 0 then Nil else Block(BlockOf(s, k, n - 1), ChainOf(s, k, n - 1))
  }

  lemma AllPresent(s: Store, k: nat)
    requires BucketsInv(s) && k < BUCKET_COUNT
    ensures Present(s, k, s.buckets[k].blocks)
  {
    forall r: SlotRef | r.bucket == k && r.block < s.buckets[k].blocks && r.index < Pow2(r.block) ensures r in s.slots {
      assert InRange(s, r);
    }
  }

  predicate AllSettled(s: Store) {
    forall r :: r in s.slots ==> Settled(PhysicalOf(s, r))
  }

  lemma StoreIsSettled(s: Store)
    requires SlotsInv(s) && Facts.Quiescent(s)
    ensures AllSettled(s)
  {
    forall r | r in s.slots ensures Settled(PhysicalOf(s, r)) {
      Facts.QuiescentLocal(s.slots[r]);
    }
  }

  lemma {:induction false} ChainIsOk(s: Store, k: nat, n: nat)
    requires AllSettled(s) && Present(s, k, n) && n <= MAX_BLOCK + 1
    ensures ChainOk(ChainOf(s, k, n), k)
  {
    if n > 0 {
      ChainIsOk(s, k, n - 1);
      var slots := BlockOf(s, k, n - 1);
      forall i | 0 <= i < |slots| ensures Settled(slots[i]) && slots[i].address == SlotRef(k, n - 1, i) {
        assert slots[i] == PhysicalOf(s, SlotRef(k, n - 1, i));
      }
    }
  }

  /** Logical slot `j` of the head of bucket `k` with `n` blocks is not occupied. */
  predicate FreeAt(s: Store, k: nat, n: nat, j: nat)
    requires 0 < n
  {
    var r := SlotRef(k, n - 1, ScrambleSlot(Pow2(n - 1), j));
    r in s.slots && !s.slots[r].word.Occupied()
  }

  /** Behind the counter of the head nothing was ever handed out. */
  lemma BehindCounter(s: Store, k: nat, n: nat, j: nat)
    requires BucketsInv(s) && FreshInv(s) && SlotsInv(s)
    requires k < BUCKET_COUNT && n == s.buckets[k].blocks && 0 < n <= MAX_BLOCK + 1
    requires s.buckets[k].nextUnused <= j < Pow2(n - 1)
    ensures FreeAt(s, k, n, j)
  {
    var i := BehindCounterFresh(s, k, n, j);
    FreshIsFree(s, SlotRef(k, n - 1, i));
  }

  lemma BlocksInRange(s: Store, k: nat)
    requires BucketsInv(s) && k < BUCKET_COUNT
    ensures s.buckets[k].blocks <= MAX_BLOCK + 1
  {
    assert B.Inv(s.buckets[k]);
  }

  lemma BehindCounterFresh(s: Store, k: nat, n: nat, j: nat) returns (i: nat)
    requires BucketsInv(s) && FreshInv(s) && k < BUCKET_COUNT && n == s.buckets[k].blocks && 0 < n <= MAX_BLOCK + 1
    requires s.buckets[k].nextUnused <= j < Pow2(n - 1)
    ensures i == ScrambleSlot(Pow2(n - 1), j)
    ensures SlotRef(k, n - 1, i) in s.slots && s.slots[SlotRef(k, n - 1, i)].home.Fresh?
  {
    hide B.Inv;
    var l := B.Location(n - 1, j);
    i := RefOf(k, l).index;
    RefRoundTrip(k, l);
    assert InRange(s, RefOf(k, l));
  }

  lemma FreshIsFree(s: Store, r: SlotRef)
    requires SlotsInv(s) && r in s.slots && s.slots[r].home.Fresh?
    ensures !s.slots[r].word.Occupied()
  {
    assert I.Inv(s.slots[r]);
  }

  lemma ChainIsClean(s: Store, k: nat, n: nat, next: nat)
    requires Present(s, k, n)
    requires n > 0 ==> forall j :: next <= j < Pow2(n - 1) ==> FreeAt(s, k, n, j)
    ensures CleanFrom(ChainOf(s, k, n), next)
  {
    if n > 0 {
      var c := ChainOf(s, k, n);
      forall j | next <= j < |c.slots| ensures !c.slots[ScrambleSlot(|c.slots|, j)].word.Occupied() {
        assert FreeAt(s, k, n, j);
      }
    }
  }

  // ----- items are live elements

  /** What the store holds under the identifier of the item. */
  predicate IsLiveItem(s: Store, x: Item) {
    x.id in R.AbsOf(s).live && R.AbsOf(s).live[x.id].element == x.element
  }

  /** The same, looked up in the slots. */
  predicate InSlot(s: Store, x: Item) {
    && x.id.slot in s.slots
    && var c := s.slots[x.id.slot];
    L.IsLive(c) && c.word.id == x.id.ord && c.cell.element == x.element
  }

  lemma LiveItemMeans(s: Store, x: Item)
    ensures IsLiveItem(s, x) <==> InSlot(s, x)
  {
    R.AbsAt(s, x.id.slot, x.id.ord);
    assert x.id == R.Id(x.id.slot, x.id.ord);
  }

  lemma SlotItem(s: Store, r: SlotRef, x: Item)
    requires AllSettled(s) && r in s.slots
    ensures x in ItemOf(PhysicalOf(s, r)) <==> x.id.slot == r && InSlot(s, x)
  {
    assert Settled(PhysicalOf(s, r));
    if x.id.slot == r { assert x.id == R.Id(r, x.id.ord); }
  }

  lemma BlockItems(s: Store, k: nat, block: nat, x: Item)
    requires AllSettled(s) && Present(s, k, block + 1)
    ensures x in Leftovers(BlockOf(s, k, block)) <==>
            x.id.slot.bucket == k && x.id.slot.block == block && x.id.slot.index < Pow2(block) && InSlot(s, x)
  {
    var slots := BlockOf(s, k, block);
    LeftoversMeans(slots, x);
    forall i | 0 <= i < |slots| ensures x in ItemOf(slots[i]) <==> x.id.slot == SlotRef(k, block, i) && InSlot(s, x) {
      SlotItem(s, SlotRef(k, block, i), x);
    }
    if x.id.slot.bucket == k && x.id.slot.block == block && x.id.slot.index < Pow2(block) {
      assert x in ItemOf(slots[x.id.slot.index]) <==> InSlot(s, x);
    }
  }

  lemma {:induction false} BlocksItems(s: Store, k: nat, n: nat, x: Item)
    requires AllSettled(s) && Present(s, k, n)
    requires InSlot(s, x) ==> x.id.slot.index < Pow2(x.id.slot.block)
    ensures x in ChainLeftovers(ChainOf(s, k, n)) <==> x.id.slot.bucket == k && x.id.slot.block < n && InSlot(s, x)
  {
    if n > 0 {
      BlocksItems(s, k, n - 1, x);
      BlockItems(s, k, n - 1, x);
    }
  }

  /** The items in the blocks of a bucket are the live elements there: what dropping the bucket drops. */
  lemma ChainItems(s: Store, k: nat, x: Item)
    requires BucketsInv(s) && AllSettled(s) && k < BUCKET_COUNT && Present(s, k, s.buckets[k].blocks)
    ensures x in ChainLeftovers(ChainOf(s, k, s.buckets[k].blocks)) <==> x.id.slot.bucket == k && IsLiveItem(s, x)
  {
    LiveItemMeans(s, x);
    if InSlot(s, x) { assert InRange(s, x.id.slot); }
    BlocksItems(s, k, s.buckets[k].blocks, x);
  }

  lemma LiveInRange(s: Store, x: Item)
    requires BucketsInv(s) && IsLiveItem(s, x)
    ensures InRange(s, x.id.slot)
  {
    LiveItemMeans(s, x);
  }

  // ----- the iterators of a store

  /** `x` is live in bucket `k`. */
  predicate LiveIn(s: Store, k: nat, x: Item) {
    x.id.slot.bucket == k && IsLiveItem(s, x)
  }

  /** The iterator is about to start on bucket `k`: it visits the slots that were handed out. */
  ghost predicate BeforeBucket(s: Store, iter: BucketIter, k: nat, owned: bool)
    reads iter
  {
    && iter.Valid() && iter.bucket == k && iter.owned == owned
    && k < |s.buckets| && Present(s, k, s.buckets[k].blocks)
    && iter.Memory() == ChainOf(s, k, s.buckets[k].blocks)
    && ToVisit(iter.current, iter.lastSlot) == C.HandedNumber(s.buckets[k])
    && forall x :: x in iter.rest <==> LiveIn(s, k, x)
  }

  /** The chain of a bucket is ready to be walked along. */
  lemma BucketReady(s: Store, k: nat)
    requires Inv(s) && Facts.Quiescent(s) && k < BUCKET_COUNT
    ensures BucketsInv(s) && AllSettled(s) && Present(s, k, s.buckets[k].blocks)
    ensures ChainOk(ChainOf(s, k, s.buckets[k].blocks), k)
    ensures CleanFrom(ChainOf(s, k, s.buckets[k].blocks), s.buckets[k].nextUnused)
  {
    hide I.Inv, B.Inv, ChainOk, CleanFrom, FreeAt, AllSettled, Facts.Quiescent;
    var n := s.buckets[k].blocks;
    AllPresent(s, k);
    BlocksInRange(s, k);
    StoreIsSettled(s);
    ChainIsOk(s, k, n);
    forall j | n > 0 && s.buckets[k].nextUnused <= j < Pow2(n - 1) ensures FreeAt(s, k, n, j) {
      BehindCounter(s, k, n, j);
    }
    ChainIsClean(s, k, n, s.buckets[k].nextUnused);
  }

  /** The slots in front of the counter are those that were handed out. */
  lemma VisitsHandedOut(b: B.Bucket, head: Chain, n: nat)
    requires Doubling(head) && head.Depth() == b.blocks
    requires n == if b.nextUnused < head.Len() then b.nextUnused else head.Len()
    ensures ToVisit(head, n) == C.HandedNumber(b)
  {
    VisitCount(head, n);
  }

  /** The items in front of the counter are the live elements. */
  lemma LiveAhead(s: Store, k: nat, n: nat)
    requires BucketsInv(s) && AllSettled(s) && k < BUCKET_COUNT && Present(s, k, s.buckets[k].blocks)
    requires var head := ChainOf(s, k, s.buckets[k].blocks);
      ChainOk(head, k) && n <= head.Len() && CleanFrom(head, n)
    ensures forall x :: x in Remaining(ChainOf(s, k, s.buckets[k].blocks), n) <==> LiveIn(s, k, x)
  {
    hide AllSettled, IsLiveItem, ChainOk, CleanFrom, B.Inv;
    var head := ChainOf(s, k, s.buckets[k].blocks);
    LeftoversAreRest(head, k, n);
    forall x ensures x in Remaining(head, n) <==> LiveIn(s, k, x) {
      ChainItems(s, k, x);
    }
  }

  lemma CleanBehind(head: Chain, next: nat)
    requires CleanFrom(head, next)
    ensures CleanFrom(head, if next < head.Len() then next else head.Len())
  {
  }

  /** The iterator of one bucket has exactly the live elements of the bucket before it. */
  method NewBucketIter(s: Store, k: nat, owned: bool) returns (iter: BucketIter)
    requires Inv(s) && Facts.Quiescent(s) && k < BUCKET_COUNT
    ensures fresh(iter) && BeforeBucket(s, iter, k, owned)
  {
    BucketReady(s, k);
    hide Inv, Facts.Quiescent, CleanFrom, Remaining, ToVisit, LiveIn, C.HandedNumber;
    var head := ChainOf(s, k, s.buckets[k].blocks);
    iter := new BucketIter(owned, k, s.buckets[k].nextUnused, head);
    VisitsHandedOut(s.buckets[k], head, iter.lastSlot);
    CleanBehind(head, s.buckets[k].nextUnused);
    LiveAhead(s, k, iter.lastSlot);
  }

  /** An iterator for each bucket. */
  method NewBucketIters(s: Store, owned: bool) returns (iters: seq<BucketIter>)
    requires Inv(s) && Facts.Quiescent(s)
    ensures fresh(iters) && |iters| == BUCKET_COUNT
    ensures forall i :: 0 <= i < |iters| ==> BeforeBucket(s, iters[i], i, owned)
  {
    iters := [];
    while |iters| < BUCKET_COUNT
      invariant |iters| <= BUCKET_COUNT && fresh(iters)
      invariant forall i :: 0 <= i < |iters| ==> BeforeBucket(s, iters[i], i, owned)
      decreases BUCKET_COUNT - |iters|
    {
      var iter := NewBucketIter(s, |iters|, owned);
      iters := iters + [iter];
    }
  }

  /** `IntoIter::new` and `IterMut::new`: before it, the iterator has exactly the live set, each element once. */
  method NewIter(s: Store, owned: bool) returns (iter: GenIter)
    requires Inv(s) && Facts.Quiescent(s)
    ensures fresh(iter) && fresh(iter.iters) && iter.Valid()
    ensures forall i :: 0 <= i < |iter.iters| ==> iter.iters[i].owned == owned
    ensures Distinct(iter.Rest()) && forall x :: x in iter.Rest() <==> IsLiveItem(s, x)
    ensures AllToVisit(iter.iters) == |C.Touched(s)|
    ensures |iter.iters| == BUCKET_COUNT
    ensures forall i :: 0 <= i < BUCKET_COUNT ==> BeforeBucket(s, iter.iters[i], i, owned)
  {
    var iters := NewBucketIters(s, owned);
    VisitsAdd(s, iters, owned);
    C.TouchedIsSum(s);
    AllRestIsDistinct(iters);
    AllRestIsLive(s, iters, owned);
    iter := new GenIter(iters);
  }

  /** The slots to visit are those that were ever handed out. */
  lemma {:induction false} VisitsAdd(s: Store, iters: seq<BucketIter>, owned: bool)
    requires |iters| <= |s.buckets| && forall i :: 0 <= i < |iters| ==> BeforeBucket(s, iters[i], i, owned)
    ensures AllToVisit(iters) == C.HandedBelow(s.buckets, |iters|)
  {
    if iters != [] {
      var k := |iters| - 1;
      VisitsAdd(s, iters[..k], owned);
      assert BeforeBucket(s, iters[k], k, owned);
    }
  }

  lemma AllRestIsLive(s: Store, iters: seq<BucketIter>, owned: bool)
    requires BucketsInv(s) && |iters| == BUCKET_COUNT
    requires forall i :: 0 <= i < |iters| ==> BeforeBucket(s, iters[i], i, owned)
    ensures forall x :: x in AllRest(iters) <==> IsLiveItem(s, x)
  {
    forall x ensures x in AllRest(iters) <==> IsLiveItem(s, x) {
      AllRestMeans(iters, x);
      if IsLiveItem(s, x) {
        LiveInRange(s, x);
        assert BeforeBucket(s, iters[x.id.slot.bucket], x.id.slot.bucket, owned);
      }
    }
  }

  // ----- what an iteration leaves behind

  /** The slot with the header and the value found in memory. */
  function Reloaded(c: P.Slot, p: P.Option<Physical>): P.Slot {
    if p.None? then c else c.(word := p.value.word, cell := p.value.cell)
  }

  /** The store with the blocks of its buckets as they are in memory. */
  function StoreFrom(s: Store, mem: seq<Chain>): Store {
    s.(slots := map r | r in s.slots ::
                  Reloaded(s.slots[r], if r.bucket < |mem| then At(mem[r.bucket], r) else P.None))
  }

  function Memories(iters: seq<BucketIter>): (mem: seq<Chain>)
    reads iters
    ensures |mem| == |iters| && forall i :: 0 <= i < |iters| ==> mem[i] == iters[i].Memory()
  {
    if iters == [] then [] else Memories(iters[..|iters| - 1]) + [iters[|iters| - 1].Memory()]
  }

  lemma {:induction false} ChainAt(s: Store, k: nat, n: nat, r: SlotRef)
    requires Present(s, k, n) && r.bucket == k && r.block < n && r.index < Pow2(r.block)
    ensures r in s.slots && At(ChainOf(s, k, n), r) == P.Some(PhysicalOf(s, r))
  {
    if r.block + 1 == n {
      assert BlockOf(s, k, n - 1)[r.index] == PhysicalOf(s, SlotRef(k, n - 1, r.index));
    } else {
      ChainAt(s, k, n - 1, r);
    }
  }

  /** The memory of a new iterator is that of the store. */
  lemma BucketAt(s: Store, iter: BucketIter, owned: bool, r: SlotRef)
    requires BucketsInv(s) && r in s.slots && BeforeBucket(s, iter, r.bucket, owned)
    ensures At(iter.Memory(), r) == P.Some(PhysicalOf(s, r))
  {
    assert InRange(s, r);
    ChainAt(s, r.bucket, s.buckets[r.bucket].blocks, r);
  }

  lemma SameMemory(s: Store, mem: seq<Chain>)
    requires forall r :: r in s.slots ==> r.bucket < |mem| && At(mem[r.bucket], r) == P.Some(PhysicalOf(s, r))
    ensures StoreFrom(s, mem) == s
  {
    assert StoreFrom(s, mem).slots == s.slots;
  }

  /**
   A loop over `iter_mut` that only looks: every live element once, nothing else, and then
   `None` for good; the store is left as it was.
   */
  method IterateAll(s: Store) returns (yielded: seq<Item>, after: P.Option<Item>, left: Store)
    requires Inv(s) && Facts.Quiescent(s)
    ensures Distinct(yielded) && forall x :: x in yielded <==> IsLiveItem(s, x)
    ensures after.None?
    ensures left == s
  {
    var iter := NewIter(s, false);
    var iters := iter.iters;
    NewMemory(s, iters, false);
    hide Inv, IsLiveItem, BeforeBucket, StoreFrom, Distinct, AllToVisit, C.Touched;
    ghost var mem := Memories(iters);
    yielded, after := TakeAllAndOne(iter, iters);
    left := StoreFrom(s, Memories(iters));
  }

  /** A loop to the end, and one more call of `next`. */
  method TakeAllAndOne(iter: GenIter, ghost iters: seq<BucketIter>)
      returns (yielded: seq<Item>, after: P.Option<Item>)
    requires iter.Valid() && iter.iters == iters && forall i :: 0 <= i < |iters| ==> !iters[i].owned
    modifies iter, iter.iters
    ensures yielded == old(iter.Rest()) && after.None? && Memories(iters) == old(Memories(iters))
  {
    yielded := iter.TakeAll();
    after := iter.Next();
  }

  lemma NewMemory(s: Store, iters: seq<BucketIter>, owned: bool)
    requires BucketsInv(s) && |iters| == BUCKET_COUNT
    requires forall i :: 0 <= i < BUCKET_COUNT ==> BeforeBucket(s, iters[i], i, owned)
    ensures StoreFrom(s, Memories(iters)) == s
    ensures forall r :: r in s.slots ==>
              r.bucket < BUCKET_COUNT && At(iters[r.bucket].Memory(), r) == P.Some(PhysicalOf(s, r))
  {
    hide BeforeBucket, StoreFrom;
    forall r | r in s.slots
      ensures r.bucket < BUCKET_COUNT && At(iters[r.bucket].Memory(), r) == P.Some(PhysicalOf(s, r))
    {
      assert InRange(s, r);
      BucketAt(s, iters[r.bucket], owned, r);
    }
    SameMemory(s, Memories(iters));
  }

  /** `size_hint` of a new iterator. */
  method NewSizeHint(s: Store, owned: bool) returns (lower: nat, upper: nat)
    requires Inv(s) && Facts.Quiescent(s)
    ensures lower == 0 && upper == |C.Touched(s)|
  {
    var iter := NewIter(s, owned);
    lower, upper := iter.SizeHint();
  }

  /**
   `into_iter`, at most `n` elements taken, the rest dropped with the iterator: every live
   element of the store is moved out or dropped, exactly once.
   */
  method PartialIntoIter(s: Store, n: nat) returns (yielded: seq<Item>, gone: seq<Item>)
    requires Inv(s) && Facts.Quiescent(s)
    ensures |yielded| <= n && (gone != [] ==> |yielded| == n)
    ensures Distinct(yielded + gone)
    ensures forall x :: x in yielded + gone <==> IsLiveItem(s, x)
  {
    var iter := NewIter(s, true);
    yielded := iter.TakeUpTo(n);
    ghost var rest := iter.Rest();
    gone := iter.Discard();
    DroppedApart(yielded, rest, gone);
    if gone != [] { assert gone[0] in rest; }
  }

  lemma DroppedApart(yielded: seq<Item>, rest: seq<Item>, gone: seq<Item>)
    requires Distinct(yielded + rest) && Distinct(gone) && forall x :: x in gone <==> x in rest
    ensures Distinct(yielded + gone) && forall x :: x in yielded + gone <==> x in yielded + rest
  {
    var all := yielded + rest;
    forall i, j | 0 <= i < |yielded| && 0 <= j < |gone| ensures yielded[i].id.slot != gone[j].id.slot {
      assert gone[j] in rest;
      var l :| 0 <= l < |rest| && rest[l] == gone[j];
      assert all[i] == yielded[i] && all[|yielded| + l] == gone[j];
    }
    forall i, j | 0 <= i < j < |yielded| ensures yielded[i].id.slot != yielded[j].id.slot {
      assert all[i] == yielded[i] && all[j] == yielded[j];
    }
  }

  // ----- dropping the store

  /** Dropping a store drops every live element, once each, and nothing else. */
  method DropStore(s: Store) returns (gone: seq<Item>)
    requires Inv(s) && Facts.Quiescent(s)
    ensures Distinct(gone) && forall x :: x in gone <==> IsLiveItem(s, x)
  {
    gone := [];
    StoreIsSettled(s);
    for k := 0 to BUCKET_COUNT
      invariant Distinct(gone)
      invariant forall x :: x in gone <==> x.id.slot.bucket < k && IsLiveItem(s, x)
    {
      var more := DropBucket(s, k);
      DropsApart(gone, more, k);
      gone := gone + more;
    }
    forall x | IsLiveItem(s, x) ensures x.id.slot.bucket < BUCKET_COUNT { LiveInRange(s, x); }
  }

  method DropBucket(s: Store, k: nat) returns (gone: seq<Item>)
    requires Inv(s) && AllSettled(s) && k < BUCKET_COUNT
    ensures Distinct(gone) && forall x :: x in gone <==> LiveIn(s, k, x)
  {
    var n := s.buckets[k].blocks;
    AllPresent(s, k);
    BlocksInRange(s, k);
    ChainIsOk(s, k, n);
    gone := DropChain(ChainOf(s, k, n), k);
    ChainLeftoversAreDistinct(ChainOf(s, k, n), k);
    forall x ensures x in gone <==> LiveIn(s, k, x) { ChainItems(s, k, x); }
  }

  lemma DropsApart(gone: seq<Item>, more: seq<Item>, k: nat)
    requires Distinct(gone) && Distinct(more)
    requires forall x :: x in gone ==> x.id.slot.bucket < k
    requires forall x :: x in more ==> x.id.slot.bucket == k
    ensures Distinct(gone + more)
  {
    forall i, j | 0 <= i < |gone| && 0 <= j < |more| ensures gone[i].id.slot != more[j].id.slot {
      assert gone[i] in gone && more[j] in more;
    }
  }

  // ----- exclusive access by identifier

  /** `get_exclusive` compares nothing but the ordinals. */
  function GetMut(s: Store, id: R.Id): P.Option<P.Element>
    requires id.slot in s.slots
    requires s.slots[id.slot].word.id == id.ord ==> s.slots[id.slot].cell.Init?
  {
    var c := s.slots[id.slot];
    if c.word.id == id.ord then P.Some(c.cell.element) else P.None
  }

  /** For an identifier the store has issued that is enough: it finds the live element, and nothing else. */
  lemma GetMutFindsLive(s: Store, id: R.Id)
    requires Inv(s) && Facts.Quiescent(s) && id.slot in s.slots && id.ord in s.slots[id.slot].issued
    ensures s.slots[id.slot].word.id == id.ord ==> s.slots[id.slot].cell.Init?
    ensures GetMut(s, id).None? <==> id in R.AbsOf(s).gone
    ensures GetMut(s, id).Some? <==> id in R.AbsOf(s).live
    ensures GetMut(s, id).Some? ==> GetMut(s, id).value == R.AbsOf(s).live[id].element
  {
    F.IssuedIds(s.slots[id.slot], id.ord);
    Facts.QuiescentLocal(s.slots[id.slot]);
    R.AbsAt(s, id.slot, id.ord);
    assert id == R.Id(id.slot, id.ord);
  }
}
