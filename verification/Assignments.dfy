/**
 A loop over `iter_mut` that assigns to every element it is shown (src/iter.rs,
 src/block.rs): each live element is assigned to once, and the rest of the store stays as it is.
 */
module Assignments {
  import opened Store
  import opened Spec
  import opened Refinement
  import opened Iter
  import opened Traversal
  import P = SlotProtocol
  import I = SlotInvariant
  import L = Linearization
  import B = Bucket
  import C = Capacity
  import Facts = StoreFacts

  // ----- what is assigned

  function AssignedPhysical(p: Physical, f: Item -> int): Physical {
    if ItemOf(p) == [] then p else Overwritten(p, f(ItemOf(p)[0]))
  }

  /** Every live element of the store, with the payload that `f` gives it. */
  function Assigned(s: Store, f: Item -> int): Store {
    s.(slots := map r | r in s.slots :: Reloaded(s.slots[r], P.Some(AssignedPhysical(PhysicalOf(s, r), f))))
  }

  /** One of the items is at slot `r`. */
  predicate Passed(items: seq<Item>, r: SlotRef) {
    exists i :: 0 <= i < |items| && items[i].id.slot == r
  }

  /** The memory of the buckets when the elements of the items have been assigned to. */
  predicate Written(s: Store, mem: seq<Chain>, f: Item -> int, items: seq<Item>) {
    forall r :: r in s.slots ==>
      && r.bucket < |mem|
      && At(mem[r.bucket], r) ==
         P.Some(if Passed(items, r) then AssignedPhysical(PhysicalOf(s, r), f) else PhysicalOf(s, r))
  }

  // ----- the loop

  /** The memory of the buckets after an assignment at the slot of `x`. */
  ghost predicate WrittenAt(mem: seq<Chain>, next: seq<Chain>, x: Item, payload: int) {
    && |next| == |mem| && x.id.slot.bucket < |mem|
    && (forall k :: 0 <= k < |mem| && k != x.id.slot.bucket ==> next[k] == mem[k])
    && exists p: Physical ::
         ItemOf(p) == [x] && WritesOver(mem[x.id.slot.bucket], next[x.id.slot.bucket], x, p, payload)
  }

  ghost predicate WritesOver(c: Chain, d: Chain, x: Item, p: Physical, payload: int)
    requires p.cell.Init?
  {
    && At(c, x.id.slot) == P.Some(p)
    && forall r: SlotRef :: r.bucket == x.id.slot.bucket ==>
         At(d, r) == if r == x.id.slot then P.Some(Overwritten(p, payload)) else At(c, r)
  }

  lemma WrittenStep(s: Store, mem: seq<Chain>, next: seq<Chain>, f: Item -> int, items: seq<Item>, x: Item)
    requires Written(s, mem, f, items) && WrittenAt(mem, next, x, f(x))
    requires !Passed(items, x.id.slot)
    ensures Written(s, next, f, items + [x])
  {
    var more := items + [x];
    forall r ensures Passed(more, r) <==> Passed(items, r) || r == x.id.slot {
      if r == x.id.slot { assert more[|items|] == x; }
      if Passed(items, r) {
        var i :| 0 <= i < |items| && items[i].id.slot == r;
        assert more[i].id.slot == r;
      }
    }
    var p: Physical :| ItemOf(p) == [x]
      && WritesOver(mem[x.id.slot.bucket], next[x.id.slot.bucket], x, p, f(x));
    forall r | r in s.slots
      ensures At(next[r.bucket], r) ==
              P.Some(if Passed(more, r) then AssignedPhysical(PhysicalOf(s, r), f) else PhysicalOf(s, r))
    {
      if r == x.id.slot { assert PhysicalOf(s, r) == p; }
    }
  }

  lemma NothingWritten(s: Store, mem: seq<Chain>, f: Item -> int)
    requires forall r :: r in s.slots ==> r.bucket < |mem| && At(mem[r.bucket], r) == P.Some(PhysicalOf(s, r))
    ensures Written(s, mem, f, [])
  {
  }

  lemma AllWritten(s: Store, mem: seq<Chain>, f: Item -> int, items: seq<Item>)
    requires Written(s, mem, f, items) && forall x :: IsLiveItem(s, x) ==> x in items
    ensures StoreFrom(s, mem) == Assigned(s, f)
  {
    forall r | r in s.slots
      ensures At(mem[r.bucket], r) == P.Some(AssignedPhysical(PhysicalOf(s, r), f))
    {
      if ItemOf(PhysicalOf(s, r)) != [] {
        var x := ItemOf(PhysicalOf(s, r))[0];
        LiveItemMeans(s, x);
        assert x in items;
        var i :| 0 <= i < |items| && items[i] == x;
        assert Passed(items, r);
      }
    }
    assert StoreFrom(s, mem).slots == Assigned(s, f).slots;
  }

  /** What is still to be passed: the item shown, and the rest. */
  function Ahead(r: P.Option<Item>, rest: seq<Item>): seq<Item> {
    if r.Some? then [r.value] + rest else rest
  }

  /** The next item is at a slot that was not passed. */
  lemma PassOne(all: seq<Item>, done: seq<Item>, x: Item, rest: seq<Item>)
    requires all == done + Ahead(P.Some(x), rest) && Distinct(all)
    ensures all == (done + [x]) + rest && |rest| < |Ahead(P.Some(x), rest)|
    ensures !Passed(done, x.id.slot)
  {
    forall i | 0 <= i < |done| ensures done[i].id.slot != x.id.slot {
      assert all[i] == done[i] && all[|done|] == x;
    }
  }

  /** The iterators are those of the buckets, in this order, and hold the memory of the store. */
  ghost predicate Iterates(iter: GenIter, iters: seq<BucketIter>)
    reads iter, iter.iters, iters
  {
    && iter.Valid() && iter.iters <= iters
    && forall i :: 0 <= i < |iters| ==> iters[i].bucket == i && !iters[i].owned
  }

  /** The iterator is at an item, or at its end. */
  ghost predicate StandsAt(iter: GenIter, r: P.Option<Item>)
    reads iter, iter.iters
  {
    if r.Some? then iter.iters != [] && iter.iters[|iter.iters| - 1].Shows(r.value) else iter.Rest() == []
  }

  method AssignShown(iter: GenIter, ghost iters: seq<BucketIter>, x: Item, payload: int)
    requires Iterates(iter, iters) && StandsAt(iter, P.Some(x))
    modifies iter.iters[|iter.iters| - 1]
    ensures Iterates(iter, iters) && iter.Rest() == old(iter.Rest())
    ensures WrittenAt(old(Memories(iters)), Memories(iters), x, payload)
  {
    var last := iter.iters[|iter.iters| - 1];
    ghost var p := SlotAt(last.current, last.lastSlot);
    assert p.address.bucket == last.bucket;
    iter.Assign(x, payload);
    assert WritesOver(old(Memories(iters))[x.id.slot.bucket], Memories(iters)[x.id.slot.bucket], x, p, payload);
  }

  /** Walking on leaves the memory alone. */
  method WalkOn(iter: GenIter, ghost iters: seq<BucketIter>) returns (r: P.Option<Item>)
    requires Iterates(iter, iters)
    modifies iter, iter.iters
    ensures Iterates(iter, iters) && StandsAt(iter, r) && Memories(iters) == old(Memories(iters))
    ensures iter.iters <= old(iter.iters)
    ensures old(iter.Rest()) == Ahead(r, iter.Rest())
  {
    r := iter.Next();
    assert forall i :: |old(iter.iters)| <= i < |iters| ==> iters[i] !in old(iter.iters);
  }

  /** `for (_, element) in store.iter_mut() { *element = f(...) }`: every live element is assigned to once. */
  method AssignAll(s: Store, f: Item -> int) returns (yielded: seq<Item>, left: Store)
    requires Inv(s) && Facts.Quiescent(s)
    ensures Distinct(yielded) && forall x :: x in yielded <==> IsLiveItem(s, x)
    ensures left == Assigned(s, f)
  {
    hide Inv, IsLiveItem, BeforeBucket, StoreFrom, Assigned, Written, Distinct, Iterates, C.Touched;
    hide Memories, AllRest, AllToVisit;
    var iter := NewIter(s, false);
    var iters := iter.iters;
    StartsIterating(s, iter);
    NothingWritten(s, Memories(iters), f);
    yielded := AssignTo(s, iter, iters, f);
    AllWritten(s, Memories(iters), f, yielded);
    left := StoreFrom(s, Memories(iters));
  }

  /** The loop over the iterator. */
  method AssignTo(ghost s: Store, iter: GenIter, ghost iters: seq<BucketIter>, f: Item -> int)
      returns (yielded: seq<Item>)
    requires Iterates(iter, iters) && Distinct(iter.Rest()) && Written(s, Memories(iters), f, [])
    modifies iter, iter.iters
    ensures yielded == old(iter.Rest()) && Written(s, Memories(iters), f, yielded)
  {
    hide Written, Distinct, StandsAt, Iterates, WrittenAt, Memories, AllRest, Ahead;
    hide Passed, At, ItemOf, GenIter.Valid, GenIter.Rest;
    ghost var all := iter.Rest();
    yielded := [];
    var r := WalkOn(iter, iters);
    while r.Some?
      invariant Iterates(iter, iters) && StandsAt(iter, r) && iter.iters <= old(iter.iters)
      invariant all == yielded + Ahead(r, iter.Rest())
      invariant Written(s, Memories(iters), f, yielded)
      decreases |Ahead(r, iter.Rest())|
    {
      ghost var mem := Memories(iters);
      var x := r.value;
      PassOne(all, yielded, x, iter.Rest());
      r := AssignAndWalkOn(iter, iters, x, f(x));
      WrittenStep(s, mem, Memories(iters), f, yielded, x);
      yielded := yielded + [x];
    }
    NoneToCome(iter, r);
  }

  method AssignAndWalkOn(iter: GenIter, ghost iters: seq<BucketIter>, x: Item, payload: int)
      returns (r: P.Option<Item>)
    requires Iterates(iter, iters) && StandsAt(iter, P.Some(x))
    modifies iter, iter.iters
    ensures Iterates(iter, iters) && StandsAt(iter, r) && iter.iters <= old(iter.iters)
    ensures WrittenAt(old(Memories(iters)), Memories(iters), x, payload)
    ensures old(iter.Rest()) == Ahead(r, iter.Rest())
  {
    assert iter.iters != [];
    hide Iterates, WrittenAt;
    AssignShown(iter, iters, x, payload);
    r := WalkOn(iter, iters);
  }

  lemma NoneToCome(iter: GenIter, r: P.Option<Item>)
    requires StandsAt(iter, r) && r.None?
    ensures Ahead(r, iter.Rest()) == []
  {
  }

  lemma StartsIterating(s: Store, iter: GenIter)
    requires Inv(s) && iter.Valid() && |iter.iters| == BUCKET_COUNT
    requires forall i :: 0 <= i < BUCKET_COUNT ==> BeforeBucket(s, iter.iters[i], i, false)
    ensures Iterates(iter, iter.iters)
    ensures forall r :: r in s.slots ==>
              r.bucket < BUCKET_COUNT && At(Memories(iter.iters)[r.bucket], r) == P.Some(PhysicalOf(s, r))
  {
    NewMemory(s, iter.iters, false);
    forall i | 0 <= i < BUCKET_COUNT ensures iter.iters[i].bucket == i && !iter.iters[i].owned {
      assert BeforeBucket(s, iter.iters[i], i, false);
    }
  }

  // ----- what the assignments mean

  /** The slot after the loop. */
  function AssignedSlot(c: P.Slot, r: SlotRef, f: Item -> int): P.Slot {
    if c.word.Occupied() && c.cell.Init?
    then c.(cell := P.Init(c.cell.element.(payload := f(Item(Id(r, c.word.id), c.cell.element)))))
    else c
  }

  lemma AssignedAt(s: Store, f: Item -> int, r: SlotRef)
    requires r in s.slots
    ensures Assigned(s, f).slots[r] == AssignedSlot(s.slots[r], r, f)
  {
  }

  lemma SlotKeepsInv(c: P.Slot, r: SlotRef, f: Item -> int)
    requires I.Inv(c) && forall a :: a in c.calls ==> Facts.Ended(c.calls[a])
    ensures I.Inv(AssignedSlot(c, r, f))
  {
    hide I.CallInv, I.Counted, I.Housed, I.Recorded, I.Stored, I.Awaited, Facts.Ended;
    var d := AssignedSlot(c, r, f);
    PartsKept(c, r, f);
    forall a | a in d.calls ensures I.CallInv(d, a, d.calls[a]) {
      EndedKeepsInv(c, d, a);
    }
  }

  lemma PartsKept(c: P.Slot, r: SlotRef, f: Item -> int)
    requires I.Counted(c) && I.Housed(c) && I.Recorded(c) && I.Stored(c) && I.Awaited(c)
    ensures var d := AssignedSlot(c, r, f);
      I.Counted(d) && I.Housed(d) && I.Recorded(d) && I.Stored(d) && I.Awaited(d)
  {
  }

  /** A call that has ended does not care for the value. */
  lemma EndedKeepsInv(c: P.Slot, d: P.Slot, a: P.CallId)
    requires a in c.calls && I.CallInv(c, a, c.calls[a]) && Facts.Ended(c.calls[a]) && d == c.(cell := d.cell)
    ensures I.CallInv(d, a, c.calls[a])
  {
  }

  /** Only values have changed. */
  predicate SameButValues(s: Store, t: Store) {
    && t == s.(slots := t.slots) && t.slots.Keys == s.slots.Keys
    && forall r :: r in s.slots ==> t.slots[r].calls == s.slots[r].calls && t.slots[r].home == s.slots[r].home
  }

  lemma ValuesAreLocal(s: Store, t: Store)
    requires SameButValues(s, t) && BucketsInv(s) && FreshInv(s) && ErasuresInv(s)
    ensures BucketsInv(t) && FreshInv(t) && ErasuresInv(t)
  {
    hide B.Inv, B.HandedOut;
  }

  lemma CallsAreLocal(s: Store, t: Store)
    requires SameButValues(s, t) && CallsInv(s)
    ensures CallsInv(t)
  {
    hide PlacedInv, SlotCallsInv, BucketCallsInv;
    SlotCallsAreLocal(s, t);
    BucketCallsAreLocal(s, t);
    PlacesAreLocal(s, t);
  }

  lemma SlotCallsAreLocal(s: Store, t: Store)
    requires SameButValues(s, t) && SlotCallsInv(s)
    ensures SlotCallsInv(t)
  {
    forall q, r, a | q in t.slots && r in t.slots && a in t.slots[q].calls && a in t.slots[r].calls ensures q == r {
      assert a in s.slots[q].calls && a in s.slots[r].calls;
    }
  }

  lemma BucketCallsAreLocal(s: Store, t: Store)
    requires SameButValues(s, t) && BucketCallsInv(s)
    ensures BucketCallsInv(t)
  {
    assert t.buckets == s.buckets && t.elements == s.elements && t.used == s.used;
  }

  lemma PlacesAreLocal(s: Store, t: Store)
    requires SameButValues(s, t) && PlacedInv(s)
    ensures PlacedInv(t)
  {
    forall k, a | 0 <= k < |t.buckets| && a in t.buckets[k].calls ensures Placed(t, k, a) {
      assert Placed(s, k, a);
    }
  }

  /** The store can be used on. */
  lemma AssignedKeepsInv(s: Store, f: Item -> int)
    requires Inv(s) && Facts.Quiescent(s)
    ensures Inv(Assigned(s, f)) && Facts.Quiescent(Assigned(s, f))
  {
    hide I.Inv, Assigned, BucketsInv, FreshInv, ErasuresInv, CallsInv;
    var t := Assigned(s, f);
    AssignedParts(s, f);
    forall r | r in s.slots
      ensures I.Inv(t.slots[r]) && t.slots[r].calls == s.slots[r].calls && t.slots[r].home == s.slots[r].home
    {
      AssignedAt(s, f, r);
      SlotKeepsInv(s.slots[r], r, f);
    }
    ValuesAreLocal(s, t);
    CallsAreLocal(s, t);
  }

  lemma AssignedParts(s: Store, f: Item -> int)
    ensures Assigned(s, f).slots.Keys == s.slots.Keys
    ensures Assigned(s, f) == s.(slots := Assigned(s, f).slots)
  {
  }

  /** A live element has the payload that `f` gave it; its guards and everything else are as before. */
  lemma AssignedMeans(s: Store, f: Item -> int, id: Id)
    requires Inv(s) && Facts.Quiescent(s)
    ensures id in AbsOf(Assigned(s, f)).gone <==> id in AbsOf(s).gone
    ensures id in AbsOf(Assigned(s, f)).live <==> id in AbsOf(s).live
    ensures id in AbsOf(s).live ==>
              var e := AbsOf(s).live[id].element;
              AbsOf(Assigned(s, f)).live[id] ==
              AbsOf(s).live[id].(element := e.(payload := f(Item(id, e))))
  {
    hide AbsOf, Assigned, Inv, I.Inv;
    AssignedParts(s, f);
    AbsAt(s, id.slot, id.ord);
    AbsAt(Assigned(s, f), id.slot, id.ord);
    assert id == Id(id.slot, id.ord);
    if id.slot in s.slots {
      AssignedAt(s, f, id.slot);
      Facts.QuiescentSlot(s, id.slot);
    }
  }
}
