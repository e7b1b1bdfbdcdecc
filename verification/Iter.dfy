/**
 The iterators (src/iter.rs) over the blocks of a store that nobody else is using, and
 what is dropped on the way (src/block.rs).

 A block owns the block that was allocated before it, so a chain of blocks is a value;
 the iterators are objects that walk along it.
 */
module Iter {
  import opened HeaderWord
  import opened Bits
  import opened Blocks
  import opened SlotProtocol
  import opened Refinement
  import S = Store

  /** A slot as the iterators see it: its address, its header and its value. */
  datatype Physical = Physical(address: S.SlotRef, word: HeaderState, cell: Cell)

  datatype Chain = Nil | Block(slots: seq<Physical>, next: Chain) {
    function Len(): nat {
      if Nil? then 0 else |slots|
    }

    function Depth(): nat {
      if Nil? then 0 else 1 + next.Depth()
    }
  }

  datatype Item = Item(id: Id, element: Element)

  // ----- chains of blocks

  /** Lengths 2^(n-1), ..., 2, 1. */
  predicate Doubling(c: Chain) {
    c.Block? ==> |c.slots| == Pow2(c.Depth() - 1) && Doubling(c.next)
  }

  /** Unlocked or unoccupied, with a value exactly when occupied. */
  predicate Settled(p: Physical) {
    && (p.word.Unlocked? || p.word.Unoccupied?)
    && (p.word.Occupied() ==> p.cell.Init?)
  }

  /** Every slot of bucket `k` is settled and knows its address. */
  predicate Sound(c: Chain, k: nat) {
    c.Block? ==>
      && (forall i :: 0 <= i < |c.slots| ==>
            Settled(c.slots[i]) && c.slots[i].address == S.SlotRef(k, c.Depth() - 1, i))
      && Sound(c.next, k)
  }

  predicate ChainOk(c: Chain, k: nat) {
    Doubling(c) && c.Depth() <= MAX_BLOCK + 1 && Sound(c, k)
  }

  /** The slots of the head from logical number `n` on are not occupied. */
  predicate CleanFrom(c: Chain, n: nat) {
    c.Block? && |c.slots| > 0 ==>
      forall j :: n <= j < |c.slots| ==> !c.slots[ScrambleSlot(|c.slots|, j)].word.Occupied()
  }

  // ----- items

  function ItemOf(p: Physical): seq<Item> {
    if p.word.Occupied() && p.cell.Init? then [Item(Id(p.address, p.word.id), p.cell.element)] else []
  }

  /** The items of a block in the order of the iterators: logical slots `n - 1` down to 0. */
  function ItemsFrom(slots: seq<Physical>, n: nat): seq<Item>
    requires n <= |slots|
  {
    if n == 0 then [] else ItemOf(slots[ScrambleSlot(|slots|, n - 1)]) + ItemsFrom(slots, n - 1)
  }

  /** What is still to come, with `n` slots of the head left. */
  function Remaining(c: Chain, n: nat): seq<Item>
    requires n <= c.Len()
  {
    if c.Nil? then [] else ItemsFrom(c.slots, n) + Remaining(c.next, c.next.Len())
  }

  /** The slots still to visit. */
  function ToVisit(c: Chain, n: nat): nat {
    if c.Nil? then 0 else n + ToVisit(c.next, c.next.Len())
  }

  /** The items of a block in the order of its memory, as dropping the block meets them. */
  function Leftovers(slots: seq<Physical>): seq<Item> {
    if slots == [] then [] else ItemOf(slots[0]) + Leftovers(slots[1..])
  }

  function ChainLeftovers(c: Chain): seq<Item> {
    if c.Nil? then [] else Leftovers(c.slots) + ChainLeftovers(c.next)
  }

  // ----- memory

  /** A chain of which the blocks `behind` have been left, the first block of the chain first. */
  function Rebuilt(behind: seq<seq<Physical>>, c: Chain): Chain {
    if behind == [] then c
    else Rebuilt(behind[..|behind| - 1], Block(behind[|behind| - 1], c))
  }

  /** The slot at a position of a chain. */
  function At(c: Chain, r: S.SlotRef): Option<Physical> {
    if c.Nil? then None
    else if r.block + 1 == c.Depth() then (if r.index < |c.slots| then Some(c.slots[r.index]) else None)
    else At(c.next, r)
  }

  /** The blocks that were left are untouched by what happens to the others. */
  lemma {:induction false} AtRebuilt(behind: seq<seq<Physical>>, c: Chain, d: Chain, r: S.SlotRef)
    requires c.Depth() == d.Depth()
    ensures r.block < c.Depth() ==> At(Rebuilt(behind, c), r) == At(c, r)
    ensures r.block >= c.Depth() ==> At(Rebuilt(behind, c), r) == At(Rebuilt(behind, d), r)
    decreases |behind|
  {
    if behind != [] {
      var last := behind[|behind| - 1];
      AtRebuilt(behind[..|behind| - 1], Block(last, c), Block(last, d), r);
      AtRebuilt(behind[..|behind| - 1], Block(last, d), Block(last, c), r);
    } else {
      if r.block >= c.Depth() { NothingAbove(c, r); NothingAbove(d, r); }
    }
  }

  lemma {:induction false} NothingAbove(c: Chain, r: S.SlotRef)
    requires r.block >= c.Depth()
    ensures At(c, r).None?
  {
    if c.Block? { NothingAbove(c.next, r); }
  }

  /** What replacing one slot of the head does to the memory. */
  lemma ReplacedAt(behind: seq<seq<Physical>>, c: Chain, k: nat, n: nat, p: Physical, r: S.SlotRef)
    requires c.Block? && ChainOk(c, k) && n < |c.slots| && r.bucket == k
    ensures At(Rebuilt(behind, Replaced(c, n, p)), r) ==
            if r == SlotAt(c, n).address then Some(p) else At(Rebuilt(behind, c), r)
    ensures At(Rebuilt(behind, c), SlotAt(c, n).address) == Some(SlotAt(c, n))
  {
    var d := Replaced(c, n, p);
    assert d.Depth() == c.Depth();
    AtRebuilt(behind, c, d, r);
    AtRebuilt(behind, d, c, r);
    AtRebuilt(behind, c, d, SlotAt(c, n).address);
  }

  /** The slot that `take` has emptied: it keeps its ID, and its value was moved out. */
  function Emptied(p: Physical): Physical
    requires !p.cell.Uninit?
  {
    Physical(p.address, Unoccupied(p.word.id), Moved(p.cell.element))
  }

  /** The slot after an assignment to its element. */
  function Overwritten(p: Physical, payload: int): Physical
    requires p.cell.Init?
  {
    p.(cell := Init(p.cell.element.(payload := payload)))
  }

  /** Logical slot `n` of the head is replaced, and nothing else. */
  function Replaced(c: Chain, n: nat, p: Physical): Chain
    requires c.Block? && n < |c.slots|
  {
    Block(c.slots[ScrambleSlot(|c.slots|, n) := p], c.next)
  }

  /** Logical slot `n` of the head. */
  function SlotAt(c: Chain, n: nat): Physical
    requires c.Block? && n < |c.slots|
  {
    c.slots[ScrambleSlot(|c.slots|, n)]
  }

  // ----- dropping

  /** Dropping the slots of a block: the elements that `needs_drop` reports, all of them initialised. */
  method DropSlots(slots: seq<Physical>) returns (gone: seq<Item>)
    requires forall i :: 0 <= i < |slots| ==> Settled(slots[i])
    ensures gone == Leftovers(slots)
  {
    gone := [];
    for i := 0 to |slots|
      invariant gone + Leftovers(slots[i..]) == Leftovers(slots)
    {
      var p := slots[i];
      assert slots[i..][1..] == slots[i + 1..];
      if p.word.Occupied() {
        assert p.cell.Init?;
        gone := gone + [Item(Id(p.address, p.word.id), p.cell.element)];
      }
    }
  }

  /** Dropping a block drops its slots and the block that it owns. */
  method DropChain(c: Chain, ghost k: nat) returns (gone: seq<Item>)
    requires ChainOk(c, k)
    ensures gone == ChainLeftovers(c)
  {
    if c.Nil? { return []; }
    var here := DropSlots(c.slots);
    var there := DropChain(c.next, k);
    gone := here + there;
  }

  // ----- the iterator of one bucket

  class BucketIter {
    const owned: bool           // into_iter, which moves the elements out; otherwise iter_mut
    const bucket: nat
    var lastSlot: nat
    var current: Chain
    var behind: seq<seq<Physical>>  // the blocks that iter_mut has left; the store still has them
    var dropped: seq<Item>      // elements dropped with the blocks left behind: none
    ghost var rest: seq<Item>   // what is still to come

    ghost predicate Valid()
      reads this
    {
      && ChainOk(current, bucket)
      && lastSlot <= current.Len()
      && (owned ==> CleanFrom(current, lastSlot) && behind == [])
      && dropped == []
      && rest == Remaining(current, lastSlot)
    }

    /** The blocks of the bucket as the iterator leaves them. */
    function Memory(): Chain
      reads this
    {
      Rebuilt(behind, current)
    }

    /** The iterator stands at the slot of item `x`, which it has just passed. */
    ghost predicate Shows(x: Item)
      reads this
    {
      && current.Block? && lastSlot < |current.slots|
      && SlotAt(current, lastSlot).address == x.id.slot
      && (!owned ==> ItemOf(SlotAt(current, lastSlot)) == [x])
    }

    /** `GenBucketIter::new` clamps a counter that overshot. */
    constructor (owned: bool, bucket: nat, nextUnused: nat, head: Chain)
      requires ChainOk(head, bucket)
      requires CleanFrom(head, nextUnused)
      ensures Valid() && this.owned == owned && this.bucket == bucket && current == head && Memory() == head
      ensures lastSlot == (if nextUnused < head.Len() then nextUnused else head.Len())
      ensures rest == Remaining(head, lastSlot)
    {
      this.owned := owned;
      this.bucket := bucket;
      lastSlot := if nextUnused < head.Len() then nextUnused else head.Len();
      current := head;
      behind := [];
      dropped := [];
      rest := Remaining(head, if nextUnused < head.Len() then nextUnused else head.Len());
    }

    /**
     The tracker's `take`: `Block::take` resets the header and moves the value,
     `slot_contents` only looks.
     */
    method Take(slot: nat) returns (r: Option<Item>)
      requires ChainOk(current, bucket) && slot < current.Len()
      requires owned ==> CleanFrom(current, slot + 1)
      modifies `current
      ensures ItemOf(old(SlotAt(current, slot))) == if r.Some? then [r.value] else []
      ensures
        current == if owned && r.Some? then old(Replaced(current, slot, Emptied(SlotAt(current, slot))))
                   else old(current)
      ensures ChainOk(current, bucket) && current.Len() == old(current.Len()) && current.Depth() == old(current.Depth())
      ensures owned ==> CleanFrom(current, slot)
      ensures old(Remaining(current, slot + 1)) == (if r.Some? then [r.value] else []) + Remaining(current, slot)
      ensures ToVisit(current, slot) == old(ToVisit(current, slot))
    {
      var i := ScrambleSlot(|current.slots|, slot);
      var p := current.slots[i];
      NextSlot(current, bucket, slot);
      if p.word.Occupied() {
        assert p.word.Readers() == 0 && !p.word.HasThreadBlocking() && p.cell.Init?;
        r := Some(Item(Id(p.address, p.word.id), p.cell.element));
        if owned {
          var taken := Physical(p.address, Unoccupied(p.word.id), Moved(p.cell.element));
          TakeKeepsRest(current, bucket, slot, taken);
          current := Block(current.slots[i := taken], current.next);
        }
      } else {
        r := None;
      }
    }

    /** One slot further. */
    method TakeLast() returns (r: Option<Item>)
      requires Valid() && lastSlot > 0
      modifies this
      ensures Valid() && behind == old(behind)
      ensures lastSlot == old(lastSlot) - 1 && current.Depth() == old(current.Depth())
      ensures !owned ==> current == old(current)
      ensures old(rest) == (if r.Some? then [r.value] else []) + rest
      ensures r.Some? ==> Shows(r.value)
    {
      lastSlot := lastSlot - 1;
      r := Take(lastSlot);
      rest := Remaining(current, lastSlot);
    }

    /** The tracker's `next`; the owned one frees the block it leaves, with whatever is still in it. */
    method Leave()
      requires Valid() && current.Block? && lastSlot == 0
      modifies this
      ensures Valid()
      ensures current == old(current).next && lastSlot == current.Len()
      ensures rest == old(rest)
      ensures !owned ==> Memory() == old(Memory())
    {
      if owned {
        NothingLeft(current, bucket);
        var gone := DropSlots(current.slots);
        dropped := dropped + gone;
      } else {
        behind := behind + [current.slots];
        assert behind[..|behind| - 1] == old(behind);
      }
      NextBlock(current, bucket);
      current := current.next;
      lastSlot := current.Len();
    }

    /** Walks on to the next item, and stays there. */
    method Next() returns (r: Option<Item>)
      requires Valid()
      modifies this
      ensures Valid()
      ensures old(rest) == [] ==> r.None? && rest == []
      ensures old(rest) != [] ==> r == Some(old(rest)[0]) && rest == old(rest)[1..]
      ensures r.Some? ==> Shows(r.value)
      ensures r.None? ==> current.Nil? && lastSlot == 0
      ensures !owned ==> Memory() == old(Memory())
      decreases current.Depth(), lastSlot
    {
      hide ChainOk, CleanFrom, Rebuilt, ItemOf;
      if lastSlot == 0 {
        if current.Nil? { return None; }
        Leave();
        r := Next();
      } else {
        r := TakeLast();
        if r.None? { r := Next(); }
      }
    }

    /** Assignment through the reference that `iter_mut` has shown last. */
    method Assign(ghost x: Item, payload: int)
      requires Valid() && !owned && Shows(x)
      modifies `current
      ensures Valid() && rest == old(rest)
      ensures current == old(Replaced(current, lastSlot, Overwritten(SlotAt(current, lastSlot), payload)))
      ensures Shows(x.(element := x.element.(payload := payload)))
      ensures forall r: S.SlotRef :: r.bucket == bucket ==>
                At(Memory(), r) == if r == x.id.slot then Some(old(Overwritten(SlotAt(current, lastSlot), payload)))
                                   else old(At(Memory(), r))
      ensures old(At(Memory(), x.id.slot)) == Some(old(SlotAt(current, lastSlot)))
    {
      var i := ScrambleSlot(|current.slots|, lastSlot);
      var p := current.slots[i];
      assert p.cell.Init?;
      var written := p.(cell := Init(p.cell.element.(payload := payload)));
      AssignKeepsRest(current, bucket, lastSlot, written);
      forall r: S.SlotRef | r.bucket == bucket
        ensures At(Rebuilt(behind, Replaced(current, lastSlot, written)), r) ==
                if r == x.id.slot then Some(written) else At(Rebuilt(behind, current), r)
        ensures At(Rebuilt(behind, current), x.id.slot) == Some(p)
      {
        ReplacedAt(behind, current, bucket, lastSlot, written, r);
      }
      current := Block(current.slots[i := written], current.next);
    }

    /** The upper bound is the number of slots still to visit. */
    method SizeHint() returns (lower: nat, upper: nat, fits: bool)
      requires Valid()
      ensures lower == 0 && upper == ToVisit(current, lastSlot) && fits
      ensures |rest| <= upper
    {
      VisitCount(current, lastSlot);
      upper, fits := HeadSizeToTotalSize(current.Len(), current.Depth());
      upper := upper - (current.Len() - lastSlot);
      lower := 0;
    }

    /** Dropping the iterator drops the blocks it still owns, and what is in them. */
    method Discard() returns (gone: seq<Item>)
      requires Valid() && owned
      modifies this
      ensures Valid() && current.Nil? && rest == []
      ensures gone == old(ChainLeftovers(current))
      ensures forall x :: x in gone <==> x in old(rest)
    {
      LeftoversAreRest(current, bucket, lastSlot);
      gone := DropChain(current, bucket);
      current := Nil;
      lastSlot := 0;
      rest := [];
    }
  }

  // ----- lemmas about items

  /** Going to the next block skips no item. */
  lemma NextBlock(c: Chain, k: nat)
    requires c.Block? && ChainOk(c, k)
    ensures ChainOk(c.next, k) && CleanFrom(c.next, c.next.Len())
    ensures Remaining(c.next, c.next.Len()) == Remaining(c, 0)
    ensures ToVisit(c.next, c.next.Len()) == ToVisit(c, 0)
  {
  }

  /** Going to the next slot passes the item of that slot, if there is one. */
  lemma NextSlot(c: Chain, k: nat, n: nat)
    requires c.Block? && ChainOk(c, k) && n < |c.slots|
    ensures
      var p := c.slots[ScrambleSlot(|c.slots|, n)];
      && Settled(p)
      && Remaining(c, n + 1) == ItemOf(p) + Remaining(c, n)
      && (CleanFrom(c, n + 1) && !p.word.Occupied() ==> CleanFrom(c, n))
  {
  }

  lemma {:induction false} ItemsFromMeans(slots: seq<Physical>, n: nat, x: Item)
    requires n <= |slots|
    ensures x in ItemsFrom(slots, n) <==> exists j :: 0 <= j < n && x in ItemOf(slots[ScrambleSlot(|slots|, j)])
  {
    if n > 0 { ItemsFromMeans(slots, n - 1, x); }
  }

  lemma {:induction false} LeftoversMeans(slots: seq<Physical>, x: Item)
    ensures x in Leftovers(slots) <==> exists i :: 0 <= i < |slots| && x in ItemOf(slots[i])
  {
    if slots != [] {
      LeftoversMeans(slots[1..], x);
      if i :| 0 <= i < |slots| && x in ItemOf(slots[i]) {
        if i > 0 { assert slots[1..][i - 1] == slots[i]; }
      }
      if i :| 0 <= i < |slots[1..]| && x in ItemOf(slots[1..][i]) {
        assert slots[i + 1] == slots[1..][i];
      }
    }
  }

  /** A block that was visited to the end has nothing left to drop. */
  lemma NothingLeft(c: Chain, k: nat)
    requires c.Block? && ChainOk(c, k) && CleanFrom(c, 0)
    ensures Leftovers(c.slots) == []
  {
    forall i | 0 <= i < |c.slots| ensures !c.slots[i].word.Occupied() {
      ScramblePermutes(c.Depth() - 1, i);
      var j := UnscrambleSlot(|c.slots|, i);
      assert !c.slots[ScrambleSlot(|c.slots|, j)].word.Occupied();
    }
    if Leftovers(c.slots) != [] { LeftoversMeans(c.slots, Leftovers(c.slots)[0]); }
  }

  /** Two logical slots never share a physical slot. */
  lemma ScrambleInjective(k: nat, i: nat, j: nat)
    requires k <= 32 && i < Pow2(k) && j < Pow2(k) && ScrambleSlot(Pow2(k), i) == ScrambleSlot(Pow2(k), j)
    ensures i == j
  {
    ScramblePermutes(k, i);
    ScramblePermutes(k, j);
  }

  lemma {:induction false} ItemsFromUpdate(slots: seq<Physical>, n: nat, i: nat, p: Physical)
    requires n <= |slots| && i < |slots|
    requires forall j :: 0 <= j < n ==> ScrambleSlot(|slots|, j) != i
    ensures ItemsFrom(slots[i := p], n) == ItemsFrom(slots, n)
  {
    if n > 0 {
      ItemsFromUpdate(slots, n - 1, i, p);
      assert slots[i := p][ScrambleSlot(|slots|, n - 1)] == slots[ScrambleSlot(|slots|, n - 1)];
    }
  }

  /** Taking the element of the slot just reached disturbs nothing that is still to come. */
  lemma TakeKeepsRest(c: Chain, k: nat, n: nat, taken: Physical)
    requires c.Block? && ChainOk(c, k) && n < |c.slots| && CleanFrom(c, n + 1)
    requires taken.word.Unoccupied? && taken.address == c.slots[ScrambleSlot(|c.slots|, n)].address
    ensures
      var d := Block(c.slots[ScrambleSlot(|c.slots|, n) := taken], c.next);
      && ChainOk(d, k) && CleanFrom(d, n) && Remaining(d, n) == Remaining(c, n)
      && d.Depth() == c.Depth() && ToVisit(d, n) == ToVisit(c, n)
  {
    var i := ScrambleSlot(|c.slots|, n);
    var d := Block(c.slots[i := taken], c.next);
    forall j | 0 <= j < |c.slots| && j != n ensures ScrambleSlot(|c.slots|, j) != i {
      if ScrambleSlot(|c.slots|, j) == i { ScrambleInjective(c.Depth() - 1, j, n); }
    }
    ItemsFromUpdate(c.slots, n, i, taken);
    assert d.Depth() == c.Depth();
  }

  /** An assignment to the element of the slot just passed disturbs nothing that is still to come. */
  lemma AssignKeepsRest(c: Chain, k: nat, n: nat, written: Physical)
    requires c.Block? && ChainOk(c, k) && n < |c.slots|
    requires Settled(written) && written.address == c.slots[ScrambleSlot(|c.slots|, n)].address
    ensures
      var d := Block(c.slots[ScrambleSlot(|c.slots|, n) := written], c.next);
      ChainOk(d, k) && Remaining(d, n) == Remaining(c, n) && d.Len() == c.Len()
  {
    var i := ScrambleSlot(|c.slots|, n);
    var d := Block(c.slots[i := written], c.next);
    forall j | 0 <= j < |c.slots| && j != n ensures ScrambleSlot(|c.slots|, j) != i {
      if ScrambleSlot(|c.slots|, j) == i { ScrambleInjective(c.Depth() - 1, j, n); }
    }
    ItemsFromUpdate(c.slots, n, i, written);
    assert d.Depth() == c.Depth();
  }

  lemma {:induction false} VisitCount(c: Chain, n: nat)
    requires Doubling(c) && n <= c.Len()
    ensures c.Len() == HeadLen(c.Depth())
    ensures ToVisit(c, n) == SlotsOf(c.Depth()) - (c.Len() - n)
    ensures |Remaining(c, n)| <= ToVisit(c, n)
  {
    if c.Block? {
      VisitCount(c.next, c.next.Len());
      ItemsFromCount(c.slots, n);
    }
  }

  lemma {:induction false} ItemsFromCount(slots: seq<Physical>, n: nat)
    requires n <= |slots|
    ensures |ItemsFrom(slots, n)| <= n
  {
    if n > 0 { ItemsFromCount(slots, n - 1); }
  }

  /** Dropping the rest of a chain drops exactly what iterating on would have yielded. */
  lemma {:induction false} LeftoversAreRest(c: Chain, k: nat, n: nat)
    requires ChainOk(c, k) && n <= c.Len() && CleanFrom(c, n)
    ensures forall x :: x in ChainLeftovers(c) <==> x in Remaining(c, n)
  {
    if c.Block? {
      LeftoversAreRest(c.next, k, c.next.Len());
      forall x ensures x in Leftovers(c.slots) <==> x in ItemsFrom(c.slots, n) {
        BlockLeftovers(c, k, n, x);
      }
    }
  }

  lemma BlockLeftovers(c: Chain, k: nat, n: nat, x: Item)
    requires c.Block? && ChainOk(c, k) && n <= c.Len() && CleanFrom(c, n)
    ensures x in Leftovers(c.slots) <==> x in ItemsFrom(c.slots, n)
  {
    LeftoversMeans(c.slots, x);
    ItemsFromMeans(c.slots, n, x);
    if i :| 0 <= i < |c.slots| && x in ItemOf(c.slots[i]) {
      ScramblePermutes(c.Depth() - 1, i);
      var j := UnscrambleSlot(|c.slots|, i);
      assert c.slots[ScrambleSlot(|c.slots|, j)] == c.slots[i];
      assert j < n;
    }
  }

  /** Where the items of a chain come from. */
  lemma {:induction false} RemainingMeans(c: Chain, k: nat, n: nat, x: Item)
    requires ChainOk(c, k) && n <= c.Len() && x in Remaining(c, n)
    ensures x.id.slot.bucket == k && x.id.slot.block < c.Depth()
  {
    if c.Block? {
      if x in ItemsFrom(c.slots, n) {
        ItemsFromMeans(c.slots, n, x);
      } else {
        RemainingMeans(c.next, k, c.next.Len(), x);
      }
    }
  }

  predicate Distinct(items: seq<Item>) {
    forall i, j :: 0 <= i < j < |items| ==> items[i].id.slot != items[j].id.slot
  }

  lemma {:induction false} ItemsAreDistinct(c: Chain, k: nat, n: nat)
    requires ChainOk(c, k) && c.Block? && n <= c.Len()
    ensures Distinct(ItemsFrom(c.slots, n))
  {
    if n > 0 {
      ItemsAreDistinct(c, k, n - 1);
      var rest := ItemsFrom(c.slots, n - 1);
      forall i | 0 <= i < |rest| ensures rest[i].id.slot != c.slots[ScrambleSlot(|c.slots|, n - 1)].address {
        LaterItemElsewhere(c, k, n - 1, rest[i]);
      }
    }
  }

  lemma LaterItemElsewhere(c: Chain, k: nat, n: nat, x: Item)
    requires ChainOk(c, k) && c.Block? && n < c.Len() && x in ItemsFrom(c.slots, n)
    ensures x.id.slot != c.slots[ScrambleSlot(|c.slots|, n)].address
  {
    ItemsFromMeans(c.slots, n, x);
    var j :| 0 <= j < n && x in ItemOf(c.slots[ScrambleSlot(|c.slots|, j)]);
    if ScrambleSlot(|c.slots|, j) == ScrambleSlot(|c.slots|, n) { ScrambleInjective(c.Depth() - 1, j, n); }
  }

  /** No slot is yielded twice. */
  lemma {:induction false} RemainingIsDistinct(c: Chain, k: nat, n: nat)
    requires ChainOk(c, k) && n <= c.Len()
    ensures Distinct(Remaining(c, n))
  {
    if c.Block? {
      ItemsAreDistinct(c, k, n);
      RemainingIsDistinct(c.next, k, c.next.Len());
      var xs, ys := ItemsFrom(c.slots, n), Remaining(c.next, c.next.Len());
      forall i, j | 0 <= i < |xs| && 0 <= j < |ys| ensures xs[i].id.slot != ys[j].id.slot {
        ItemsFromMeans(c.slots, n, xs[i]);
        RemainingMeans(c.next, k, c.next.Len(), ys[j]);
      }
    }
  }

  lemma {:induction false} LeftoversAreDistinct(slots: seq<Physical>)
    requires forall i, j :: 0 <= i < j < |slots| ==> slots[i].address != slots[j].address
    ensures Distinct(Leftovers(slots))
  {
    if slots != [] {
      LeftoversAreDistinct(slots[1..]);
      var rest := Leftovers(slots[1..]);
      forall i | 0 <= i < |rest| ensures rest[i].id.slot != slots[0].address {
        LeftoversMeans(slots[1..], rest[i]);
      }
    }
  }

  /** Dropping the rest of a chain drops no slot twice. */
  lemma {:induction false} ChainLeftoversAreDistinct(c: Chain, k: nat)
    requires ChainOk(c, k)
    ensures Distinct(ChainLeftovers(c))
    ensures forall x :: x in ChainLeftovers(c) ==> x.id.slot.bucket == k && x.id.slot.block < c.Depth()
  {
    if c.Block? {
      ChainLeftoversAreDistinct(c.next, k);
      LeftoversAreDistinct(c.slots);
      forall x | x in Leftovers(c.slots) ensures x.id.slot.bucket == k && x.id.slot.block == c.Depth() - 1 {
        LeftoversMeans(c.slots, x);
      }
    }
  }

  // ----- the iterator of the store

  class GenIter {
    var iters: seq<BucketIter>

    ghost predicate Valid()
      reads this, iters
    {
      forall i :: 0 <= i < |iters| ==> iters[i].Valid() && iters[i].bucket == i
    }

    ghost function Rest(): seq<Item>
      reads this, iters
    {
      AllRest(iters)
    }

    /** What `iter_mut` walks over stays as it is. */
    twostate predicate Untouched(all: seq<BucketIter>)
      reads all
    {
      forall i :: 0 <= i < |all| && !all[i].owned ==> all[i].Memory() == old(all[i].Memory())
    }

    constructor (iters: seq<BucketIter>)
      requires forall i :: 0 <= i < |iters| ==> iters[i].Valid() && iters[i].bucket == i
      ensures Valid() && this.iters == iters
    {
      this.iters := iters;
    }

    /** One step of the last bucket's iterator, seen from the whole. */
    method NextOfLast() returns (r: Option<Item>)
      requires Valid() && iters != []
      modifies iters[|iters| - 1]
      ensures Valid()
      ensures r.Some? ==> old(Rest()) == [r.value] + Rest() && iters[|iters| - 1].Shows(r.value)
      ensures r.None? ==> Rest() == old(Rest()) == AllRest(iters[..|iters| - 1])
      ensures Untouched(old(iters))
    {
      hide Rebuilt, Remaining, ChainOk, CleanFrom, ItemOf;
      var last := iters[|iters| - 1];
      ghost var before := AllRest(iters[..|iters| - 1]);
      ghost var rest := last.rest;
      r := last.Next();
      assert AllRest(iters[..|iters| - 1]) == before;
      HeadFirst(rest, before);
    }

    /** Buckets are walked from the last to the first; an exhausted one is popped. */
    method Next() returns (r: Option<Item>)
      requires Valid()
      modifies this, iters
      ensures Valid() && iters <= old(iters)
      ensures old(Rest()) == [] ==> r.None? && Rest() == [] && iters == []
      ensures old(Rest()) != [] ==> r == Some(old(Rest())[0]) && Rest() == old(Rest())[1..]
      ensures r.Some? ==> iters != [] && iters[|iters| - 1].Shows(r.value)
      ensures Untouched(old(iters))
      decreases |iters|
    {
      hide BucketIter.Valid, BucketIter.Memory, AllRest;
      if iters == [] {
        NoRest();
        return None;
      }
      r := NextOfLast();
      if r.None? {
        ghost var last := iters[|iters| - 1];
        iters := iters[..|iters| - 1];
        assert last !in iters;
        r := Next();
      }
    }

    /** Assignment through the reference that was shown last. */
    method Assign(ghost x: Item, payload: int)
      requires Valid() && iters != [] && !iters[|iters| - 1].owned && iters[|iters| - 1].Shows(x)
      modifies iters[|iters| - 1]
      ensures Valid() && Rest() == old(Rest())
      ensures var last := iters[|iters| - 1];
        && old(At(last.Memory(), x.id.slot)) == Some(old(SlotAt(last.current, last.lastSlot)))
        && forall r: S.SlotRef :: r.bucket == last.bucket ==>
             At(last.Memory(), r) ==
             if r == x.id.slot then Some(old(Overwritten(SlotAt(last.current, last.lastSlot), payload)))
             else old(At(last.Memory(), r))
    {
      var last := iters[|iters| - 1];
      ghost var before := AllRest(iters[..|iters| - 1]);
      last.Assign(x, payload);
      assert AllRest(iters[..|iters| - 1]) == before;
    }

    /** Taking `n` items, or all if there are fewer. */
    method TakeUpTo(n: nat) returns (yielded: seq<Item>)
      requires Valid()
      modifies this, iters
      ensures Valid() && iters <= old(iters)
      ensures old(Rest()) == yielded + Rest()
      ensures |yielded| <= n && (Rest() != [] ==> |yielded| == n)
    {
      if n == 0 { return []; }
      ghost var all := Rest();
      var r := Next();
      if r.None? { return []; }
      ghost var tail := Rest();
      var more := TakeUpTo(n - 1);
      yielded := [r.value] + more;
      Prepend(all, tail, more, Rest());
    }

    /** Taking all items. */
    method TakeAll() returns (yielded: seq<Item>)
      requires Valid()
      modifies this, iters
      ensures Valid() && iters <= old(iters)
      ensures yielded == old(Rest()) && Rest() == [] && iters == []
      ensures Untouched(old(iters))
      decreases |Rest()|
    {
      var r := Next();
      if r.None? { return []; }
      var more := TakeAll();
      yielded := [r.value] + more;
    }

    /** Dropping the iterator drops the iterators it still has. */
    method Discard() returns (gone: seq<Item>)
      requires Valid() && forall i :: 0 <= i < |iters| ==> iters[i].owned
      modifies iters
      ensures Distinct(gone) && forall x :: x in gone <==> x in old(Rest())
    {
      gone := [];
      var i := 0;
      while i < |iters|
        invariant 0 <= i <= |iters|
        invariant forall j :: i <= j < |iters| ==> old(allocated(iters[j])) && unchanged(iters[j])
        invariant Distinct(gone) && forall x :: x in gone <==> x in old(AllRest(iters[..i]))
        invariant forall x :: x in gone ==> x.id.slot.bucket < i
      {
        ChainLeftoversAreDistinct(iters[i].current, i);
        var left := iters[i].Discard();
        gone := gone + left;
        assert iters[..i + 1][..i] == iters[..i];
        i := i + 1;
      }
      assert iters[..i] == iters;
    }

    /** The bounds of all buckets added up. */
    method SizeHint() returns (lower: nat, upper: nat)
      requires Valid()
      ensures lower == 0 && upper == AllToVisit(iters)
      ensures |Rest()| <= upper
    {
      lower, upper := 0, 0;
      var i := 0;
      while i < |iters|
        invariant 0 <= i <= |iters|
        invariant lower == 0 && upper == AllToVisit(iters[..i])
        invariant |AllRest(iters[..i])| <= upper
      {
        var l, u, fits := iters[i].SizeHint();
        ToVisitStep(iters, i);
        lower, upper := lower + l, upper + u;
        i := i + 1;
      }
      assert iters[..i] == iters;
    }
  }

  lemma NoRest()
    ensures AllRest([]) == []
  {
  }

  lemma Prepend(all: seq<Item>, tail: seq<Item>, more: seq<Item>, last: seq<Item>)
    requires all != [] && tail == all[1..] && tail == more + last
    ensures all == [all[0]] + more + last
  {
  }

  lemma HeadFirst(xs: seq<Item>, ys: seq<Item>)
    ensures xs != [] ==> xs + ys == [xs[0]] + (xs[1..] + ys)
    ensures xs == [] ==> xs + ys == ys
  {
  }

  lemma ToVisitStep(iters: seq<BucketIter>, i: nat)
    requires i < |iters|
    ensures AllToVisit(iters[..i + 1]) == AllToVisit(iters[..i]) + ToVisit(iters[i].current, iters[i].lastSlot)
    ensures |AllRest(iters[..i + 1])| == |AllRest(iters[..i])| + |iters[i].rest|
  {
    assert iters[..i + 1][..i] == iters[..i];
  }

  /** No slot comes twice over all buckets. */
  lemma {:induction false} AllRestIsDistinct(iters: seq<BucketIter>)
    requires forall i :: 0 <= i < |iters| ==> iters[i].Valid() && iters[i].bucket == i
    ensures Distinct(AllRest(iters))
    ensures forall x :: x in AllRest(iters) ==> x.id.slot.bucket < |iters|
  {
    if iters != [] {
      var k := |iters| - 1;
      AllRestIsDistinct(iters[..k]);
      RemainingIsDistinct(iters[k].current, k, iters[k].lastSlot);
      forall x | x in iters[k].rest ensures x.id.slot.bucket == k {
        RemainingMeans(iters[k].current, k, iters[k].lastSlot, x);
      }
    }
  }

  /** An item is to come when it is to come in some bucket. */
  lemma {:induction false} AllRestMeans(iters: seq<BucketIter>, x: Item)
    ensures x in AllRest(iters) <==> exists i :: 0 <= i < |iters| && x in iters[i].rest
  {
    if iters != [] {
      var k := |iters| - 1;
      AllRestMeans(iters[..k], x);
      if i :| 0 <= i < |iters| && x in iters[i].rest {
        if i < k { assert iters[..k][i] == iters[i]; }
      }
    }
  }

  /** The items of all buckets, the last bucket first. */
  ghost function AllRest(iters: seq<BucketIter>): seq<Item>
    reads iters
  {
    if iters == [] then []
    else iters[|iters| - 1].rest + AllRest(iters[..|iters| - 1])
  }

  ghost function AllToVisit(iters: seq<BucketIter>): nat
    reads iters
  {
    if iters == [] then 0
    else AllToVisit(iters[..|iters| - 1]) + ToVisit(iters[|iters| - 1].current, iters[|iters| - 1].lastSlot)
  }
}
