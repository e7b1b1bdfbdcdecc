/**
 Conservation over the whole store: of slots, of elements, and of what is left when the
 store is dropped.  Every statement holds in every state of every run, because the
 invariant does (`Refinement.RunKeepsInv`).
 */
module StoreFacts {
  import opened HeaderWord
  import opened Store
  import P = SlotProtocol
  import I = SlotInvariant
  import F = SlotFacts
  import B = Bucket

  // ----- slots

  /** Who has a slot, told by buckets, queue, header words and calls only. */
  datatype Class = Untouched | Inserting | Occupied | Evicting | Erased | Retired

  ghost predicate Belongs(s: Store, r: SlotRef, c: Class)
    requires |s.buckets| == BUCKET_COUNT && r in s.slots && r.bucket < BUCKET_COUNT
  {
    var slot := s.slots[r];
    match c
    case Untouched => !B.HandedOut(s.buckets[r.bucket], LogicalOf(r))
    case Inserting => exists a :: a in slot.calls && I.Inserting(slot.calls[a])
    case Occupied => slot.word.Occupied()
    case Evicting => exists a :: a in slot.calls && I.Evicting(slot.calls[a])
    case Erased => r in s.erasures
    case Retired =>
      slot.word == Unoccupied(RESERVED_ID) && forall a :: a in slot.calls ==> !I.Evicting(slot.calls[a])
  }

  function ClassOf(s: Store, r: SlotRef): Class
    requires r in s.slots
  {
    var slot := s.slots[r];
    match slot.home
    case Fresh => Untouched
    case Queued => Erased
    case Live => Occupied
    case Retired => Retired
    case Held(a) => if a in slot.calls && I.Inserting(slot.calls[a]) then Inserting else Evicting
  }

  /** What buckets and queue say about the slot. */
  lemma PoolByHome(s: Store, r: SlotRef)
    requires BucketsInv(s) && FreshInv(s) && ErasuresInv(s) && r in s.slots
    ensures InRange(s, r)
    ensures !B.HandedOut(s.buckets[r.bucket], LogicalOf(r)) <==> s.slots[r].home.Fresh?
    ensures r in s.erasures <==> s.slots[r].home.Queued?
  {
    assert InRange(s, r);
  }

  /** Slot conservation: every allocated slot belongs to exactly one class. */
  lemma SlotConservation(s: Store, r: SlotRef, c: Class)
    requires Inv(s) && r in s.slots
    ensures InRange(s, r)
    ensures Belongs(s, r, c) <==> c == ClassOf(s, r)
  {
    hide I.Inv, B.HandedOut, BucketsInv, FreshInv, ErasuresInv, CallsInv;
    PoolByHome(s, r);
    SlotSound(s, r);
    BelongsByHome(s.slots[r]);
  }

  lemma SlotSound(s: Store, r: SlotRef)
    requires SlotsInv(s) && r in s.slots
    ensures I.Inv(s.slots[r])
  {
  }

  /** Inside one slot: who is inserting, who is evicting, and what the word says. */
  lemma OwnerHasHome(c: P.Slot, a: P.CallId)
    requires I.Inv(c) && a in c.calls && (I.Inserting(c.calls[a]) || I.Evicting(c.calls[a]))
    ensures c.home == P.Held(a) && (I.Inserting(c.calls[a]) ==> c.word.id < RESERVED_ID)
  {
    hide I.Counted, I.Housed, I.Recorded, I.Stored, I.Awaited;
    assert I.CallInv(c, a, c.calls[a]);
  }

  lemma BelongsByHome(c: P.Slot)
    requires I.Inv(c)
    ensures c.home.Held? ==> c.home.owner in c.calls
    ensures (exists a :: a in c.calls && I.Inserting(c.calls[a])) <==>
            c.home.Held? && c.home.owner in c.calls && I.Inserting(c.calls[c.home.owner])
    ensures (exists a :: a in c.calls && I.Evicting(c.calls[a])) <==>
            c.home.Held? && c.home.owner in c.calls && !I.Inserting(c.calls[c.home.owner])
    ensures c.word.Occupied() <==> c.home.Live?
    ensures c.home.Retired? <==>
              c.word == Unoccupied(RESERVED_ID) && forall a :: a in c.calls ==> !I.Evicting(c.calls[a])
  {
    hide I.Counted, I.Recorded, I.Stored, I.Awaited, I.CallInv;
    forall a | a in c.calls && (I.Inserting(c.calls[a]) || I.Evicting(c.calls[a])) 
      ensures c.home == P.Held(a) && (I.Inserting(c.calls[a]) ==> c.word.id < RESERVED_ID)
    {
      OwnerHasHome(c, a);
    }
    if c.home.Held? { I.InvMoves(c, c.home.owner); }
  }

  /** At most one call has a slot, so two insertions never write the same slot, nor one that is being emptied. */
  lemma OneOwner(s: Store, r: SlotRef, a: P.CallId, b: P.CallId)
    requires Inv(s) && r in s.slots && a in s.slots[r].calls && b in s.slots[r].calls
    requires I.Inserting(s.slots[r].calls[a]) || I.Evicting(s.slots[r].calls[a])
    requires I.Inserting(s.slots[r].calls[b]) || I.Evicting(s.slots[r].calls[b])
    ensures a == b
  {
    I.InvMoves(s.slots[r], a);
    I.InvMoves(s.slots[r], b);
  }

  // ----- elements

  /** The slot, or a call at it, has the element of insertion `a`. */
  ghost predicate HasElement(c: P.Slot, a: P.CallId) {
    || F.Brings(c, a) || F.Lies(c, a)
    || exists b :: b in c.calls && F.Carries(c.calls[b], a)
  }

  /** A slot that has the element of an insertion knows the insertion. */
  lemma ElementKnowsInsertion(c: P.Slot, a: P.CallId)
    requires I.Inv(c) && HasElement(c, a)
    ensures a in c.calls
  {
    if F.Lies(c, a) {
      F.LiesForWhom(c, a);
    } else if !F.Brings(c, a) {
      var b :| b in c.calls && F.Carries(c.calls[b], a);
      F.CarriedWasInserted(c, a, b);
    }
  }

  /**
   Element conservation across the store: an insertion inside a bucket still brings its
   element itself; an insertion at a slot has its element at that slot and at no other.
   With `SlotFacts.ElementInOnePlace` it is there in exactly one place.
   */
  lemma ElementAtOneSlot(s: Store, r: SlotRef, a: P.CallId)
    requires Inv(s) && r in s.slots && a in s.slots[r].calls && s.slots[r].calls[a].op.Insert?
    ensures HasElement(s.slots[r], a)
    ensures forall q :: q in s.slots && HasElement(s.slots[q], a) ==> q == r
  {
    var carrier := F.ElementInOnePlace(s.slots[r], a);
    forall q | q in s.slots && HasElement(s.slots[q], a) ensures q == r {
      ElementKnowsInsertion(s.slots[q], a);
    }
  }

  lemma ElementInBucket(s: Store, k: nat, a: P.CallId)
    requires Inv(s) && k < BUCKET_COUNT && a in s.buckets[k].calls && !Carrying(s.buckets[k].calls[a])
    ensures a in s.elements && s.elements[a].token == a
    ensures forall q :: q in s.slots ==> !HasElement(s.slots[q], a)
  {
    assert Placed(s, k, a);
    forall q | q in s.slots ensures !HasElement(s.slots[q], a) {
      if HasElement(s.slots[q], a) { ElementKnowsInsertion(s.slots[q], a); }
    }
  }

  // ----- a store nobody is using

  predicate Ended(c: P.Call) {
    c.pc.Done? || c.pc.Panicked?
  }

  /** All calls have ended and all guards are gone, as exclusive access to the store implies. */
  predicate Quiescent(s: Store) {
    && (forall r, a :: r in s.slots && a in s.slots[r].calls ==> Ended(s.slots[r].calls[a]))
    && (forall k :: 0 <= k < |s.buckets| ==> s.buckets[k].calls == map[])
  }

  /**
   In a quiescent store every header is unlocked or unoccupied, a value is there exactly
   when its header is occupied, and it is the element of the insertion of the stored ID.
   So `needs_drop` is right about every slot, and `get_exclusive` and the iterators, which
   look at the header only, always find an initialised value.
   */
  lemma QuiescentSlot(s: Store, r: SlotRef)
    requires Inv(s) && Quiescent(s) && r in s.slots
    ensures s.slots[r].word.Unlocked? || s.slots[r].word.Unoccupied?
    ensures s.slots[r].word.Occupied() <==> s.slots[r].cell.Init?
    ensures s.slots[r].word.Occupied() ==>
              && s.slots[r].word.id in s.slots[r].issued
              && s.slots[r].cell.element.token == s.slots[r].issued[s.slots[r].word.id]
  {
    QuiescentLocal(s.slots[r]);
  }

  lemma QuiescentLocal(c: P.Slot)
    requires I.Inv(c) && forall a :: a in c.calls ==> Ended(c.calls[a])
    ensures c.word.Unlocked? || c.word.Unoccupied?
    ensures c.word.Occupied() <==> c.cell.Init?
    ensures c.word.Occupied() ==> c.word.id in c.issued && c.cell.element.token == c.issued[c.word.id]
    ensures c.parked == {}
  {
    hide I.CallInv, I.Recorded;
    assert I.ReadHolders(c.calls) == {} && I.WriteHolders(c.calls) == {};
    assert !c.home.Held?;
  }

  /**
   Dropping a quiescent store drops an element exactly when no removal has returned it:
   each inserted element leaves the store exactly once.
   */
  lemma DroppedOrReturned(s: Store, r: SlotRef, a: P.CallId) returns (taker: P.Option<P.CallId>)
    requires Inv(s) && Quiescent(s) && r in s.slots && a in s.slots[r].calls && s.slots[r].calls[a].op.Insert?
    ensures taker.None? <==> s.slots[r].word.Occupied() && s.slots[r].cell.element.token == a
    ensures taker.Some? ==>
              && taker.value in s.slots[r].calls
              && s.slots[r].calls[taker.value].pc.Done? && s.slots[r].calls[taker.value].pc.outcome.Removed?
              && s.slots[r].calls[taker.value].pc.outcome.element.token == a
    ensures forall b :: b in s.slots[r].calls && F.Carries(s.slots[r].calls[b], a) ==> taker == P.Some(b)
  {
    QuiescentSlot(s, r);
    taker := F.ElementInOnePlace(s.slots[r], a);
    assert Ended(s.slots[r].calls[a]);
    if taker.Some? { assert Ended(s.slots[r].calls[taker.value]); }
  }
}
