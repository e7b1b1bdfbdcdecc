/**
 Who waits for what: operations may begin in every state, a step is held up by a lock that is
 taken and by nothing else, and the store as a whole never comes to a stop.
 */
module Progress {
  import opened Bits
  import opened Store
  import opened Spec
  import opened Refinement
  import P = SlotProtocol
  import I = SlotInvariant
  import F = SlotFacts
  import B = Bucket
  import Blocks
  import X = RwStore

  // ----- one slot

  /** The call is about to take the queue lock of the parking lot. */
  predicate WantsQueueLock(pc: P.Pc) {
    pc.ParkLock? || pc.UnparkReleased? || pc.UnparkRemoved?
  }

  /** A call at a slot waits for the queue lock, or sleeps; everything else it does at once. */
  lemma SlotWaitsExactly(s: P.Slot, a: P.CallId)
    requires I.Inv(s) && a in s.calls && F.Busy(s.calls[a])
    ensures P.Enabled(s, a, P.Go) <==>
            !(WantsQueueLock(s.calls[a].pc) && s.queueLock.Some?) && a !in s.parked
  {
    hide I.Inv;
    F.AlwaysShaped(s, a);
    I.InvMoves(s, a);
  }

  /** A sleeper with a deadline can see it pass whenever nobody has the queue lock. */
  lemma DeadlineMayPass(s: P.Slot, a: P.CallId)
    requires I.Inv(s) && a in s.parked && s.queueLock.None?
    ensures a in s.calls && (P.Enabled(s, a, P.Expire) <==> s.calls[a].timeout.BlockUntil?)
  {
    hide I.Counted, I.Housed, I.Recorded, I.Stored, I.AllCalls, I.WakeDue;
  }

  /** Every compare-exchange may fail for no reason, and every guard may be used at any time. */
  lemma OtherMovesAreFree(s: P.Slot, a: P.CallId, payload: int)
    requires I.Inv(s) && a in s.calls
    ensures var pc := s.calls[a].pc;
      && (P.Enabled(s, a, P.Spurious) <==> pc.ReadCas? || pc.ReadUnlockCas? || pc.TransitionCas?)
      && (P.Enabled(s, a, P.Deref) <==> pc.ReadHeld? || pc.WriteHeld?)
      && (P.Enabled(s, a, P.Mutate(payload)) <==> pc.WriteHeld?)
      && (P.Enabled(s, a, P.TakeLocked) <==> pc.WriteHeld?)
      && (pc.ReadHeld? || pc.WriteHeld? ==> P.Enabled(s, a, P.Go))
  {
    hide I.Inv;
    F.AlwaysShaped(s, a);
  }

  /** Somebody at the slot can go on, if anybody wants to. */
  lemma SlotGoesOn(s: P.Slot, a: P.CallId) returns (b: P.CallId)
    requires I.Inv(s) && a in s.calls && F.Busy(s.calls[a])
    ensures b in s.calls && P.Enabled(s, b, P.Go)
    ensures b == a || !I.Inserting(s.calls[b])
  {
    hide I.Inv;
    SlotWaitsExactly(s, a);
    if P.Enabled(s, a, P.Go) {
      b := a;
    } else if a in s.parked {
      b := F.SleepersDoNotBlockAll(s, a);
      ResponsibleDoesNotInsert(s.calls[b]);
    } else {
      b := s.queueLock.value;
      QueueLockHolder(s);
      F.ResponsibleCanGo(s, b);
      ResponsibleDoesNotInsert(s.calls[b]);
    }
  }

  lemma QueueLockHolder(s: P.Slot)
    requires I.Inv(s) && s.queueLock.Some?
    ensures s.queueLock.value in s.calls && I.HasQueueLock(s.calls[s.queueLock.value])
  {
  }

  lemma ResponsibleDoesNotInsert(c: P.Call)
    requires F.Responsible(c)
    ensures !I.Inserting(c)
  {
  }

  // ----- one bucket

  /** A call in a bucket waits for its reader-writer lock only; readers do not wait for each other. */
  lemma BucketWaitsExactly(b: B.Bucket, a: P.CallId)
    requires B.Inv(b) && a in b.calls && b.blocks <= Blocks.MAX_BLOCK
    ensures B.Enabled(b, a) <==>
            && (b.calls[a].WantRead? ==> b.writer == {})
            && (b.calls[a].WantWrite? ==> b.writer == {} && B.Readers(b) == {})
  {
    if b.calls[a].SlowRefetch? { B.RefetchHits(b, a); }
  }

  /** Somebody in the bucket can go on. */
  lemma BucketGoesOn(b: B.Bucket, a: P.CallId) returns (c: P.CallId)
    requires B.Inv(b) && a in b.calls && b.blocks <= Blocks.MAX_BLOCK
    ensures c in b.calls && B.Enabled(b, c)
  {
    BucketWaitsExactly(b, a);
    if B.Enabled(b, a) {
      c := a;
    } else if b.writer != {} {
      c :| c in b.writer;
      BucketWaitsExactly(b, c);
    } else {
      c :| c in B.Readers(b);
      BucketWaitsExactly(b, c);
    }
  }

  // ----- the store

  /** Every operation on an identifier that was issued may begin in any state. */
  lemma OperationsMayBegin(s: Store, a: P.CallId, id: Id, timeout: P.Timeout)
    requires Inv(s) && a !in s.used && Known(AbsOf(s), id)
    ensures Enabled(s, a, AtSlot(id.slot, P.Begin(P.Read(id.ord), timeout)))
    ensures Enabled(s, a, AtSlot(id.slot, P.Begin(P.Write(id.ord), timeout)))
    ensures Enabled(s, a, AtSlot(id.slot, P.Begin(P.Remove(id.ord), timeout)))
  {
    hide Inv, AbsOf, Known, InAllocator;
    X.KnownIsIssued(s, id);
    NewIsOutside(s, a);
  }

  lemma NewIsOutside(s: Store, a: P.CallId)
    requires Inv(s) && a !in s.used
    ensures !InAllocator(s, a) && forall r :: r in s.slots ==> a !in s.slots[r].calls
  {
    hide SlotsInv, FreshInv, ErasuresInv, BucketsInv;
  }

  /** An insertion may begin when an erasure can be reused, or when the bucket has room for one more call. */
  lemma InsertMayBegin(s: Store, a: P.CallId, e: P.Element, k: nat)
    requires Inv(s) && a !in s.used && e.token == a && k < BUCKET_COUNT
    ensures Enabled(s, a, StartInsert(e, k)) <==> s.erasures != [] || |s.buckets[k].calls| < s.buckets[k].limit
  {
    hide SlotsInv, FreshInv;
    NewIsOutside(s, a);
  }

  /** The call is in the middle of an operation. */
  predicate Pending(s: Store, a: P.CallId) {
    InAllocator(s, a) || exists r :: r in s.slots && a in s.slots[r].calls && F.Busy(s.slots[r].calls[a])
  }

  /** The move takes an operation on, or drops a guard. */
  predicate Proceeds(m: StoreMove) {
    m.Allocate? || (m.AtSlot? && m.move.Go?)
  }

  /**
   No deadlock: while any operation is pending, somebody can proceed, if only by dropping a
   guard that others wait for.
   */
  lemma NoDeadlock(s: Store, a: P.CallId) returns (b: P.CallId, m: StoreMove)
    requires Inv(s) && Pending(s, a)
    requires forall k :: 0 <= k < |s.buckets| ==> s.buckets[k].blocks <= Blocks.MAX_BLOCK
    ensures Proceeds(m) && Enabled(s, b, m)
  {
    hide SlotsInv, FreshInv, ErasuresInv, B.Inv, F.Busy, I.Inv;
    if InAllocator(s, a) {
      var k :| 0 <= k < |s.buckets| && a in s.buckets[k].calls;
      b := BucketGoesOn(s.buckets[k], a);
      m := Allocate(k);
      AllocateReady(s, b, k);
    } else {
      var r :| r in s.slots && a in s.slots[r].calls && F.Busy(s.slots[r].calls[a]);
      SlotIsSound(s, r);
      b := SlotGoesOn(s.slots[r], a);
      m := AtSlot(r, P.Go);
      if b != a { UsersAreOutside(s, r, b); }
    }
  }

  lemma SlotIsSound(s: Store, r: SlotRef)
    requires Inv(s) && r in s.slots
    ensures I.Inv(s.slots[r])
  {
  }

  /** A call that is at a slot and is not inserting is in no bucket. */
  lemma UsersAreOutside(s: Store, r: SlotRef, b: P.CallId)
    requires PlacedInv(s) && SlotCallsInv(s) && r in s.slots && b in s.slots[r].calls
    requires !I.Inserting(s.slots[r].calls[b])
    ensures !InAllocator(s, b)
  {
  }
}
