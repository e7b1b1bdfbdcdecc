/**
 What the invariant of the slot protocol means for its users: the debug assertions,
 guards, wake-ups, identifiers and elements.
 */
module SlotFacts {
  import opened HeaderWord
  import opened SlotProtocol
  import opened SlotInvariant

  // ----- what one step can touch

  /** Only the moving call changes, and it stays; the operation of a call never changes. */
  lemma StepTouchesOneCall(s: Slot, a: CallId, m: Move)
    requires Enabled(s, a, m)
    ensures var t := Next(s, a, m);
      && t.calls.Keys == s.calls.Keys + {a}
      && t.calls == s.calls[a := t.calls[a]]
      && (a in s.calls ==> t.calls[a].op == s.calls[a].op && t.calls[a].timeout == s.calls[a].timeout)
  {
    if m.Go? {
      GoTouchesOneCall(s, a);
    } else if a in s.calls {
      assert s.calls == s.calls[a := s.calls[a]];
    }
  }

  /** The step is one of the thread parking subroutine. */
  predicate InParking(pc: Pc) {
    || pc.ParkLock? || pc.ParkCheck? || pc.ParkMark? || pc.ParkEnqueue? || pc.Parked?
    || pc.ParkLeaveMiss? || pc.ParkLeaveRead? || pc.ParkLeaveWon?
  }

  /** The calls of `t` are those of `s`, with another program point for `a`. */
  predicate MovesOnly(s: Slot, t: Slot, a: CallId)
    requires a in s.calls
  {
    a in t.calls && t.calls == s.calls[a := s.calls[a].(pc := t.calls[a].pc)]
  }

  lemma GoTouchesOneCall(s: Slot, a: CallId)
    requires Enabled(s, a, Go)
    ensures MovesOnly(s, Proceed(s, a), a)
  {
    if InParking(s.calls[a].pc) {
      ParkingTouchesOneCall(s, a);
    } else {
      WorkingTouchesOneCall(s, a);
    }
  }

  lemma ParkingTouchesOneCall(s: Slot, a: CallId)
    requires Enabled(s, a, Go) && InParking(s.calls[a].pc)
    ensures MovesOnly(s, Proceed(s, a), a)
  {
  }

  lemma WorkingTouchesOneCall(s: Slot, a: CallId)
    requires Enabled(s, a, Go) && !InParking(s.calls[a].pc)
    ensures MovesOnly(s, Proceed(s, a), a)
  {
    assert s.calls == s.calls[a := s.calls[a]];
  }

  /** Slots leave the pool only through a hand-out and enter the queue only through `push_erasure`. */
  lemma StepHome(s: Slot, a: CallId, m: Move)
    requires Inv(s) && Enabled(s, a, m) && !m.BeginInsert?
    ensures var t := Next(s, a, m);
      && (t.home.Fresh? <==> s.home.Fresh?)
      && (m.Go? && s.calls[a].pc.PushErasure? ==> !s.home.Queued? && t.home.Queued?)
      && (!(m.Go? && s.calls[a].pc.PushErasure?) ==> (t.home.Queued? <==> s.home.Queued?))
  {
    if a in s.calls { InvMoves(s, a); StepHomeLocal(s, a, m); }
  }

  lemma StepHomeLocal(s: Slot, a: CallId, m: Move)
    requires Moves(s, a) && Housed(s) && Enabled(s, a, m) && !m.BeginInsert?
    ensures var t := Next(s, a, m);
      && (t.home.Fresh? <==> s.home.Fresh?)
      && (m.Go? && s.calls[a].pc.PushErasure? ==> !s.home.Queued? && t.home.Queued?)
      && (!(m.Go? && s.calls[a].pc.PushErasure?) ==> (t.home.Queued? <==> s.home.Queued?))
  {
  }

  /** The call is in the middle of an operation, and does not merely have a guard. */
  predicate Busy(c: Call) {
    !c.pc.Done? && !c.pc.Panicked? && !c.pc.ReadHeld? && !c.pc.WriteHeld?
  }

  // ----- debug assertions

  lemma RetryChecksHold(s: Slot, a: CallId)
    requires Inv(s) && Enabled(s, a, Spurious)
    ensures RetryChecks(s, a)
  {
    InvMoves(s, a);
    IssuedBelow(s, s.calls[a].op.ord);
    RetryChecksLocally(s, a);
  }

  lemma RetryChecksLocally(s: Slot, a: CallId)
    requires Moves(s, a) && Enabled(s, a, Spurious) && s.calls[a].op.ord < RESERVED_ID
    ensures RetryChecks(s, a)
  {
    hide OwnerInv, HistoryInv;
  }

  /** An issued ordinal is never the reserved one. */
  lemma IssuedBelow(s: Slot, ord: nat)
    requires Inv(s) && ord in s.issued
    ensures ord < RESERVED_ID && ord <= s.word.id
    ensures s.word.id <= RESERVED_ID
  {
    if s.home.Held? { assert CallInv(s, s.home.owner, s.calls[s.home.owner]); }
  }

  /** Every debug assertion, initialisation check and "unreachable" of the program holds at every step. */
  lemma ChecksHold(s: Slot, a: CallId, m: Move)
    requires Inv(s) && Enabled(s, a, m)
    ensures Checks(s, a, m)
  {
    if a in s.calls {
      InvMoves(s, a);
      if !s.calls[a].op.Insert? { IssuedBelow(s, s.calls[a].op.ord); }
      if Enabled(s, a, Spurious) { RetryChecksHold(s, a); }
      GuardSeesValue(s, a);
    } else if m.Begin? {
      IssuedBelow(s, m.op.ord);
    }
  }

  /** A guard looks at an initialised value. */
  lemma GuardSeesValue(s: Slot, a: CallId)
    requires Inv(s) && a in s.calls
    ensures HoldsRead(s.calls[a]) || s.calls[a].pc.WriteHeld? ==>
              s.cell.Init? && s.cell.element.token == Inserter(s, s.calls[a].op.ord)
  {
    InvMoves(s, a);
    if s.calls[a].pc.WriteHeld? { WriterSeesValue(s, a); }
  }

  /** No program point is reached by an operation it does not belong to, so `Enabled` excludes nothing. */
  lemma AlwaysShaped(s: Slot, a: CallId)
    requires Inv(s) && a in s.calls
    ensures Shape(s.calls[a])
  {
    InvMoves(s, a);
  }

  // ----- mutual exclusion

  /** The call may write the value, move it out, or hand the slot to somebody else. */
  predicate Exclusive(c: Call) {
    HoldsWrite(c) || Inserting(c) || Evicting(c)
  }

  /**
   Read guards are counted exactly and never with a write guard; a write guard is alone;
   the count stays below the pattern that means write locked.
   */
  lemma GuardsCounted(s: Slot)
    requires Inv(s)
    ensures s.word.WriteLocked? <==> WriteHolders(s.calls) != {}
    ensures s.word.WriteLocked? ==> |WriteHolders(s.calls)| == 1 && ReadHolders(s.calls) == {}
    ensures s.word.ReadLocked? <==> ReadHolders(s.calls) != {}
    ensures s.word.ReadLocked? ==> s.word.Readers() == |ReadHolders(s.calls)| && WriteHolders(s.calls) == {}
    ensures |ReadHolders(s.calls)| <= MAX_CONCURRENT_READS
  {
  }

  /** No call writes, removes or reuses the value while another has any claim to it. */
  lemma NoConflict(s: Slot, a: CallId, b: CallId)
    requires Inv(s) && a in s.calls && b in s.calls && a != b && Exclusive(s.calls[a])
    ensures !Exclusive(s.calls[b]) && !HoldsRead(s.calls[b])
  {
    Alone(s, a);
  }

  // ----- wake-ups

  /** The call sleeps, or has announced that it will. */
  predicate Sleeping(s: Slot, a: CallId)
    requires a in s.calls
  {
    a in s.parked || s.calls[a].pc.ParkEnqueue?
  }

  /**
   No lost wake-up: whenever a call sleeps or is about to, an unpark is on its way or the
   word is locked and marked, in which case the guards that keep it locked exist.
   */
  lemma NoLostWakeup(s: Slot, a: CallId)
    requires Inv(s) && a in s.calls && Sleeping(s, a)
    ensures
      || Unparkers(s.calls) != {}
      || (s.word.ReadLocked? && s.word.waiting && ReadHolders(s.calls) != {})
      || (s.word.WriteLocked? && s.word.waiting && WriteHolders(s.calls) != {})
  {
    GuardsCounted(s);
  }

  /** With this step call `a` sets out to unpark. */
  predicate StartsUnpark(s: Slot, t: Slot, a: CallId) {
    a in t.calls && Unparking(t.calls[a]) && !(a in s.calls && Unparking(s.calls[a]))
  }

  /** An unpark is started by exactly the steps that free a marked header. */
  lemma UnparksExactly(s: Slot, a: CallId, m: Move)
    requires Inv(s) && Enabled(s, a, m)
    ensures StartsUnpark(s, Next(s, a, m), a) <==>
            s.word.Locked() && s.word.HasThreadBlocking() && !Next(s, a, m).word.Locked()
  {
    hide Inv;
    if a in s.calls {
      InvMoves(s, a);
      if m.Go? {
        if InParking(s.calls[a].pc) {
          ParkingUnparksNobody(s, a);
        } else if s.calls[a].pc.ReadCas? || s.calls[a].pc.TransitionCas? {
          LockingUnparksNobody(s, a);
        } else {
          WorkUnparksExactly(s, a);
        }
      }
    }
  }

  lemma ParkingUnparksNobody(s: Slot, a: CallId)
    requires Moves(s, a) && Enabled(s, a, Go) && InParking(s.calls[a].pc)
    ensures !StartsUnpark(s, Proceed(s, a), a) && (s.word.Locked() ==> Proceed(s, a).word.Locked())
  {
    hide GuardInv, OwnerInv, HistoryInv;
  }

  lemma LockingUnparksNobody(s: Slot, a: CallId)
    requires Moves(s, a) && Enabled(s, a, Go) && (s.calls[a].pc.ReadCas? || s.calls[a].pc.TransitionCas?)
    ensures !StartsUnpark(s, Proceed(s, a), a) && (s.word.Locked() ==> Proceed(s, a).word.Locked())
  {
    hide GuardInv, OwnerInv, HistoryInv;
  }

  lemma WorkUnparksExactly(s: Slot, a: CallId)
    requires Moves(s, a) && Enabled(s, a, Go)
    requires var pc := s.calls[a].pc; !InParking(pc) && !pc.ReadCas? && !pc.TransitionCas?
    ensures StartsUnpark(s, Proceed(s, a), a) <==>
            s.word.Locked() && s.word.HasThreadBlocking() && !Proceed(s, a).word.Locked()
  {
    hide HistoryInv;
  }

  /** A sleeper leaves the queue by an unpark, or by its own deadline. */
  lemma WokenInTwoWays(s: Slot, a: CallId, m: Move, b: CallId)
    requires Inv(s) && Enabled(s, a, m) && b in s.parked
    ensures b !in Next(s, a, m).parked ==> (a == b && m.Expire?) || (a in s.calls && Unparking(s.calls[a]))
  {
    hide Inv;
    if m.Go? && a in s.calls {
      if InParking(s.calls[a].pc) {
        ParkingWakesNobody(s, a);
      } else if !Unparking(s.calls[a]) {
        WorkWakesNobody(s, a);
      }
    }
  }

  lemma ParkingWakesNobody(s: Slot, a: CallId)
    requires Enabled(s, a, Go) && InParking(s.calls[a].pc)
    ensures Proceed(s, a).parked >= s.parked
  {
  }

  lemma WorkWakesNobody(s: Slot, a: CallId)
    requires Enabled(s, a, Go) && !InParking(s.calls[a].pc) && !Unparking(s.calls[a])
    ensures Proceed(s, a).parked == s.parked
  {
  }

  /** An unlocked or unoccupied header with sleepers has an unpark on its way. */
  lemma UnlockedMeansUnpark(s: Slot, a: CallId)
    requires Inv(s) && a in s.calls && Sleeping(s, a) && !s.word.Locked()
    ensures Unparkers(s.calls) != {}
  {
  }

  /** The call that somebody waits for: it has a guard, an unpark to do, or the queue lock. */
  predicate Responsible(c: Call) {
    HoldsRead(c) || HoldsWrite(c) || Unparking(c) || HasQueueLock(c)
  }

  /** Who can end a sleep is not asleep, and waits at most for the queue lock. */
  lemma ResponsibleCanGo(s: Slot, b: CallId)
    requires Inv(s) && b in s.calls && Responsible(s.calls[b])
    requires Unparking(s.calls[b]) ==> s.queueLock.None?
    ensures !s.calls[b].pc.Parked? && Enabled(s, b, Go)
  {
    hide Inv;
    AlwaysShaped(s, b);
  }

  /** While anybody sleeps, some other call that is awake can take its next step. */
  lemma SleepersDoNotBlockAll(s: Slot, a: CallId) returns (b: CallId)
    requires Inv(s) && a in s.parked
    ensures b in s.calls && b != a && !s.calls[b].pc.Parked?
    ensures Responsible(s.calls[b]) && Enabled(s, b, Go)
  {
    hide Counted, Housed, Recorded, Stored, AllCalls, Enabled;
    NoLostWakeup(s, a);
    if s.queueLock.Some? {
      b := s.queueLock.value;
    } else if Unparkers(s.calls) != {} {
      b :| b in Unparkers(s.calls);
    } else if s.word.ReadLocked? {
      b :| b in ReadHolders(s.calls);
    } else {
      b :| b in WriteHolders(s.calls);
    }
    AlwaysShaped(s, b);
    ResponsibleCanGo(s, b);
  }

  /** A timeout happens only to a call that was allowed to wait for a deadline. */
  lemma DontBlockNeverSleeps(s: Slot, a: CallId)
    requires Inv(s) && a in s.calls && s.calls[a].timeout.DontBlock? && !s.calls[a].op.Insert?
    ensures !Sleeping(s, a) && !HasQueueLock(s.calls[a]) && s.queueLock != Some(a)
  {
    InvMoves(s, a);
  }

  /**
   A call without a deadline never times out, so `read`, `write` and `remove` may unwrap its
   result; and only such a call sleeps without one.
   */
  lemma IndefiniteNeverTimesOut(s: Slot, a: CallId)
    requires Inv(s) && a in s.calls
    ensures s.calls[a].timeout.BlockIndefinitely? ==> s.calls[a].pc != Done(TimedOut)
    ensures s.calls[a].pc.Parked? && !s.calls[a].timeout.BlockUntil? ==> s.calls[a].timeout.BlockIndefinitely?
  {
    InvMoves(s, a);
  }

  /** The result cell of `park` says that the call waited as long as it is in the queue. */
  lemma SleeperHasWaited(s: Slot, a: CallId)
    requires Inv(s) && a in s.calls
    ensures Enabled(s, a, Expire) ==>
              s.calls[a].pc == Parked(Waited) && Next(s, a, Expire).calls[a].pc == Parked(Expired)
    ensures s.calls[a].pc == Parked(Expired) ==> a !in s.parked && s.calls[a].timeout.BlockUntil?
  {
    InvMoves(s, a);
  }

  // ----- identifiers

  /**
   The issued-ID invariant: an issued ordinal is at most the stored one, and equal to it
   exactly when the slot is occupied by the insertion that was given the ordinal.
   */
  lemma IssuedIds(s: Slot, ord: nat)
    requires Inv(s) && ord in s.issued
    ensures ord <= s.word.id && ord < RESERVED_ID
    ensures ord == s.word.id <==> ord !in s.removed
    ensures ord == s.word.id ==>
              s.word.Occupied() && !s.cell.Uninit? && s.cell.element.token == s.issued[ord]
    ensures ord == s.word.id && WriteHolders(s.calls) == {} ==> s.cell.Init?
  {
    IssuedBelow(s, ord);
  }

  /** An ordinal is returned by one insertion, and an insertion returns one ordinal. */
  lemma InsertedOnce(s: Slot, a: CallId, b: CallId)
    requires Inv(s) && a in s.calls && b in s.calls
    requires s.calls[a].pc.Done? && s.calls[a].pc.outcome.Inserted?
    requires s.calls[b].pc.Done? && s.calls[b].pc.outcome.Inserted?
    ensures a == b <==> s.calls[a].pc.outcome.ord == s.calls[b].pc.outcome.ord
  {
    InvMoves(s, a);
    InvMoves(s, b);
  }

  /** Of all racing removals of an ID at most one succeeds. */
  lemma RemovedOnce(s: Slot, a: CallId, b: CallId)
    requires Inv(s) && a in s.calls && b in s.calls && RemovedIt(s.calls[a]) && RemovedIt(s.calls[b])
    requires !s.calls[a].op.Insert? && !s.calls[b].op.Insert? && s.calls[a].op.ord == s.calls[b].op.ord
    ensures a == b
  {
    InvMoves(s, a);
    InvMoves(s, b);
  }

  /** A slot whose ordinal has reached the reserved one is never in the pool or occupied. */
  lemma ReservedIsFinal(s: Slot, a: CallId, m: Move)
    requires Inv(s) && s.word.id == RESERVED_ID
    ensures s.word.Unoccupied? && !s.home.Fresh? && !s.home.Queued?
    ensures Enabled(s, a, m) ==> !m.BeginInsert? && Next(s, a, m).word.id == RESERVED_ID
  {
    if Enabled(s, a, m) {
      StepKeepsInv(s, a, m);
      if a in s.calls {
        InvMoves(s, a);
        ReservedStep(s, a, m);
      }
    }
  }

  lemma ReservedStep(s: Slot, a: CallId, m: Move)
    requires Moves(s, a) && s.word == Unoccupied(RESERVED_ID) && Enabled(s, a, m)
    ensures Next(s, a, m).word.id == RESERVED_ID
  {
  }

  // ----- elements

  /** The call has the element with this token in its hands, or has returned it. */
  predicate Carries(c: Call, token: CallId) {
    match c.pc
    case RemoveLockedSwap(e) => e.token == token
    case UnparkRemoved(e) => e.token == token
    case PushErasure(e) => e.token == token
    case Done(o) => o.Removed? && o.element.token == token
    case _ => false
  }

  /** The element lies in the memory of the slot and was not moved out. */
  predicate Lies(s: Slot, token: CallId) {
    s.cell.Init? && s.cell.element.token == token
  }

  /** The inserter still has the element. */
  predicate Brings(s: Slot, token: CallId) {
    token in s.calls && s.calls[token].pc.InsertWrite?
  }

  /**
   Element conservation in one slot: the element of an insertion is with its inserter, in
   the slot, or with exactly one call that moved it out; never in two places.
   */
  lemma ElementInOnePlace(s: Slot, a: CallId) returns (carrier: Option<CallId>)
    requires Inv(s) && a in s.calls && s.calls[a].op.Insert?
    ensures Brings(s, a) ==> !Lies(s, a) && carrier.None?
    ensures Lies(s, a) ==> carrier.None?
    ensures !Brings(s, a) && !Lies(s, a) ==> carrier.Some?
    ensures carrier.Some? ==> carrier.value in s.calls && Carries(s.calls[carrier.value], a)
    ensures forall b :: b in s.calls && Carries(s.calls[b], a) ==> carrier == Some(b)
  {
    InvMoves(s, a);
    if s.calls[a].pc.Done? {
      var o := s.calls[a].pc.outcome.ord;
      carrier := CarrierOf(s, a, o);
    } else {
      carrier := None;
      forall b | b in s.calls ensures !Carries(s.calls[b], a) {
        if Carries(s.calls[b], a) { CarriedWasInserted(s, a, b); }
      }
    }
  }

  /** An element is carried only after its insertion has returned. */
  lemma CarriedWasInserted(s: Slot, a: CallId, b: CallId)
    requires Inv(s) && b in s.calls && Carries(s.calls[b], a)
    ensures a in s.calls && s.calls[a].pc.Done? && !s.calls[b].op.Insert?
    ensures s.calls[a].pc == Done(Inserted(s.calls[b].op.ord)) && s.calls[b].op.ord in s.issued
    ensures s.issued[s.calls[b].op.ord] == a
    ensures RemovedIt(s.calls[b]) || (HoldsWrite(s.calls[b]) && s.cell.Moved?)
  {
    InvMoves(s, b);
  }

  /** An element lies in the slot for its inserter, for the readers of a live slot, or for its remover. */
  lemma LiesForWhom(s: Slot, a: CallId)
    requires Inv(s) && Lies(s, a)
    ensures
      || (a in s.calls && s.calls[a].pc.InsertOccupy?)
      || (s.word.Occupied() && s.word.id in s.issued && s.issued[s.word.id] == a)
      || (s.home.Held? && s.home.owner in s.calls && Taking(s.calls[s.home.owner])
          && !s.calls[s.home.owner].op.Insert? && Inserter(s, s.calls[s.home.owner].op.ord) == a
          && s.calls[s.home.owner].op.ord in s.issued)
  {
    if s.home.Held? { assert CallInv(s, s.home.owner, s.calls[s.home.owner]); }
  }

  lemma CarrierOf(s: Slot, a: CallId, o: nat) returns (carrier: Option<CallId>)
    requires Inv(s) && o in s.issued && s.issued[o] == a && s.calls[a].pc == Done(Inserted(o))
    ensures Lies(s, a) <==> carrier.None?
    ensures carrier.Some? ==> carrier.value in s.calls && Carries(s.calls[carrier.value], a)
    ensures forall b :: b in s.calls && Carries(s.calls[b], a) ==> carrier == Some(b)
  {
    if o == s.word.id {
      carrier := LiveCarrier(s, a, o);
    } else {
      carrier := RemovedCarrier(s, a, o);
    }
  }

  lemma LiveCarrier(s: Slot, a: CallId, o: nat) returns (carrier: Option<CallId>)
    requires Inv(s) && o in s.issued && s.issued[o] == a && s.calls[a].pc == Done(Inserted(o)) && o == s.word.id
    ensures Lies(s, a) <==> carrier.None?
    ensures carrier.Some? ==> carrier.value in s.calls && Carries(s.calls[carrier.value], a)
    ensures forall b :: b in s.calls && Carries(s.calls[b], a) ==> carrier == Some(b)
  {
    if s.cell.Moved? {
      GuardsCounted(s);
      var w :| w in WriteHolders(s.calls);
      OnlyWriter(s, w);
      carrier := Some(w);
    } else {
      carrier := None;
    }
    forall b | b in s.calls && Carries(s.calls[b], a) ensures carrier == Some(b) {
      CarriedWasInserted(s, a, b);
      InvMoves(s, b);
    }
  }

  lemma RemovedCarrier(s: Slot, a: CallId, o: nat) returns (carrier: Option<CallId>)
    requires Inv(s) && o in s.issued && s.issued[o] == a && s.calls[a].pc == Done(Inserted(o)) && o != s.word.id
    ensures Lies(s, a) <==> carrier.None?
    ensures carrier.Some? ==> carrier.value in s.calls && Carries(s.calls[carrier.value], a)
    ensures forall b :: b in s.calls && Carries(s.calls[b], a) ==> carrier == Some(b)
  {
    var r := s.removed[o];
    InvMoves(s, r);
    carrier := if Taking(s.calls[r]) then None else Some(r);
    if Lies(s, a) {
      LiesForWhom(s, a);
      RemoverTakes(s, a, o);
    }
    forall b | b in s.calls && Carries(s.calls[b], a) ensures carrier == Some(b) {
      CarriedWasInserted(s, a, b);
      CarrierRemovedIt(s, b, o);
    }
  }

  lemma RemoverTakes(s: Slot, a: CallId, o: nat)
    requires Inv(s) && o in s.removed && o in s.issued && s.issued[o] == a && Lies(s, a)
    requires s.calls[a].pc == Done(Inserted(o)) && o != s.word.id
    ensures Taking(s.calls[s.removed[o]])
  {
    LiesForWhom(s, a);
    InvMoves(s, s.removed[o]);
    if s.home.Held? { InvMoves(s, s.home.owner); }
  }

  lemma CarrierRemovedIt(s: Slot, b: CallId, o: nat)
    requires Inv(s) && b in s.calls && !s.calls[b].op.Insert? && s.calls[b].op.ord == o && o < s.word.id
    requires RemovedIt(s.calls[b]) || HoldsWrite(s.calls[b])
    ensures o in s.removed && s.removed[o] == b
  {
    InvMoves(s, b);
  }
}
