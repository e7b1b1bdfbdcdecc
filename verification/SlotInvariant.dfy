/**
 What every step of the slot protocol keeps, and the debug assertions that follow.
 */
module SlotInvariant {
  import opened HeaderWord
  import opened SlotProtocol

  // ----- roles of a call

  /** The call has a read guard. */
  predicate HoldsRead(c: Call) {
    c.pc.ReadHeld? || c.pc.ReadUnlockCas?
  }

  /** The call has the write guard. */
  predicate HoldsWrite(c: Call) {
    c.pc.WriteHeld? || c.pc.RemoveLockedSwap? || (c.pc.ParkLeaveWon? && c.op.Write?)
  }

  predicate Inserting(c: Call) {
    c.pc.InsertWrite? || c.pc.InsertOccupy?
  }

  /** The call has removed its ID and the value is still in the slot. */
  predicate Taking(c: Call) {
    c.pc.RemoveTake? || (c.pc.ParkLeaveWon? && c.op.Remove?)
  }

  /** The call has removed its ID and still has the slot. */
  predicate Evicting(c: Call) {
    Taking(c) || c.pc.UnparkRemoved? || c.pc.PushErasure?
  }

  /** The call is the one that removed its ID. */
  predicate RemovedIt(c: Call) {
    Evicting(c) || (c.pc.Done? && c.pc.outcome.Removed?)
  }

  predicate HasQueueLock(c: Call) {
    || c.pc.ParkCheck? || c.pc.ParkMark? || c.pc.ParkEnqueue?
    || c.pc.ParkLeaveMiss? || c.pc.ParkLeaveRead? || c.pc.ParkLeaveWon?
  }

  predicate Unparking(c: Call) {
    c.pc.UnparkReleased? || c.pc.UnparkRemoved?
  }

  function ReadHolders(calls: map<CallId, Call>): set<CallId> {
    set a | a in calls && HoldsRead(calls[a])
  }

  function WriteHolders(calls: map<CallId, Call>): set<CallId> {
    set a | a in calls && HoldsWrite(calls[a])
  }

  function Unparkers(calls: map<CallId, Call>): set<CallId> {
    set a | a in calls && Unparking(calls[a])
  }

  // ----- the invariant

  function ReadCount(w: HeaderState): nat {
    if w.ReadLocked? then w.readers else 0
  }

  function WriteCount(w: HeaderState): nat {
    if w.WriteLocked? then 1 else 0
  }

  function One(b: bool): nat {
    if b then 1 else 0
  }

  /** The reader field counts the read guards and the write state the one write guard. */
  predicate Counted(s: Slot) {
    && s.word.Valid()
    && |ReadHolders(s.calls)| == ReadCount(s.word)
    && |WriteHolders(s.calls)| == WriteCount(s.word)
  }

  predicate Housed(s: Slot) {
    && (s.word.Occupied() <==> s.home.Live?)
    && (s.home.Fresh? ==> s.word.id == 0)
    && (s.home.Fresh? || s.home.Queued? || s.home.Live? ==> s.word.id < RESERVED_ID)
    && (s.home.Retired? ==> s.word.id == RESERVED_ID)
    && (s.home.Held? ==>
          && s.home.owner in s.calls
          && (Inserting(s.calls[s.home.owner]) || Evicting(s.calls[s.home.owner])))
    && (s.home.Fresh? || s.home.Queued? || s.home.Retired? ==> !s.cell.Init?)
  }

  /** Exactly the ordinals up to the stored one were issued, and exactly those below it removed. */
  ghost predicate Recorded(s: Slot) {
    && (forall o: nat :: o in s.issued <==> o < s.word.id || (o == s.word.id && s.word.Occupied()))
    && (forall o: nat :: o in s.removed <==> o < s.word.id)
    && (forall o: nat :: o in s.issued ==>
          s.issued[o] in s.calls && s.calls[s.issued[o]].pc == Done(Inserted(o)))
    && (forall o: nat :: o in s.removed ==>
          && s.removed[o] in s.calls
          && RemovedIt(s.calls[s.removed[o]])
          && !s.calls[s.removed[o]].op.Insert?
          && s.calls[s.removed[o]].op.ord == o)
  }

  /** The value of a live slot is the element of the insertion that got the stored ordinal. */
  predicate Stored(s: Slot) {
    s.word.Occupied() ==>
      && s.word.id in s.issued
      && !s.cell.Uninit?
      && s.cell.element.token == s.issued[s.word.id]
      && (s.cell.Moved? ==>
            && s.word.WriteLocked?
            && forall a :: a in WriteHolders(s.calls) ==> s.calls[a].pc == RemoveLockedSwap(s.cell.element))
  }

  /** Somebody will wake the sleepers: the word says there are some, or an unpark is on its way. */
  predicate WakeDue(s: Slot) {
    (s.word.Locked() && s.word.HasThreadBlocking()) || Unparkers(s.calls) != {}
  }

  predicate Awaited(s: Slot) {
    && (s.queueLock.Some? ==> s.queueLock.value in s.calls && HasQueueLock(s.calls[s.queueLock.value]))
    && (forall a :: a in s.parked ==> a in s.calls && s.calls[a].pc == Parked(Waited))
    && (forall a :: a in s.calls && (a in s.parked || s.calls[a].pc.ParkEnqueue?) ==> WakeDue(s))
  }

  /** What a call remembers of the words it has read. */
  predicate Remembers(c: Call) {
    && Shape(c)
    && match c.pc
       case ReadCas(cur) =>
         cur.id == c.op.ord && (cur.Unlocked? || cur.ReadLocked?) && cur.Readers() < MAX_CONCURRENT_READS
       case ParkLeaveRead(cur) => cur.Valid() && cur.id == c.op.ord && (cur.Unlocked? || cur.ReadLocked?)
       case ParkMark(cur) =>
         cur.Valid() && cur.id == c.op.ord && cur.Locked() && (c.op.Read? ==> cur.WriteLocked?)
       case ReadUnlockCas(cur) => cur.id == c.op.ord && cur.ReadLocked?
       case PushErasure(_) => c.op.ord + 1 != RESERVED_ID
       case ParkEnqueue(result) => result.Waited?
       case _ => true
  }

  /** A call that must not block never comes near the queue, and one without a deadline never times out. */
  predicate RespectsTimeout(c: Call) {
    && (c.timeout.DontBlock? ==> !c.pc.ParkLock? && !HasQueueLock(c) && !c.pc.Parked?)
    && (c.timeout.BlockIndefinitely? ==> c.pc != Done(TimedOut) && c.pc != Parked(Expired))
  }

  /** What a call may rely on while it has a guard. */
  predicate GuardInv(s: Slot, c: Call)
    requires Shape(c)
  {
    && (HoldsRead(c) ==> s.word.ReadLocked? && s.word.id == c.op.ord)
    && (HoldsWrite(c) ==> s.word.WriteLocked? && s.word.id == c.op.ord)
    && (c.pc.RemoveLockedSwap? ==> s.cell == Moved(c.pc.element))
  }

  /** What a call may rely on while it has the slot to itself. */
  predicate OwnerInv(s: Slot, a: CallId, c: Call)
    requires Shape(c)
  {
    && (Inserting(c) ==> s.home == Held(a) && s.word.id < RESERVED_ID)
    && (Evicting(c) ==> s.home == Held(a) && s.word.id == c.op.ord + 1)
    && (c.pc.InsertWrite? ==> !s.cell.Init?)
    && (c.pc.InsertOccupy? ==> s.cell == Init(c.op.element))
    && (Taking(c) ==> s.cell.Init? && s.cell.element.token == Inserter(s, c.op.ord))
    && (c.pc.UnparkRemoved? || c.pc.PushErasure? ==>
          s.cell == Moved(c.pc.element) && c.pc.element.token == Inserter(s, c.op.ord))
  }

  /** The insertion that was given the ordinal. */
  function Inserter(s: Slot, ord: nat): CallId {
    if ord in s.issued then s.issued[ord] else 0
  }

  /** How a call shows up in the history. */
  predicate HistoryInv(s: Slot, a: CallId, c: Call)
    requires Shape(c)
  {
    && (c.op.Insert? ==> c.op.element.token == a)
    && (!c.op.Insert? ==> c.op.ord in s.issued)
    && (RemovedIt(c) ==> c.op.ord in s.removed && s.removed[c.op.ord] == a)
    && (c.pc.Done? && c.pc.outcome.Removed? ==> c.pc.outcome.element.token == Inserter(s, c.op.ord))
    && (c.pc.Done? && c.pc.outcome.Inserted? ==>
          c.pc.outcome.ord in s.issued && s.issued[c.pc.outcome.ord] == a)
  }

  predicate CallInv(s: Slot, a: CallId, c: Call) {
    && Remembers(c)
    && RespectsTimeout(c)
    && GuardInv(s, c)
    && OwnerInv(s, a, c)
    && HistoryInv(s, a, c)
    && (HasQueueLock(c) ==> s.queueLock == Some(a))
  }

  predicate AllCalls(s: Slot) {
    forall a :: a in s.calls ==> CallInv(s, a, s.calls[a])
  }

  ghost predicate Inv(s: Slot) {
    && Counted(s)
    && Housed(s)
    && Recorded(s)
    && Stored(s)
    && Awaited(s)
    && AllCalls(s)
  }

  lemma InvInit()
    ensures Inv(NEW_SLOT)
  {
    assert ReadHolders(NEW_SLOT.calls) == {};
    assert WriteHolders(NEW_SLOT.calls) == {};
  }

  // ----- sets of holders under an update

  lemma HoldersUpdate(calls: map<CallId, Call>, a: CallId, c: Call)
    ensures ReadHolders(calls[a := c]) == if HoldsRead(c) then ReadHolders(calls) + {a} else ReadHolders(calls) - {a}
    ensures WriteHolders(calls[a := c]) ==
            if HoldsWrite(c) then WriteHolders(calls) + {a} else WriteHolders(calls) - {a}
    ensures Unparkers(calls[a := c]) == if Unparking(c) then Unparkers(calls) + {a} else Unparkers(calls) - {a}
  {
  }

  lemma OnlyWriter(s: Slot, a: CallId)
    requires Counted(s) && a in s.calls && HoldsWrite(s.calls[a])
    ensures WriteHolders(s.calls) == {a}
    ensures forall b :: b in s.calls && HoldsWrite(s.calls[b]) ==> b == a
  {
    var w := WriteHolders(s.calls);
    assert a in w;
    assert |w - {a}| == |w| - 1;
    assert w == {a};
    forall b | b in s.calls && HoldsWrite(s.calls[b]) ensures b == a {
      assert b in w;
    }
  }

  // ----- steps that leave word, value and history alone

  /** The step changes the program point of one call, the queue lock and the parked set only. */
  predicate Quiet(s: Slot, t: Slot, a: CallId) {
    && a in s.calls && a in t.calls
    && t.calls == s.calls[a := t.calls[a]]
    && t.word == s.word && t.cell == s.cell && t.home == s.home
    && t.issued == s.issued && t.removed == s.removed
    && var c, d := s.calls[a], t.calls[a];
    && d.op == c.op
    && (HoldsRead(c) == HoldsRead(d))
    && (HoldsWrite(c) == HoldsWrite(d))
    && (Inserting(c) == Inserting(d))
    && (Evicting(c) == Evicting(d))
    && (RemovedIt(c) == RemovedIt(d))
    && (c.pc.RemoveLockedSwap? == d.pc.RemoveLockedSwap?)
    && (c.pc.Done? ==> d.pc == c.pc)
    && (c.pc.RemoveLockedSwap? ==> d.pc == c.pc)
  }

  lemma QuietCounted(s: Slot, t: Slot, a: CallId)
    requires Counted(s) && Housed(s) && Quiet(s, t, a)
    ensures Counted(t) && Housed(t)
  {
    QuietHolders(s, t, a);
  }

  lemma QuietHolders(s: Slot, t: Slot, a: CallId)
    requires Quiet(s, t, a)
    ensures ReadHolders(t.calls) == ReadHolders(s.calls)
    ensures WriteHolders(t.calls) == WriteHolders(s.calls)
  {
    HoldersUpdate(s.calls, a, t.calls[a]);
  }

  lemma QuietRecorded(s: Slot, t: Slot, a: CallId)
    requires Recorded(s) && Quiet(s, t, a)
    ensures Recorded(t)
  {
  }

  lemma QuietStored(s: Slot, t: Slot, a: CallId)
    requires Stored(s) && Quiet(s, t, a)
    ensures Stored(t)
  {
    HoldersUpdate(s.calls, a, t.calls[a]);
  }

  lemma QuietOther(s: Slot, t: Slot, a: CallId, b: CallId)
    requires Quiet(s, t, a) && b in s.calls && b != a && CallInv(s, b, s.calls[b])
    requires HasQueueLock(s.calls[b]) ==> t.queueLock == s.queueLock
    ensures CallInv(t, b, s.calls[b])
  {
  }

  lemma QuietStep(s: Slot, t: Slot, a: CallId)
    requires Inv(s) && Quiet(s, t, a)
    requires CallInv(t, a, t.calls[a])
    requires Awaited(t)
    requires forall b :: b in s.calls && b != a && HasQueueLock(s.calls[b]) ==> t.queueLock == s.queueLock
    ensures Inv(t)
  {
    QuietCounted(s, t, a);
    QuietRecorded(s, t, a);
    QuietStored(s, t, a);
    forall b | b in t.calls ensures CallInv(t, b, t.calls[b]) {
      if b != a { QuietOther(s, t, a, b); }
    }
  }

  /** Nothing is enqueued, no unpark is dropped, and the queue lock changes hands properly. */
  predicate QuietQueue(s: Slot, t: Slot, a: CallId)
    requires a in s.calls && a in t.calls
  {
    && t.parked <= s.parked && a !in t.parked
    && !Unparking(s.calls[a]) && !t.calls[a].pc.ParkEnqueue?
    && QueueLockPassed(s, t, a)
    && (t.queueLock.Some? ==> t.queueLock == Some(a) || t.queueLock == s.queueLock)
    && (t.queueLock == Some(a) ==> HasQueueLock(t.calls[a]))
  }

  /** The queue lock is only handed over when it is free or one's own. */
  predicate QueueLockPassed(s: Slot, t: Slot, a: CallId) {
    t.queueLock == s.queueLock || s.queueLock.None? || s.queueLock == Some(a)
  }

  lemma QuietAwaited(s: Slot, t: Slot, a: CallId)
    requires Awaited(s) && Quiet(s, t, a) && QuietQueue(s, t, a)
    ensures Awaited(t)
  {
    HoldersUpdate(s.calls, a, t.calls[a]);
    assert WakeDue(s) ==> WakeDue(t);
  }

  /** The ID-only comparison of the program decides "occupied and matching". */
  predicate IdDecides(s: Slot, c: Call) {
    s.word.Valid() && (!c.op.Insert? && s.word.id == c.op.ord ==> s.word.Occupied())
  }

  /** What the invariant says about the call that moves. */
  predicate Moves(s: Slot, a: CallId) {
    && a in s.calls
    && CallInv(s, a, s.calls[a])
    && IdDecides(s, s.calls[a])
    && (a in s.parked ==> s.calls[a].pc == Parked(Waited))
    && (s.queueLock == Some(a) ==> HasQueueLock(s.calls[a]))
  }

  lemma InvMoves(s: Slot, a: CallId)
    requires Inv(s) && a in s.calls
    ensures Moves(s, a)
  {
  }

  predicate QuietMove(s: Slot, t: Slot, a: CallId) {
    Quiet(s, t, a) && CallInv(t, a, t.calls[a]) && QuietQueue(s, t, a)
  }

  lemma QuietRetry(s: Slot, a: CallId)
    requires Moves(s, a) && Enabled(s, a, Spurious)
    ensures QuietMove(s, Retry(s, a), a)
  {
  }

  lemma QuietRead(s: Slot, a: CallId)
    requires Moves(s, a) && Enabled(s, a, Go) && (s.calls[a].pc.ReadLoad? || s.calls[a].pc.ReadHeld?)
    ensures QuietMove(s, Proceed(s, a), a)
  {
  }

  lemma QuietPark(s: Slot, a: CallId)
    requires Moves(s, a) && Enabled(s, a, Go)
    requires var pc := s.calls[a].pc; pc.ParkLock? || pc.Parked? || (pc.ParkMark? && s.word != pc.cur)
    ensures QuietMove(s, Proceed(s, a), a)
  {
  }

  /** The closure decides without changing the word. */
  lemma QuietCheck(s: Slot, a: CallId)
    requires Moves(s, a) && Enabled(s, a, Go) && s.calls[a].pc.ParkCheck?
    requires s.calls[a].op.Read? || s.word != Expected(s.calls[a].op)
    ensures QuietMove(s, Proceed(s, a), a)
  {
  }

  lemma QuietLeave(s: Slot, a: CallId)
    requires Moves(s, a) && Enabled(s, a, Go)
    requires s.calls[a].pc.ParkLeaveMiss? || s.calls[a].pc.ParkLeaveRead? || s.calls[a].pc.ParkLeaveWon?
    ensures QuietMove(s, Proceed(s, a), a)
  {
  }

  lemma QuietExpire(s: Slot, a: CallId)
    requires Moves(s, a) && Enabled(s, a, Expire)
    ensures QuietMove(s, Next(s, a, Expire), a)
  {
  }

  lemma QuietEnqueue(s: Slot, a: CallId)
    requires Moves(s, a) && Enabled(s, a, Go) && s.calls[a].pc.ParkEnqueue?
    ensures
      var t := Proceed(s, a);
      && Quiet(s, t, a) && CallInv(t, a, t.calls[a])
      && s.queueLock == Some(a) && t.queueLock == None && t.parked == s.parked + {a} && t.calls[a].pc == Parked(Waited)
  {
  }

  lemma QuietUnpark(s: Slot, a: CallId)
    requires Moves(s, a) && Enabled(s, a, Go) && s.calls[a].pc.UnparkReleased?
    ensures
      var t := Proceed(s, a);
      && Quiet(s, t, a) && CallInv(t, a, t.calls[a])
      && s.queueLock == t.queueLock == None && t.parked == {} && t.calls[a].pc.Done?
  {
  }

  /** While the queue lock is free no call is between marking and enqueueing. */
  lemma NobodyEnqueueing(s: Slot)
    requires s.queueLock.None? && forall b :: b in s.calls ==> CallInv(s, b, s.calls[b])
    ensures forall b :: b in s.calls ==> !s.calls[b].pc.ParkEnqueue?
  {
    forall b | b in s.calls ensures !s.calls[b].pc.ParkEnqueue? {
      assert CallInv(s, b, s.calls[b]);
    }
  }

  lemma QuietKeepsInv(s: Slot, t: Slot, a: CallId)
    requires Inv(s) && Quiet(s, t, a) && CallInv(t, a, t.calls[a]) && Awaited(t)
    requires QueueLockPassed(s, t, a)
    ensures Inv(t)
  {
    forall b | b in s.calls && b != a && HasQueueLock(s.calls[b]) ensures t.queueLock == s.queueLock {
      assert CallInv(s, b, s.calls[b]);
    }
    QuietStep(s, t, a);
  }

  lemma QuietMoveKeepsInv(s: Slot, t: Slot, a: CallId)
    requires Inv(s) && QuietMove(s, t, a)
    ensures Inv(t)
  {
    QuietAwaited(s, t, a);
    QuietKeepsInv(s, t, a);
  }

  lemma EnqueueAwaited(s: Slot, t: Slot, a: CallId)
    requires Awaited(s) && Quiet(s, t, a) && s.calls[a].pc.ParkEnqueue? && t.calls[a].pc == Parked(Waited)
    requires t.queueLock == None && t.parked == s.parked + {a}
    ensures Awaited(t)
  {
    HoldersUpdate(s.calls, a, t.calls[a]);
    assert WakeDue(s);
  }

  /** Enqueueing happens under the queue lock, so no unpark came since the word was marked. */
  lemma EnqueueKeepsInv(s: Slot, t: Slot, a: CallId)
    requires Inv(s) && Quiet(s, t, a) && CallInv(t, a, t.calls[a])
    requires s.calls[a].pc.ParkEnqueue? && t.calls[a].pc == Parked(Waited)
    requires s.queueLock == Some(a) && t.queueLock == None && t.parked == s.parked + {a}
    ensures Inv(t)
  {
    EnqueueAwaited(s, t, a);
    QuietKeepsInv(s, t, a);
  }

  /** Nobody is about to enqueue while the queue lock is free, so an unpark misses nobody. */
  lemma UnparkKeepsInv(s: Slot, t: Slot, a: CallId)
    requires Inv(s) && Quiet(s, t, a) && CallInv(t, a, t.calls[a])
    requires s.queueLock == t.queueLock == None && t.parked == {} && t.calls[a].pc.Done?
    ensures Inv(t)
  {
    NobodyEnqueueing(s);
    QuietKeepsInv(s, t, a);
  }

  // ----- steps that change the word, the value or the history

  predicate CallUpdated(s: Slot, t: Slot, a: CallId) {
    && a in s.calls && a in t.calls
    && t.calls == s.calls[a := t.calls[a]]
    && t.calls[a].op == s.calls[a].op
  }

  /** The call neither has a guard nor the slot. */
  predicate Bystander(c: Call) {
    !HoldsRead(c) && !HoldsWrite(c) && !Inserting(c) && !Evicting(c)
  }

  predicate HistoryGrows(s: Slot, t: Slot) {
    && (forall o: nat :: o in s.issued ==> o in t.issued && t.issued[o] == s.issued[o])
    && (forall o: nat :: o in s.removed ==> o in t.removed && t.removed[o] == s.removed[o])
  }

  lemma BystanderKept(s: Slot, t: Slot, b: CallId, c: Call)
    requires CallInv(s, b, c) && Bystander(c)
    requires HistoryGrows(s, t) && t.queueLock == s.queueLock
    ensures CallInv(t, b, c)
  {
  }

  lemma ReaderKept(s: Slot, t: Slot, b: CallId, c: Call)
    requires CallInv(s, b, c) && !HoldsWrite(c) && !Inserting(c) && !Evicting(c)
    requires t.word.ReadLocked? && t.word.id == s.word.id
    requires t.issued == s.issued && t.removed == s.removed && t.queueLock == s.queueLock
    ensures CallInv(t, b, c)
  {
  }

  /** All other calls are bystanders. */
  predicate Undisputed(s: Slot, a: CallId) {
    forall b :: b in s.calls && b != a ==> Bystander(s.calls[b])
  }

  /** The call that has the slot, or the write guard, has it alone. */
  lemma Alone(s: Slot, a: CallId)
    requires Counted(s) && Housed(s) && AllCalls(s) && a in s.calls
    requires Inserting(s.calls[a]) || Evicting(s.calls[a]) || HoldsWrite(s.calls[a])
    ensures Undisputed(s, a)
  {
    forall b | b in s.calls && b != a ensures Bystander(s.calls[b]) {
      AloneOne(s, a, b);
    }
  }

  lemma AloneOne(s: Slot, a: CallId, b: CallId)
    requires Counted(s) && Housed(s) && a in s.calls && b in s.calls && a != b
    requires CallInv(s, a, s.calls[a]) && CallInv(s, b, s.calls[b])
    requires Inserting(s.calls[a]) || Evicting(s.calls[a]) || HoldsWrite(s.calls[a])
    ensures Bystander(s.calls[b])
  {
    if HoldsWrite(s.calls[a]) && HoldsWrite(s.calls[b]) {
      OnlyWriter(s, a);
    }
  }

  lemma NoGuardWhenUnlocked(s: Slot, a: CallId)
    requires Housed(s) && AllCalls(s) && s.word.Unlocked?
    ensures Undisputed(s, a)
  {
    forall b | b in s.calls && b != a ensures Bystander(s.calls[b]) {
      assert CallInv(s, b, s.calls[b]);
    }
  }

  lemma BystandersKept(s: Slot, t: Slot, a: CallId)
    requires AllCalls(s) && CallUpdated(s, t, a) && Undisputed(s, a)
    requires HistoryGrows(s, t) && t.queueLock == s.queueLock
    requires CallInv(t, a, t.calls[a])
    ensures AllCalls(t)
  {
    forall b | b in t.calls ensures CallInv(t, b, t.calls[b]) {
      if b != a { BystanderKept(s, t, b, s.calls[b]); }
    }
  }

  lemma RecordedKept(s: Slot, t: Slot, a: CallId)
    requires Recorded(s) && CallUpdated(s, t, a) && !s.calls[a].pc.Done?
    requires RemovedIt(s.calls[a]) ==> RemovedIt(t.calls[a])
    requires t.word.id == s.word.id && t.word.Occupied() == s.word.Occupied()
    requires t.issued == s.issued && t.removed == s.removed
    ensures Recorded(t)
  {
  }

  /** The sleepers stay provided for when the word keeps its mark and nobody stops unparking. */
  lemma AwaitedKept(s: Slot, t: Slot, a: CallId)
    requires Awaited(s) && CallUpdated(s, t, a)
    requires !s.calls[a].pc.Parked? && !t.calls[a].pc.Parked? && !Unparking(s.calls[a])
    requires HasQueueLock(s.calls[a]) ==> HasQueueLock(t.calls[a])
    requires t.parked == s.parked && t.queueLock == s.queueLock
    requires s.word.Locked() && s.word.HasThreadBlocking() ==>
               (t.word.Locked() && t.word.HasThreadBlocking()) || Unparking(t.calls[a])
    requires t.calls[a].pc.ParkEnqueue? ==> t.word.Locked() && t.word.HasThreadBlocking()
    ensures Awaited(t)
  {
    HoldersUpdate(s.calls, a, t.calls[a]);
    assert WakeDue(s) ==> WakeDue(t);
  }

  /** Guards are counted again when word and roles of the moving call change alike. */
  lemma CountedAfter(s: Slot, t: Slot, a: CallId)
    requires Counted(s) && CallUpdated(s, t, a) && t.word.Valid()
    requires ReadCount(t.word) + One(HoldsRead(s.calls[a])) == ReadCount(s.word) + One(HoldsRead(t.calls[a]))
    requires WriteCount(t.word) + One(HoldsWrite(s.calls[a])) == WriteCount(s.word) + One(HoldsWrite(t.calls[a]))
    ensures Counted(t)
  {
    HoldersUpdate(s.calls, a, t.calls[a]);
    assert HoldsRead(s.calls[a]) <==> a in ReadHolders(s.calls);
    assert HoldsWrite(s.calls[a]) <==> a in WriteHolders(s.calls);
  }

  /** The parts of the invariant about home and value, and about the call that moved. */
  predicate Placed(s: Slot, t: Slot, a: CallId) {
    && CallUpdated(s, t, a)
    && Housed(t) && Stored(t)
    && CallInv(t, a, t.calls[a])
  }

  // One lemma a step: what the moving call sees, then what the others and the history keep.

  lemma WriteValueLocal(s: Slot, a: CallId)
    requires Moves(s, a) && Counted(s) && Housed(s) && s.calls[a].pc.InsertWrite?
    ensures Placed(s, WriteValue(s, a), a)
  {
  }

  lemma WriteValueKeepsInv(s: Slot, a: CallId)
    requires Inv(s) && a in s.calls && s.calls[a].pc.InsertWrite? && s.calls[a].op.Insert?
    ensures Inv(WriteValue(s, a))
  {
    hide Counted, Housed, Recorded, Stored, Awaited, AllCalls;
    var t := WriteValue(s, a);
    InvMoves(s, a);
    WriteValueLocal(s, a);
    CountedAfter(s, t, a);
    RecordedKept(s, t, a);
    AwaitedKept(s, t, a);
    Alone(s, a);
    BystandersKept(s, t, a);
  }

  lemma OccupyLocal(s: Slot, a: CallId)
    requires Moves(s, a) && Counted(s) && Housed(s) && s.calls[a].pc.InsertOccupy?
    ensures Placed(s, Occupy(s, a), a) && s.word.Unoccupied?
  {
  }

  lemma OccupyRecorded(s: Slot, a: CallId)
    requires Recorded(s) && a in s.calls && !s.calls[a].pc.Done? && s.calls[a].op.Insert? && s.word.Unoccupied?
    ensures Recorded(Occupy(s, a)) && HistoryGrows(s, Occupy(s, a))
  {
    var t := Occupy(s, a);
    assert t.word == Unlocked(s.word.id);
  }

  lemma OccupyKeepsInv(s: Slot, a: CallId)
    requires Inv(s) && a in s.calls && s.calls[a].pc.InsertOccupy? && s.calls[a].op.Insert?
    ensures Inv(Occupy(s, a))
  {
    hide Counted, Housed, Recorded, Stored, Awaited, AllCalls;
    var t := Occupy(s, a);
    InvMoves(s, a);
    OccupyLocal(s, a);
    CountedAfter(s, t, a);
    OccupyRecorded(s, a);
    AwaitedKept(s, t, a);
    Alone(s, a);
    BystandersKept(s, t, a);
  }

  lemma AddReaderLocal(s: Slot, a: CallId)
    requires Moves(s, a) && Counted(s) && Housed(s) && Stored(s) && s.calls[a].pc == ReadCas(s.word)
    ensures Placed(s, AddReader(s, a), a)
    ensures AddReader(s, a).word.ReadLocked? && AddReader(s, a).word.id == s.word.id && s.home.Live?
    ensures AddReader(s, a).word.HasThreadBlocking() == s.word.HasThreadBlocking() && !s.word.WriteLocked?
  {
  }

  lemma AddReaderKeepsInv(s: Slot, a: CallId)
    requires Inv(s) && a in s.calls && s.calls[a].pc == ReadCas(s.word)
    ensures Inv(AddReader(s, a))
  {
    hide Counted, Housed, Recorded, Stored, Awaited, AllCalls;
    var t := AddReader(s, a);
    InvMoves(s, a);
    AddReaderLocal(s, a);
    CountedAfter(s, t, a);
    RecordedKept(s, t, a);
    AwaitedKept(s, t, a);
    ReadersKept(s, t, a);
  }

  lemma ReadersKept(s: Slot, t: Slot, a: CallId)
    requires AllCalls(s) && CallUpdated(s, t, a) && CallInv(t, a, t.calls[a])
    requires t.word.ReadLocked? && t.word.id == s.word.id && s.home.Live? && !s.word.WriteLocked?
    requires t.issued == s.issued && t.removed == s.removed && t.queueLock == s.queueLock
    ensures AllCalls(t)
  {
    forall b | b in t.calls ensures CallInv(t, b, t.calls[b]) {
      if b != a { assert CallInv(s, b, s.calls[b]); ReaderKept(s, t, b, s.calls[b]); }
    }
  }

  lemma DropReaderLocal(s: Slot, a: CallId)
    requires Moves(s, a) && Counted(s) && Housed(s) && Stored(s) && s.calls[a].pc == ReadUnlockCas(s.word)
    ensures var t := DropReader(s, a);
      && Placed(s, t, a)
      && s.word.ReadLocked? && t.word.id == s.word.id && t.word.Occupied() && s.home.Live?
      && t.word == (if s.word.readers == 1 then Unlocked(s.word.id)
                    else s.word.(readers := s.word.readers - 1))
      && (s.word.HasThreadBlocking() ==> (t.word.Locked() && t.word.HasThreadBlocking()) || Unparking(t.calls[a]))
  {
  }

  lemma DropReaderKeepsInv(s: Slot, a: CallId)
    requires Inv(s) && a in s.calls && s.calls[a].pc == ReadUnlockCas(s.word)
    ensures Inv(DropReader(s, a))
  {
    hide Counted, Housed, Recorded, Stored, Awaited, AllCalls;
    var t := DropReader(s, a);
    InvMoves(s, a);
    DropReaderLocal(s, a);
    CountedAfter(s, t, a);
    RecordedKept(s, t, a);
    AwaitedKept(s, t, a);
    if s.word.readers == 1 {
      LastReader(s, a);
      BystandersKept(s, t, a);
    } else {
      ReadersKept(s, t, a);
    }
  }

  /** A call that holds the only counted read guard has the slot alone. */
  lemma LastReader(s: Slot, a: CallId)
    requires Counted(s) && AllCalls(s) && s.home.Live? && a in s.calls && HoldsRead(s.calls[a])
    requires s.word.ReadLocked? && s.word.readers == 1
    ensures Undisputed(s, a)
  {
    var r := ReadHolders(s.calls);
    assert a in r && |r - {a}| == 0;
    assert r == {a};
    forall b | b in s.calls && b != a ensures Bystander(s.calls[b]) {
      assert CallInv(s, b, s.calls[b]);
      assert b !in r;
    }
  }

  lemma LockWriteLocal(s: Slot, a: CallId, won: Pc)
    requires Moves(s, a) && Counted(s) && Housed(s) && Stored(s)
    requires s.calls[a].op.Write? && s.word == Unlocked(s.calls[a].op.ord)
    requires (s.calls[a].pc.TransitionCas? && won == WriteHeld) || (s.calls[a].pc.ParkCheck? && won == ParkLeaveWon)
    ensures Placed(s, Transitioned(s, a, won), a)
  {
  }

  lemma LockWriteKeepsInv(s: Slot, a: CallId, won: Pc)
    requires Inv(s) && a in s.calls && s.calls[a].op.Write? && s.word == Unlocked(s.calls[a].op.ord)
    requires (s.calls[a].pc.TransitionCas? && won == WriteHeld) || (s.calls[a].pc.ParkCheck? && won == ParkLeaveWon)
    ensures Inv(Transitioned(s, a, won))
  {
    hide Counted, Housed, Recorded, Stored, Awaited, AllCalls;
    var t := Transitioned(s, a, won);
    InvMoves(s, a);
    LockWriteLocal(s, a, won);
    CountedAfter(s, t, a);
    RecordedKept(s, t, a);
    AwaitedKept(s, t, a);
    NoGuardWhenUnlocked(s, a);
    BystandersKept(s, t, a);
  }

  /** History after the ID `ord` of a live slot was removed by `a`. */
  predicate RemovalRecorded(s: Slot, t: Slot, a: CallId, ord: nat) {
    && s.word.id == ord && s.word.Occupied()
    && t.word == Unoccupied(ord + 1)
    && t.issued == s.issued && t.removed == s.removed[ord := a]
  }

  lemma RemoveRecorded(s: Slot, t: Slot, a: CallId)
    requires Recorded(s) && CallUpdated(s, t, a) && !s.calls[a].pc.Done? && !s.calls[a].op.Insert?
    requires RemovalRecorded(s, t, a, s.calls[a].op.ord) && RemovedIt(t.calls[a])
    ensures Recorded(t) && HistoryGrows(s, t)
  {
  }

  lemma RemoveLocal(s: Slot, a: CallId, won: Pc)
    requires Moves(s, a) && Counted(s) && Housed(s) && Stored(s)
    requires s.calls[a].op.Remove? && s.word == Unlocked(s.calls[a].op.ord)
    requires (s.calls[a].pc.TransitionCas? && won == RemoveTake) || (s.calls[a].pc.ParkCheck? && won == ParkLeaveWon)
    ensures Placed(s, Transitioned(s, a, won), a) && Transitioned(s, a, won).word.Valid()
  {
  }

  lemma RemoveKeepsInv(s: Slot, a: CallId, won: Pc)
    requires Inv(s) && a in s.calls && s.calls[a].op.Remove? && s.word == Unlocked(s.calls[a].op.ord)
    requires (s.calls[a].pc.TransitionCas? && won == RemoveTake) || (s.calls[a].pc.ParkCheck? && won == ParkLeaveWon)
    ensures Inv(Transitioned(s, a, won))
  {
    hide Counted, Housed, Recorded, Stored, Awaited, AllCalls;
    var t := Transitioned(s, a, won);
    InvMoves(s, a);
    RemoveLocal(s, a, won);
    CountedAfter(s, t, a);
    RemoveRecorded(s, t, a);
    AwaitedKept(s, t, a);
    NoGuardWhenUnlocked(s, a);
    BystandersKept(s, t, a);
  }

  lemma DropWriterLocal(s: Slot, a: CallId)
    requires Moves(s, a) && Counted(s) && Housed(s) && Stored(s) && s.calls[a].pc.WriteHeld?
    ensures Placed(s, DropWriter(s, a), a)
  {
    OnlyWriter(s, a);
  }

  lemma DropWriterKeepsInv(s: Slot, a: CallId)
    requires Inv(s) && a in s.calls && s.calls[a].pc.WriteHeld? && s.calls[a].op.Write?
    ensures Inv(DropWriter(s, a))
  {
    hide Counted, Housed, Recorded, Stored, Awaited, AllCalls;
    var t := DropWriter(s, a);
    InvMoves(s, a);
    DropWriterLocal(s, a);
    CountedAfter(s, t, a);
    RecordedKept(s, t, a);
    AwaitedKept(s, t, a);
    Alone(s, a);
    BystandersKept(s, t, a);
  }

  lemma AssignLocal(s: Slot, a: CallId, v: int)
    requires Moves(s, a) && Counted(s) && Housed(s) && Stored(s) && s.calls[a].pc.WriteHeld? && s.cell.Init?
    ensures Placed(s, s.(cell := Init(s.cell.element.(payload := v))), a)
  {
    assert s.calls == s.calls[a := s.calls[a]];
    OnlyWriter(s, a);
  }

  lemma AssignKeepsInv(s: Slot, a: CallId, v: int)
    requires Inv(s) && a in s.calls && s.calls[a].pc.WriteHeld? && s.cell.Init?
    ensures Inv(s.(cell := Init(s.cell.element.(payload := v))))
  {
    hide Counted, Housed, Recorded, Stored, Awaited, AllCalls;
    var t := s.(cell := Init(s.cell.element.(payload := v)));
    InvMoves(s, a);
    AssignLocal(s, a, v);
    CountedAfter(s, t, a);
    RecordedKept(s, t, a);
    AwaitedKept(s, t, a);
    Alone(s, a);
    BystandersKept(s, t, a);
  }

  lemma TakeOutLocal(s: Slot, a: CallId)
    requires Moves(s, a) && Counted(s) && Housed(s) && Stored(s) && s.calls[a].pc.WriteHeld? && s.cell.Init?
    ensures Placed(s, TakeOut(s, a), a)
  {
    OnlyWriter(s, a);
  }

  lemma TakeOutKeepsInv(s: Slot, a: CallId)
    requires Inv(s) && a in s.calls && s.calls[a].pc.WriteHeld? && s.cell.Init?
    ensures Inv(TakeOut(s, a))
  {
    hide Counted, Housed, Recorded, Stored, Awaited, AllCalls;
    var t := TakeOut(s, a);
    InvMoves(s, a);
    TakeOutLocal(s, a);
    CountedAfter(s, t, a);
    RecordedKept(s, t, a);
    AwaitedKept(s, t, a);
    Alone(s, a);
    BystandersKept(s, t, a);
  }

  lemma SwapOutLocal(s: Slot, a: CallId, e: Element)
    requires Moves(s, a) && Counted(s) && Housed(s) && Stored(s) && s.calls[a].pc == RemoveLockedSwap(e)
    ensures Placed(s, SwapOut(s, a, e), a)
  {
    SwapOutCall(s, a, e);
    hide CallInv;
    assert s.home.Live?;
  }

  lemma SwapOutCall(s: Slot, a: CallId, e: Element)
    requires Moves(s, a) && Stored(s) && s.word.Occupied() && s.calls[a].pc == RemoveLockedSwap(e)
    ensures a in SwapOut(s, a, e).calls && CallInv(SwapOut(s, a, e), a, SwapOut(s, a, e).calls[a])
  {
    assert s.cell == Moved(e) && s.word.id in s.issued;
  }

  lemma SwapOutChanges(s: Slot, a: CallId, e: Element)
    requires Moves(s, a) && Counted(s) && Housed(s) && s.calls[a].pc == RemoveLockedSwap(e)
    ensures var t := SwapOut(s, a, e);
      && t.word.Valid()
      && RemovalRecorded(s, t, a, s.calls[a].op.ord) && RemovedIt(t.calls[a]) && !Unparking(s.calls[a])
      && t.parked == s.parked && t.queueLock == s.queueLock && !t.calls[a].pc.ParkEnqueue? && !t.calls[a].pc.Parked?
      && (s.word.HasThreadBlocking() ==> Unparking(t.calls[a]))
  {
  }

  lemma SwapOutKeepsInv(s: Slot, a: CallId, e: Element)
    requires Inv(s) && a in s.calls && s.calls[a].pc == RemoveLockedSwap(e) && s.calls[a].op.Write?
    ensures Inv(SwapOut(s, a, e))
  {
    hide Counted, Housed, Recorded, Stored, Awaited, AllCalls;
    var t := SwapOut(s, a, e);
    InvMoves(s, a);
    SwapOutLocal(s, a, e);
    SwapOutChanges(s, a, e);
    CountedAfter(s, t, a);
    RemoveRecorded(s, t, a);
    AwaitedKept(s, t, a);
    Alone(s, a);
    BystandersKept(s, t, a);
  }

  // Taking the value, unparking and queueing the slot after a removal.

  lemma TakeLocal(s: Slot, a: CallId)
    requires Moves(s, a) && Counted(s) && Housed(s) && s.calls[a].pc.RemoveTake? && s.cell.Init?
    ensures var t := AfterRemoval(s.(cell := Moved(s.cell.element)), a, s.cell.element);
      && Placed(s, t, a) && RemovedIt(t.calls[a])
      && t.word == s.word && t.issued == s.issued && t.removed == s.removed
      && t.parked == s.parked && t.queueLock == s.queueLock
      && !t.calls[a].pc.ParkEnqueue? && !t.calls[a].pc.Parked? && !HoldsRead(t.calls[a]) && !HoldsWrite(t.calls[a])
  {
  }

  lemma TakeKeepsInv(s: Slot, a: CallId)
    requires Inv(s) && a in s.calls && s.calls[a].pc.RemoveTake? && s.calls[a].op.Remove? && s.cell.Init?
    ensures Inv(AfterRemoval(s.(cell := Moved(s.cell.element)), a, s.cell.element))
  {
    hide Counted, Housed, Recorded, Stored, Awaited, AllCalls;
    var t := AfterRemoval(s.(cell := Moved(s.cell.element)), a, s.cell.element);
    InvMoves(s, a);
    TakeLocal(s, a);
    CountedAfter(s, t, a);
    RecordedKept(s, t, a);
    AwaitedKept(s, t, a);
    Alone(s, a);
    BystandersKept(s, t, a);
  }

  function Enqueued(s: Slot, a: CallId, e: Element): Slot
    requires a in s.calls
  {
    SetPc(s, a, Done(Removed(e))).(home := Queued)
  }

  lemma PushLocal(s: Slot, a: CallId, e: Element)
    requires Moves(s, a) && Counted(s) && Housed(s) && s.calls[a].pc == PushErasure(e)
    ensures Placed(s, Enqueued(s, a, e), a)
  {
  }

  lemma PushKeepsInv(s: Slot, a: CallId, e: Element)
    requires Inv(s) && a in s.calls && s.calls[a].pc == PushErasure(e)
    ensures Inv(Enqueued(s, a, e))
  {
    hide Counted, Housed, Recorded, Stored, Awaited, AllCalls;
    var t := Enqueued(s, a, e);
    InvMoves(s, a);
    PushLocal(s, a, e);
    CountedAfter(s, t, a);
    RecordedKept(s, t, a);
    AwaitedKept(s, t, a);
    Alone(s, a);
    BystandersKept(s, t, a);
  }

  lemma UnparkRemovedLocal(s: Slot, a: CallId, e: Element)
    requires Moves(s, a) && Counted(s) && Housed(s) && s.calls[a].pc == UnparkRemoved(e) && s.calls[a].op.Write?
    ensures var t := AfterRemoval(s.(parked := {}), a, e);
      && Placed(s, t, a) && RemovedIt(t.calls[a])
      && t.word == s.word && t.issued == s.issued && t.removed == s.removed
      && t.parked == {} && t.queueLock == s.queueLock
      && !t.calls[a].pc.ParkEnqueue? && !HoldsRead(t.calls[a]) && !HoldsWrite(t.calls[a])
  {
  }

  /** Nobody is about to enqueue while the queue lock is free, so the unpark misses nobody. */
  lemma UnparkedAwaited(s: Slot, t: Slot, a: CallId)
    requires s.queueLock.None? && AllCalls(s) && CallUpdated(s, t, a)
    requires t.parked == {} && t.queueLock.None? && !t.calls[a].pc.ParkEnqueue?
    ensures Awaited(t)
  {
    NobodyEnqueueing(s);
  }

  lemma UnparkRemovedKeepsInv(s: Slot, a: CallId, e: Element)
    requires Inv(s) && a in s.calls && s.calls[a].pc == UnparkRemoved(e) && s.calls[a].op.Write?
    requires s.queueLock.None?
    ensures Inv(AfterRemoval(s.(parked := {}), a, e))
  {
    hide Counted, Housed, Recorded, Stored, Awaited, AllCalls;
    var t := AfterRemoval(s.(parked := {}), a, e);
    InvMoves(s, a);
    UnparkRemovedLocal(s, a, e);
    CountedAfter(s, t, a);
    RecordedKept(s, t, a);
    UnparkedAwaited(s, t, a);
    Alone(s, a);
    BystandersKept(s, t, a);
  }

  // Marking the word.

  function MarkedWord(s: Slot, a: CallId): Slot
    requires a in s.calls
  {
    SetPc(s, a, ParkEnqueue(Waited)).(word := s.word.MarkThreadBlocking())
  }

  lemma MarkLocal(s: Slot, a: CallId)
    requires Moves(s, a) && Counted(s) && Housed(s) && Stored(s) && s.calls[a].pc == ParkMark(s.word)
    ensures var t := MarkedWord(s, a);
      && Placed(s, t, a)
      && t.word.id == s.word.id && t.word.Locked() && t.word.HasThreadBlocking()
      && ReadCount(t.word) == ReadCount(s.word) && WriteCount(t.word) == WriteCount(s.word)
      && t.word.ReadLocked? == s.word.ReadLocked? && t.word.WriteLocked? == s.word.WriteLocked?
  {
    HoldersUpdate(s.calls, a, MarkedWord(s, a).calls[a]);
  }

  lemma MarkOther(s: Slot, t: Slot, b: CallId, c: Call)
    requires CallInv(s, b, c)
    requires t.word.id == s.word.id
    requires t.word.ReadLocked? == s.word.ReadLocked? && t.word.WriteLocked? == s.word.WriteLocked?
    requires t.cell == s.cell && t.home == s.home && t.issued == s.issued && t.removed == s.removed
    requires t.queueLock == s.queueLock
    ensures CallInv(t, b, c)
  {
  }

  lemma MarkKeepsInv(s: Slot, a: CallId)
    requires Inv(s) && a in s.calls && s.calls[a].pc == ParkMark(s.word)
    ensures Inv(MarkedWord(s, a))
  {
    hide Counted, Housed, Recorded, Stored, Awaited;
    var t := MarkedWord(s, a);
    InvMoves(s, a);
    MarkLocal(s, a);
    CountedAfter(s, t, a);
    RecordedKept(s, t, a);
    AwaitedKept(s, t, a);
    forall b | b in t.calls ensures CallInv(t, b, t.calls[b]) {
      if b != a { MarkOther(s, t, b, s.calls[b]); }
    }
  }

  // Calls coming in.

  lemma BeginHolders(s: Slot, a: CallId, c: Call)
    requires a !in s.calls && Bystander(c) && !Unparking(c)
    ensures ReadHolders(s.calls[a := c]) == ReadHolders(s.calls)
    ensures WriteHolders(s.calls[a := c]) == WriteHolders(s.calls)
    ensures Unparkers(s.calls[a := c]) == Unparkers(s.calls)
  {
    HoldersUpdate(s.calls, a, c);
  }

  lemma BeginLocal(s: Slot, a: CallId, c: Call)
    requires a !in s.calls && Counted(s) && Housed(s) && Stored(s)
    requires Bystander(c) && !Unparking(c)
    ensures var t := s.(calls := s.calls[a := c]); Counted(t) && Housed(t) && Stored(t)
  {
    BeginHolders(s, a, c);
  }

  lemma BeginAwaited(s: Slot, a: CallId, c: Call)
    requires a !in s.calls && Awaited(s)
    requires Bystander(c) && !Unparking(c) && !c.pc.ParkEnqueue?
    ensures Awaited(s.(calls := s.calls[a := c]))
  {
    BeginHolders(s, a, c);
    assert WakeDue(s) ==> WakeDue(s.(calls := s.calls[a := c]));
  }

  lemma BeginKeepsInv(s: Slot, a: CallId, c: Call)
    requires Inv(s) && a !in s.calls
    requires c.pc.ReadLoad? || c.pc.TransitionCas?
    requires Shape(c) && c.op.ord in s.issued
    ensures Inv(s.(calls := s.calls[a := c]))
  {
    hide Counted, Housed, Recorded, Stored, Awaited, AllCalls;
    BeginLocal(s, a, c);
    BeginAwaited(s, a, c);
    BeginRecorded(s, s.(calls := s.calls[a := c]), a);
    BeginCalls(s, a, c);
  }

  lemma BeginCalls(s: Slot, a: CallId, c: Call)
    requires AllCalls(s) && a !in s.calls
    requires c.pc.ReadLoad? || c.pc.TransitionCas?
    requires Shape(c) && c.op.ord in s.issued
    ensures AllCalls(s.(calls := s.calls[a := c]))
  {
    var t := s.(calls := s.calls[a := c]);
    forall b | b in t.calls ensures CallInv(t, b, t.calls[b]) {
      if b != a { MarkOther(s, t, b, s.calls[b]); }
    }
  }

  lemma BeginRecorded(s: Slot, t: Slot, a: CallId)
    requires Recorded(s) && a !in s.calls && a in t.calls && t.calls == s.calls[a := t.calls[a]]
    requires t.word == s.word && t.issued == s.issued && t.removed == s.removed
    ensures Recorded(t)
  {
  }

  lemma BeginInsertKeepsInv(s: Slot, a: CallId, e: Element)
    requires Inv(s) && Enabled(s, a, BeginInsert(e))
    ensures Inv(Next(s, a, BeginInsert(e)))
  {
    hide Counted, Housed, Recorded, Stored, Awaited, AllCalls;
    var c := Call(Insert(e), DontBlock, InsertWrite);
    var t := s.(home := Held(a), calls := s.calls[a := c]);
    BeginInsertLocal(s, a, c);
    BeginRecorded(s, t, a);
    BeginInsertCalls(s, t, a, e);
  }

  lemma BeginInsertCalls(s: Slot, t: Slot, a: CallId, e: Element)
    requires Counted(s) && Housed(s) && AllCalls(s) && Enabled(s, a, BeginInsert(e))
    requires t == Next(s, a, BeginInsert(e))
    ensures AllCalls(t)
  {
    forall b | b in t.calls ensures CallInv(t, b, t.calls[b]) {
      if b != a {
        assert CallInv(s, b, s.calls[b]);
        BystanderKept(s, t, b, s.calls[b]);
      }
    }
  }

  lemma BeginInsertLocal(s: Slot, a: CallId, c: Call)
    requires a !in s.calls && Counted(s) && Housed(s) && Stored(s) && Awaited(s)
    requires c.pc.InsertWrite? && (s.home.Fresh? || s.home.Queued?)
    ensures var t := s.(home := Held(a), calls := s.calls[a := c]);
      Counted(t) && Housed(t) && Stored(t) && Awaited(t)
  {
    var t := s.(home := Held(a), calls := s.calls[a := c]);
    HoldersUpdate(s.calls, a, c);
    assert ReadHolders(t.calls) == ReadHolders(s.calls);
    assert WriteHolders(t.calls) == WriteHolders(s.calls);
    assert Unparkers(t.calls) == Unparkers(s.calls);
  }

  // ----- all steps

  lemma GoKeepsInv(s: Slot, a: CallId)
    requires Inv(s) && Enabled(s, a, Go)
    ensures Inv(Proceed(s, a))
  {
    var c := s.calls[a];
    if c.pc.ParkLock? || c.pc.Parked? || HasQueueLock(c) {
      ParkStepKeepsInv(s, a);
    } else if c.pc.RemoveTake? || c.pc.RemoveLockedSwap? || c.pc.PushErasure? || Unparking(c) {
      RemovalStepKeepsInv(s, a);
    } else {
      LockStepKeepsInv(s, a);
    }
  }

  lemma LockStepKeepsInv(s: Slot, a: CallId)
    requires Inv(s) && Enabled(s, a, Go)
    requires
      var pc := s.calls[a].pc;
      || pc.InsertWrite? || pc.InsertOccupy? || pc.ReadLoad? || pc.ReadCas? || pc.ReadHeld? || pc.ReadUnlockCas?
      || pc.TransitionCas? || pc.WriteHeld?
    ensures Inv(Proceed(s, a))
  {
    hide Inv;
    var c := s.calls[a];
    if c.pc.InsertWrite? {
      WriteValueKeepsInv(s, a);
    } else if c.pc.InsertOccupy? {
      OccupyKeepsInv(s, a);
    } else if c.pc.ReadLoad? || c.pc.ReadHeld? {
      ReadStepKeepsInv(s, a);
    } else if c.pc.WriteHeld? {
      DropWriterKeepsInv(s, a);
    } else if c.pc == ReadCas(s.word) {
      AddReaderKeepsInv(s, a);
    } else if c.pc == ReadUnlockCas(s.word) {
      DropReaderKeepsInv(s, a);
    } else if c.pc.TransitionCas? && s.word == Expected(c.op) {
      TransitionKeepsInv(s, a, WonPc(c.op));
    } else {
      RetryKeepsInv(s, a);
    }
  }

  lemma ReadStepKeepsInv(s: Slot, a: CallId)
    requires Inv(s) && Enabled(s, a, Go) && (s.calls[a].pc.ReadLoad? || s.calls[a].pc.ReadHeld?)
    ensures Inv(Proceed(s, a))
  {
    InvMoves(s, a);
    QuietRead(s, a);
    QuietMoveKeepsInv(s, Proceed(s, a), a);
  }

  lemma RemovalStepKeepsInv(s: Slot, a: CallId)
    requires Inv(s) && Enabled(s, a, Go)
    requires
      var c := s.calls[a];
      c.pc.RemoveTake? || c.pc.RemoveLockedSwap? || c.pc.PushErasure? || Unparking(c)
    ensures Inv(Proceed(s, a))
  {
    hide Inv;
    InvMoves(s, a);
    var pc := s.calls[a].pc;
    if pc.RemoveTake? {
      TakeKeepsInv(s, a);
    } else if pc.RemoveLockedSwap? {
      SwapOutKeepsInv(s, a, pc.element);
    } else if pc.PushErasure? {
      PushKeepsInv(s, a, pc.element);
    } else if pc.UnparkReleased? {
      QuietUnpark(s, a);
      UnparkKeepsInv(s, Proceed(s, a), a);
    } else {
      UnparkRemovedKeepsInv(s, a, pc.element);
    }
  }

  lemma RetryKeepsInv(s: Slot, a: CallId)
    requires Inv(s) && Enabled(s, a, Spurious)
    ensures Inv(Retry(s, a))
  {
    InvMoves(s, a);
    QuietRetry(s, a);
    QuietMoveKeepsInv(s, Retry(s, a), a);
  }

  lemma TransitionKeepsInv(s: Slot, a: CallId, won: Pc)
    requires Inv(s) && a in s.calls && (s.calls[a].op.Write? || s.calls[a].op.Remove?)
    requires s.word == Expected(s.calls[a].op)
    requires
      var c := s.calls[a];
      (c.pc.TransitionCas? && won == WonPc(c.op)) || (c.pc.ParkCheck? && won == ParkLeaveWon)
    ensures Inv(Transitioned(s, a, won))
  {
    if s.calls[a].op.Write? { LockWriteKeepsInv(s, a, won); } else { RemoveKeepsInv(s, a, won); }
  }

  lemma ParkStepKeepsInv(s: Slot, a: CallId)
    requires Inv(s) && Enabled(s, a, Go)
    requires s.calls[a].pc.ParkLock? || s.calls[a].pc.Parked? || HasQueueLock(s.calls[a])
    ensures Inv(Proceed(s, a))
  {
    hide Inv;
    var c := s.calls[a];
    var t := Proceed(s, a);
    InvMoves(s, a);
    if c.pc.ParkMark? && c.pc.cur == s.word {
      MarkKeepsInv(s, a);
    } else if c.pc.ParkLock? || c.pc.Parked? || c.pc.ParkMark? {
      QuietPark(s, a);
      QuietMoveKeepsInv(s, t, a);
    } else if c.pc.ParkCheck? {
      if c.op.Read? || s.word != Expected(c.op) {
        QuietCheck(s, a);
        QuietMoveKeepsInv(s, t, a);
      } else {
        TransitionKeepsInv(s, a, ParkLeaveWon);
      }
    } else if c.pc.ParkEnqueue? {
      QuietEnqueue(s, a);
      EnqueueKeepsInv(s, t, a);
    } else {
      QuietLeave(s, a);
      QuietMoveKeepsInv(s, t, a);
    }
  }

  /** Every step of every call keeps the invariant. */
  lemma StepKeepsInv(s: Slot, a: CallId, m: Move)
    requires Inv(s) && Enabled(s, a, m)
    ensures Inv(Next(s, a, m))
  {
    hide Inv;
    match m
    case BeginInsert(e) => BeginInsertKeepsInv(s, a, e);
    case Begin(op, timeout) => BeginKeepsInv(s, a, Next(s, a, m).calls[a]);
    case Go => GoKeepsInv(s, a);
    case Spurious => RetryKeepsInv(s, a);
    case Expire =>
      InvMoves(s, a);
      QuietExpire(s, a);
      QuietMoveKeepsInv(s, Next(s, a, m), a);
    case Deref =>
    case Mutate(v) => WriterSeesValue(s, a); AssignKeepsInv(s, a, v);
    case TakeLocked => WriterSeesValue(s, a); TakeOutKeepsInv(s, a);
  }

  /** A write guard whose value was not yet read out looks at an initialised value. */
  lemma WriterSeesValue(s: Slot, a: CallId)
    requires Inv(s) && a in s.calls && s.calls[a].pc.WriteHeld?
    ensures s.cell.Init?
  {
    InvMoves(s, a);
    OnlyWriter(s, a);
    assert a in WriteHolders(s.calls);
  }
}
