/**
 Linearization points: what a call has committed to, and what justifies the outcomes
 that commit to nothing.
 */
module Outcomes {
  import opened HeaderWord
  import opened SlotProtocol
  import opened SlotInvariant
  import opened SlotFacts
  import opened Spec
  import opened Linearization

  // ----- outcomes without effect

  /** The call has evidence for an outcome that changes nothing. */
  predicate Supports(c: Call, o: Outcome) {
    match o
    case NotFound => c.pc == Done(NotFound) || c.pc.ParkLeaveMiss?
    case TimedOut => c.pc == Done(TimedOut) || c.pc.ParkMark? || c.pc.ParkEnqueue? || c.pc.Parked?
    case _ => false
  }

  /** The specification state in which evidence first appears justifies the outcome. */
  lemma SupportIsJustified(s: Slot, a: CallId, m: Move, o: Outcome)
    requires Inv(s) && Enabled(s, a, m) && a in Next(s, a, m).calls
    requires Supports(Next(s, a, m).calls[a], o) && (a in s.calls ==> !Supports(s.calls[a], o))
    ensures a in s.calls && !s.calls[a].op.Insert?
    ensures Justifies(SpecOf(s), s.calls[a].op, s.calls[a].op.ord, o)
  {
    if a in s.calls {
      InvMoves(s, a);
      if !s.calls[a].op.Insert? { NotStoredIsGone(s, s.calls[a].op.ord); }
      SupportIsJustifiedLocally(s, a, m, o);
    }
  }

  lemma NotStoredIsGone(s: Slot, ord: nat)
    requires Inv(s) && ord in s.issued
    ensures ord != s.word.id ==> ord in s.removed
  {
  }

  /** Evidence comes from reading the word: at first, after a failed compare-exchange, or under the queue lock. */
  predicate ReadsWord(s: Slot, a: CallId, m: Move)
    requires Enabled(s, a, m) && a in s.calls
  {
    var pc := s.calls[a].pc;
    m.Spurious? || (m.Go? && (pc.ReadLoad? || pc.ReadCas? || pc.ReadUnlockCas? || pc.TransitionCas? || pc.ParkCheck?))
  }

  lemma NoSupportElsewhere(s: Slot, a: CallId, m: Move, o: Outcome)
    requires a in s.calls && Enabled(s, a, m) && !ReadsWord(s, a, m)
    requires Supports(Next(s, a, m).calls[a], o)
    ensures Supports(s.calls[a], o)
  {
    if m.Go? {
      var c := s.calls[a];
      if HasQueueLock(c) || c.pc.Parked? || c.pc.ParkLock? {
        NoSupportParking(s, a, o);
      } else {
        NoSupportGoing(s, a, o);
      }
    }
  }

  lemma NoSupportParking(s: Slot, a: CallId, o: Outcome)
    requires a in s.calls && Enabled(s, a, Go) && !s.calls[a].pc.ParkCheck?
    requires HasQueueLock(s.calls[a]) || s.calls[a].pc.Parked? || s.calls[a].pc.ParkLock?
    requires Supports(Proceed(s, a).calls[a], o)
    ensures Supports(s.calls[a], o)
  {
    if s.calls[a].pc.ParkLeaveRead? || s.calls[a].pc.ParkLeaveWon? || s.calls[a].pc.ParkLeaveMiss? {
      NoSupportLeaving(s, a, o);
    }
  }

  lemma NoSupportLeaving(s: Slot, a: CallId, o: Outcome)
    requires a in s.calls && Enabled(s, a, Go)
    requires s.calls[a].pc.ParkLeaveRead? || s.calls[a].pc.ParkLeaveWon? || s.calls[a].pc.ParkLeaveMiss?
    requires Supports(Proceed(s, a).calls[a], o)
    ensures Supports(s.calls[a], o)
  {
  }

  lemma NoSupportGoing(s: Slot, a: CallId, o: Outcome)
    requires a in s.calls && Enabled(s, a, Go) && !ReadsWord(s, a, Go)
    requires !HasQueueLock(s.calls[a]) && !s.calls[a].pc.Parked? && !s.calls[a].pc.ParkLock?
    ensures !Supports(Proceed(s, a).calls[a], o)
  {
  }

  /** What an unhelpful word says: the ID is another one, or the header is locked in the way. */
  predicate Refutes(s: Slot, c: Call, o: Outcome)
    requires !c.op.Insert?
  {
    if o.NotFound? then s.word.id != c.op.ord
    else o.TimedOut? && s.word.id == c.op.ord && if c.op.Read? then s.word.WriteLocked? else s.word.Locked()
  }

  lemma SupportFromRetry(s: Slot, a: CallId, o: Outcome)
    requires Settled(s, a) && Enabled(s, a, Spurious)
    requires Supports(Retry(s, a).calls[a], o)
    ensures !s.calls[a].op.Insert? && Refutes(s, s.calls[a], o)
  {
  }

  lemma SupportFromRead(s: Slot, a: CallId, o: Outcome)
    requires Settled(s, a) && Enabled(s, a, Go)
    requires s.calls[a].pc.ReadLoad? || s.calls[a].pc.ParkCheck?
    requires Supports(Proceed(s, a).calls[a], o)
    ensures !s.calls[a].op.Insert? && Refutes(s, s.calls[a], o)
  {
  }

  lemma RefutedIsJustified(s: Slot, c: Call, o: Outcome)
    requires Counted(s) && Housed(s) && Stored(s) && !c.op.Insert? && Refutes(s, c, o)
    requires c.op.ord != s.word.id ==> c.op.ord in s.removed
    ensures Justifies(SpecOf(s), c.op, c.op.ord, o)
  {
    GuardsOfLocked(s);
  }

  lemma SupportIsJustifiedLocally(s: Slot, a: CallId, m: Move, o: Outcome)
    requires Settled(s, a) && Enabled(s, a, m)
    requires !s.calls[a].op.Insert? && s.calls[a].op.ord != s.word.id ==> s.calls[a].op.ord in s.removed
    requires Supports(Next(s, a, m).calls[a], o) && !Supports(s.calls[a], o)
    ensures !s.calls[a].op.Insert?
    ensures Justifies(SpecOf(s), s.calls[a].op, s.calls[a].op.ord, o)
  {
    if !ReadsWord(s, a, m) {
      NoSupportElsewhere(s, a, m, o);
    } else {
      if m.Go? && (s.calls[a].pc.ReadLoad? || s.calls[a].pc.ParkCheck?) {
        SupportFromRead(s, a, o);
      } else {
        SupportFromRetry(s, a, o);
      }
      RefutedIsJustified(s, s.calls[a], o);
    }
  }

  lemma GuardsOfLocked(s: Slot)
    requires Counted(s)
    ensures s.word.WriteLocked? ==> WriteHolders(s.calls) != {}
    ensures s.word.ReadLocked? ==> ReadHolders(s.calls) != {}
  {
  }

  // ----- a read that panics, and a wait that is given up

  /** The call has seen as many readers as there may be, and will not add one. */
  predicate SeesCrowd(c: Call) {
    c.pc.Panicked? || (c.pc.ParkLeaveRead? && c.pc.cur.Readers() == MAX_CONCURRENT_READS)
  }

  /** A call sees the crowd in the word, while the element has that many readers. */
  lemma CrowdIsSeen(s: Slot, a: CallId, m: Move)
    requires Inv(s) && Enabled(s, a, m) && a in Next(s, a, m).calls && SeesCrowd(Next(s, a, m).calls[a])
    requires a in s.calls ==> !SeesCrowd(s.calls[a])
    ensures a in s.calls && s.calls[a].op.Read? && Busy(s.calls[a])
    ensures Crowded(SpecOf(s), s.calls[a].op.ord)
  {
    if a in s.calls {
      InvMoves(s, a);
      CrowdIsSeenLocally(s, a, m);
      CrowdInWord(s, s.calls[a].op.ord);
    }
  }

  lemma CrowdIsSeenLocally(s: Slot, a: CallId, m: Move)
    requires Moves(s, a) && Enabled(s, a, m)
    requires SeesCrowd(Next(s, a, m).calls[a]) && !SeesCrowd(s.calls[a])
    ensures s.calls[a].op.Read? && Busy(s.calls[a])
    ensures s.word.id == s.calls[a].op.ord && s.word.Readers() == MAX_CONCURRENT_READS
  {
    hide GuardInv, OwnerInv, HistoryInv;
    if m.Spurious? || (m.Go? && s.calls[a].pc.ReadCas?) {
      CrowdFromRetry(s, a);
    } else if m.Go? {
      if InParking(s.calls[a].pc) { CrowdFromParking(s, a); } else { CrowdFromWork(s, a); }
    }
  }

  lemma CrowdFromRetry(s: Slot, a: CallId)
    requires Enabled(s, a, Spurious) && SeesCrowd(Retry(s, a).calls[a])
    ensures s.calls[a].op.Read? && s.word.id == s.calls[a].op.ord && s.word.Readers() == MAX_CONCURRENT_READS
  {
  }

  lemma CrowdFromParking(s: Slot, a: CallId)
    requires Enabled(s, a, Go) && InParking(s.calls[a].pc)
    requires SeesCrowd(Proceed(s, a).calls[a]) && !SeesCrowd(s.calls[a])
    ensures s.calls[a].op.Read? && s.word.id == s.calls[a].op.ord && s.word.Readers() == MAX_CONCURRENT_READS
  {
  }

  lemma CrowdFromWork(s: Slot, a: CallId)
    requires Enabled(s, a, Go) && !InParking(s.calls[a].pc) && !s.calls[a].pc.ReadCas?
    requires SeesCrowd(Proceed(s, a).calls[a])
    ensures s.calls[a].op.Read? && s.word.id == s.calls[a].op.ord && s.word.Readers() == MAX_CONCURRENT_READS
  {
    if !s.calls[a].pc.ReadLoad? { WorkDecidesNothing(s, a); }
  }

  lemma CrowdInWord(s: Slot, ord: nat)
    requires Inv(s) && s.word.id == ord && s.word.Readers() == MAX_CONCURRENT_READS
    ensures Crowded(SpecOf(s), ord)
  {
    assert s.word.ReadLocked?;
  }

  /** The deadline of the call has passed while it slept. */
  predicate GaveUp(c: Call) {
    c.pc == Parked(Expired) || (c.pc == Done(TimedOut) && !c.timeout.DontBlock?)
  }

  /** A call that may block gives up by the timeout callback, while it is in the queue, and in no other way. */
  lemma GivesUpAtDeadline(s: Slot, a: CallId, m: Move)
    requires Inv(s) && Enabled(s, a, m) && a in Next(s, a, m).calls && GaveUp(Next(s, a, m).calls[a])
    requires a in s.calls ==> !GaveUp(s.calls[a])
    ensures m.Expire? && a in s.calls && a in s.parked && s.calls[a].timeout.BlockUntil? && s.calls[a].pc.Parked?
  {
    hide Inv;
    if a in s.calls {
      InvMoves(s, a);
      if m.Go? { GoingDoesNotGiveUp(s, a); }
    }
  }

  lemma GoingDoesNotGiveUp(s: Slot, a: CallId)
    requires Enabled(s, a, Go) && Remembers(s.calls[a]) && !GaveUp(s.calls[a])
    ensures a in Proceed(s, a).calls && !GaveUp(Proceed(s, a).calls[a])
  {
    if InParking(s.calls[a].pc) { ParkingDoesNotGiveUp(s, a); } else { WorkDoesNotGiveUp(s, a); }
  }

  lemma ParkingDoesNotGiveUp(s: Slot, a: CallId)
    requires Enabled(s, a, Go) && InParking(s.calls[a].pc) && Remembers(s.calls[a]) && !GaveUp(s.calls[a])
    ensures a in Proceed(s, a).calls && !GaveUp(Proceed(s, a).calls[a])
  {
  }

  lemma WorkDoesNotGiveUp(s: Slot, a: CallId)
    requires Enabled(s, a, Go) && !InParking(s.calls[a].pc)
    ensures a in Proceed(s, a).calls && !GaveUp(Proceed(s, a).calls[a])
  {
    var pc := s.calls[a].pc;
    if pc.ReadLoad? {
      DecidesWithoutGivingUp(s, a);
    } else if pc.ReadCas? {
      AttemptDoesNotGiveUp(s, a);
    } else {
      WorkDecidesNothing(s, a);
    }
  }

  lemma DecidesWithoutGivingUp(s: Slot, a: CallId)
    requires Enabled(s, a, Go) && s.calls[a].pc.ReadLoad?
    ensures a in Proceed(s, a).calls && !GaveUp(Proceed(s, a).calls[a])
  {
  }

  lemma AttemptDoesNotGiveUp(s: Slot, a: CallId)
    requires Enabled(s, a, Go) && s.calls[a].pc.ReadCas?
    ensures a in Proceed(s, a).calls && !GaveUp(Proceed(s, a).calls[a])
  {
  }

  /** Outside the parking subroutine only `lock_read` can panic, and only a call that must not block times out. */
  lemma WorkDecidesNothing(s: Slot, a: CallId)
    requires Enabled(s, a, Go) && !InParking(s.calls[a].pc) && !s.calls[a].pc.ReadLoad? && !s.calls[a].pc.ReadCas?
    ensures a in Proceed(s, a).calls
    ensures var d := Proceed(s, a).calls[a];
      && !SeesCrowd(d) && !d.pc.Parked? && d.timeout == s.calls[a].timeout
      && (d.pc == Done(TimedOut) ==> d.timeout.DontBlock?)
  {
    if s.calls[a].pc.TransitionCas? || s.calls[a].pc.ReadUnlockCas? {
      AttemptDecides(s, a);
    } else {
      RestDecidesNothing(s, a);
    }
  }

  lemma AttemptDecides(s: Slot, a: CallId)
    requires Enabled(s, a, Go) && (s.calls[a].pc.TransitionCas? || s.calls[a].pc.ReadUnlockCas?)
    ensures a in Proceed(s, a).calls
    ensures var d := Proceed(s, a).calls[a];
      && !SeesCrowd(d) && !d.pc.Parked? && d.timeout == s.calls[a].timeout
      && (d.pc == Done(TimedOut) ==> d.timeout.DontBlock?)
  {
  }

  lemma RestDecidesNothing(s: Slot, a: CallId)
    requires Enabled(s, a, Go) && !InParking(s.calls[a].pc) && !ReadsWord(s, a, Go)
    ensures a in Proceed(s, a).calls
    ensures var d := Proceed(s, a).calls[a];
      && !SeesCrowd(d) && !d.pc.Parked? && d.timeout == s.calls[a].timeout && d.pc != Done(TimedOut)
  {
  }

  // ----- outcomes with effect

  /** The element that a removal has got or will get. */
  function Promise(s: Slot, a: CallId): Option<Element>
    requires a in s.calls
  {
    var c := s.calls[a];
    if Taking(c) then (if s.cell.Uninit? then None else Some(s.cell.element))
    else match c.pc
      case UnparkRemoved(e) => Some(e)
      case PushErasure(e) => Some(e)
      case Done(o) => if o.Removed? then Some(o.element) else None
      case _ => None
  }

  /** The call has, or has had, the guard it asked for. */
  predicate Acquired(c: Call) {
    HoldsRead(c) || HoldsWrite(c) || c.pc.UnparkReleased? || c.pc == Done(Released) || (c.op.Write? && RemovedIt(c))
  }

  /** The events that end an operation, or give it its guard. */
  predicate Committing(ev: Event<nat>) {
    ev.EvInsert? || ev.EvLockRead? || ev.EvLockWrite? || ev.EvRemove? || ev.EvRemoveLocked?
  }

  /** The state of the call says that its event has happened. */
  predicate Commits(s: Slot, a: CallId, ev: Event<nat>) {
    && a in s.calls
    && var c := s.calls[a];
    match ev
    case EvInsert(o, e) => c.pc == Done(Inserted(o)) && c.op == Insert(e)
    case EvLockRead(o) => c.op == Read(o) && Acquired(c)
    case EvLockWrite(o) => c.op == Write(o) && Acquired(c)
    case EvRemove(o, e) => c.op == Remove(o) && Promise(s, a) == Some(e)
    case EvRemoveLocked(o, e) => c.op == Write(o) && Promise(s, a) == Some(e)
    case _ => false
  }

  /** What the event of a step says about the moving call, before and after. */
  predicate CommitsExactly(s: Slot, t: Slot, a: CallId, now: Event<nat>, ev: Event<nat>) {
    && (Commits(t, a, ev) <==> Commits(s, a, ev) || now == ev)
    && !(Commits(s, a, ev) && now == ev)
  }

  /** What has happened for the call is the same before and after. */
  predicate SameProgress(s: Slot, t: Slot, a: CallId) {
    && a in s.calls && a in t.calls && t.calls[a].op == s.calls[a].op && !s.calls[a].op.Insert?
    && Acquired(t.calls[a]) == Acquired(s.calls[a]) && Promise(t, a) == Promise(s, a)
  }

  lemma CommitsSame(s: Slot, t: Slot, a: CallId, now: Event<nat>, ev: Event<nat>)
    requires SameProgress(s, t, a) && Shape(s.calls[a]) && Shape(t.calls[a])
    requires !Committing(now) && Committing(ev)
    ensures CommitsExactly(s, t, a, now, ev)
  {
    hide Acquired, Promise;
  }

  lemma CommitsInsert(s: Slot, a: CallId, ev: Event<nat>)
    requires Settled(s, a) && Enabled(s, a, Go) && Committing(ev) && Inserting(s.calls[a])
    ensures CommitsExactly(s, Proceed(s, a), a, EventOf(s, a, Go), ev)
  {
  }

  lemma CommitsOther(s: Slot, a: CallId, m: Move, ev: Event<nat>)
    requires Settled(s, a) && Enabled(s, a, m) && Committing(ev) && !m.Go?
    ensures CommitsExactly(s, Next(s, a, m), a, EventOf(s, a, m), ev)
  {
    hide Commits;
    InsertOnlyGoes(s, a, m);
    OtherSame(s, a, m);
    CommitsSame(s, Next(s, a, m), a, EventOf(s, a, m), ev);
  }

  lemma InsertOnlyGoes(s: Slot, a: CallId, m: Move)
    requires a in s.calls && Shape(s.calls[a]) && Enabled(s, a, m) && !m.Go?
    ensures !s.calls[a].op.Insert?
  {
  }

  lemma OtherSame(s: Slot, a: CallId, m: Move)
    requires Settled(s, a) && Enabled(s, a, m) && !m.Go? && !s.calls[a].op.Insert?
    ensures SameProgress(s, Next(s, a, m), a) && Shape(s.calls[a]) && Shape(Next(s, a, m).calls[a])
  {
    hide Counted, Housed, Stored, OwnerInv, HistoryInv;
  }

  lemma CommitsPark(s: Slot, a: CallId, ev: Event<nat>)
    requires Settled(s, a) && Enabled(s, a, Go) && Committing(ev)
    requires s.calls[a].pc.ParkLock? || s.calls[a].pc.Parked? || HasQueueLock(s.calls[a])
    ensures CommitsExactly(s, Proceed(s, a), a, EventOf(s, a, Go), ev)
  {
    if WinsNow(s, s.calls[a]) { CommitsUnderLock(s, a, ev); }
    else if s.calls[a].pc.ParkLeaveWon? { CommitsLeave(s, a, ev); }
    else { CommitsNothing(s, a, ev); }
  }

  lemma CommitsUnderLock(s: Slot, a: CallId, ev: Event<nat>)
    requires Settled(s, a) && Enabled(s, a, Go) && Committing(ev) && s.calls[a].pc.ParkCheck? && WinsNow(s, s.calls[a])
    ensures CommitsExactly(s, Proceed(s, a), a, EventOf(s, a, Go), ev)
  {
  }

  lemma CommitsLeave(s: Slot, a: CallId, ev: Event<nat>)
    requires Settled(s, a) && Enabled(s, a, Go) && Committing(ev) && s.calls[a].pc.ParkLeaveWon?
    ensures CommitsExactly(s, Proceed(s, a), a, EventOf(s, a, Go), ev)
  {
  }

  lemma CommitsNothing(s: Slot, a: CallId, ev: Event<nat>)
    requires Settled(s, a) && Enabled(s, a, Go) && Committing(ev)
    requires !WinsNow(s, s.calls[a]) && !s.calls[a].pc.ParkLeaveWon?
    requires s.calls[a].pc.ParkLock? || s.calls[a].pc.Parked? || HasQueueLock(s.calls[a])
    ensures CommitsExactly(s, Proceed(s, a), a, EventOf(s, a, Go), ev)
  {
    assert EventOf(s, a, Go) == Tau;
    ParkingIsUncommitted(s, a);
    Uncommitted(s, a, ev);
    Uncommitted(Proceed(s, a), a, ev);
  }

  /** A call that has not got anything yet. */
  predicate Empty(c: Call) {
    && !Acquired(c) && !RemovedIt(c)
    && !(c.pc.Done? && (c.pc.outcome.Inserted? || c.pc.outcome.Removed?))
  }

  lemma Uncommitted(s: Slot, a: CallId, ev: Event<nat>)
    requires a in s.calls && Empty(s.calls[a])
    ensures !Commits(s, a, ev)
  {
  }

  lemma ParkingIsUncommitted(s: Slot, a: CallId)
    requires Settled(s, a) && Enabled(s, a, Go) && !WinsNow(s, s.calls[a]) && !s.calls[a].pc.ParkLeaveWon?
    requires s.calls[a].pc.ParkLock? || s.calls[a].pc.Parked? || HasQueueLock(s.calls[a])
    ensures Empty(s.calls[a]) && a in Proceed(s, a).calls && Empty(Proceed(s, a).calls[a])
  {
    var pc := s.calls[a].pc;
    if pc.ParkCheck? {
      CheckIsUncommitted(s, a);
    } else if pc.ParkLeaveMiss? || pc.ParkLeaveRead? {
      LeavingIsUncommitted(s, a);
    } else {
      WaitingIsUncommitted(s, a);
    }
  }

  lemma LeavingIsUncommitted(s: Slot, a: CallId)
    requires Settled(s, a) && Enabled(s, a, Go) && (s.calls[a].pc.ParkLeaveMiss? || s.calls[a].pc.ParkLeaveRead?)
    ensures Empty(s.calls[a]) && a in Proceed(s, a).calls && Empty(Proceed(s, a).calls[a])
  {
    hide Counted, Housed, Stored, GuardInv, OwnerInv, HistoryInv;
  }

  lemma WaitingIsUncommitted(s: Slot, a: CallId)
    requires Settled(s, a) && Enabled(s, a, Go)
    requires var pc := s.calls[a].pc; pc.ParkLock? || pc.Parked? || pc.ParkMark? || pc.ParkEnqueue?
    ensures Empty(s.calls[a]) && a in Proceed(s, a).calls && Empty(Proceed(s, a).calls[a])
  {
    hide Counted, Housed, Stored, GuardInv, OwnerInv, HistoryInv;
  }

  lemma CheckIsUncommitted(s: Slot, a: CallId)
    requires Settled(s, a) && Enabled(s, a, Go) && !WinsNow(s, s.calls[a]) && s.calls[a].pc.ParkCheck?
    ensures Empty(s.calls[a]) && a in Check(s, a).calls && Empty(Check(s, a).calls[a])
  {
    hide Counted, Housed, Stored;
  }

  lemma CommitsRemoval(s: Slot, a: CallId, ev: Event<nat>)
    requires Settled(s, a) && Enabled(s, a, Go) && Committing(ev)
    requires var c := s.calls[a]; c.pc.RemoveTake? || c.pc.RemoveLockedSwap? || c.pc.PushErasure? || Unparking(c)
    ensures CommitsExactly(s, Proceed(s, a), a, EventOf(s, a, Go), ev)
  {
    if s.calls[a].pc.RemoveLockedSwap? { CommitsSwap(s, a, ev); } else { CommitsEvict(s, a, ev); }
  }

  lemma CommitsSwap(s: Slot, a: CallId, ev: Event<nat>)
    requires Settled(s, a) && Enabled(s, a, Go) && Committing(ev) && s.calls[a].pc.RemoveLockedSwap?
    ensures CommitsExactly(s, Proceed(s, a), a, EventOf(s, a, Go), ev)
  {
    hide Counted, Housed, Stored, CallInv, Acquired, Promise, Proceed;
    SwapProgress(s, a);
  }

  lemma SwapProgress(s: Slot, a: CallId)
    requires Enabled(s, a, Go) && s.calls[a].pc.RemoveLockedSwap?
    ensures var t := Proceed(s, a);
      && a in t.calls && t.calls[a].op == s.calls[a].op && s.calls[a].op.Write?
      && Acquired(s.calls[a]) && Acquired(t.calls[a])
      && Promise(s, a) == None && Promise(t, a) == Some(s.calls[a].pc.element)
  {
  }

  lemma CommitsEvict(s: Slot, a: CallId, ev: Event<nat>)
    requires Settled(s, a) && Enabled(s, a, Go) && Committing(ev)
    requires s.calls[a].pc.RemoveTake? || s.calls[a].pc.PushErasure? || Unparking(s.calls[a])
    ensures CommitsExactly(s, Proceed(s, a), a, EventOf(s, a, Go), ev)
  {
    hide Commits;
    assert EventOf(s, a, Go) == Tau;
    EvictSame(s, a);
    CommitsSame(s, Proceed(s, a), a, Tau, ev);
  }

  lemma EvictSame(s: Slot, a: CallId)
    requires Settled(s, a) && Enabled(s, a, Go)
    requires s.calls[a].pc.RemoveTake? || s.calls[a].pc.PushErasure? || Unparking(s.calls[a])
    ensures SameProgress(s, Proceed(s, a), a) && Shape(s.calls[a]) && Shape(Proceed(s, a).calls[a])
  {
    hide Counted, Housed, Stored;
  }

  lemma CommitsRead(s: Slot, a: CallId, ev: Event<nat>)
    requires Settled(s, a) && Enabled(s, a, Go) && Committing(ev) && s.calls[a].op.Read?
    requires var pc := s.calls[a].pc; pc.ReadLoad? || pc.ReadCas? || pc.ReadHeld? || pc.ReadUnlockCas?
    ensures CommitsExactly(s, Proceed(s, a), a, EventOf(s, a, Go), ev)
  {
  }

  lemma CommitsTransition(s: Slot, a: CallId, ev: Event<nat>)
    requires Settled(s, a) && Enabled(s, a, Go) && Committing(ev)
    requires s.calls[a].pc.TransitionCas? || s.calls[a].pc.WriteHeld?
    ensures CommitsExactly(s, Proceed(s, a), a, EventOf(s, a, Go), ev)
  {
    hide Counted, Housed, Stored, GuardInv, OwnerInv;
  }

  /** A commitment of the moving call was there before, or is the event of the step, and never both. */
  lemma CommitsOfMover(s: Slot, a: CallId, m: Move, ev: Event<nat>)
    requires Settled(s, a) && Enabled(s, a, m) && Committing(ev)
    ensures CommitsExactly(s, Next(s, a, m), a, EventOf(s, a, m), ev)
  {
    var c := s.calls[a];
    if !m.Go? { CommitsOther(s, a, m, ev); }
    else if Inserting(c) { CommitsInsert(s, a, ev); }
    else if c.pc.ParkLock? || c.pc.Parked? || HasQueueLock(c) { CommitsPark(s, a, ev); }
    else if c.pc.RemoveTake? || c.pc.RemoveLockedSwap? || c.pc.PushErasure? || Unparking(c) {
      CommitsRemoval(s, a, ev);
    }
    else if c.op.Read? { CommitsRead(s, a, ev); }
    else { CommitsTransition(s, a, ev); }
  }

  /** Only a call with a claim to the slot changes the value. */
  lemma BystanderKeepsCell(s: Slot, a: CallId, m: Move)
    requires Enabled(s, a, m) && (a in s.calls ==> Bystander(s.calls[a]))
    ensures Next(s, a, m).cell == s.cell
  {
  }

  /** What a call has committed to depends on the call, and on the value while it is being taken. */
  lemma CommitsFrame(s: Slot, t: Slot, b: CallId, ev: Event<nat>)
    requires (b in s.calls) == (b in t.calls)
    requires b in s.calls ==> t.calls[b] == s.calls[b] && (Taking(s.calls[b]) ==> t.cell == s.cell)
    ensures Commits(t, b, ev) <==> Commits(s, b, ev)
  {
  }

  lemma OtherIsFramed(s: Slot, a: CallId, m: Move, b: CallId)
    requires Inv(s) && Enabled(s, a, m) && a != b
    ensures var t := Next(s, a, m);
      && (b in s.calls) == (b in t.calls)
      && (b in s.calls ==> t.calls[b] == s.calls[b] && (Taking(s.calls[b]) ==> t.cell == s.cell))
  {
    StepTouchesOneCall(s, a, m);
    if b in s.calls && Taking(s.calls[b]) {
      Alone(s, b);
      BystanderKeepsCell(s, a, m);
    }
  }

  lemma CommitsOfNew(s: Slot, a: CallId, m: Move, ev: Event<nat>)
    requires Enabled(s, a, m) && a !in s.calls && Committing(ev)
    ensures CommitsExactly(s, Next(s, a, m), a, EventOf(s, a, m), ev)
  {
  }

  /** A step adds to the commitments of all calls exactly its own event. */
  lemma StepCommits(s: Slot, a: CallId, m: Move, b: CallId, ev: Event<nat>)
    requires Inv(s) && Enabled(s, a, m) && Committing(ev)
    ensures Commits(Next(s, a, m), b, ev) <==> Commits(s, b, ev) || (a == b && EventOf(s, a, m) == ev)
    ensures !(Commits(s, b, ev) && a == b && EventOf(s, a, m) == ev)
  {
    if a != b {
      OtherIsFramed(s, a, m, b);
      CommitsFrame(s, Next(s, a, m), b, ev);
    } else if a in s.calls {
      InvMoves(s, a);
      CommitsOfMover(s, a, m, ev);
    } else {
      CommitsOfNew(s, a, m, ev);
    }
  }
}
