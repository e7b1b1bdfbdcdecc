/**
 A call that runs alone at a slot: it comes to rest within a bounded number of its own
 steps, with one event or with evidence that its outcome is right.
 */
module Solo {
  import opened HeaderWord
  import opened SlotProtocol
  import opened SlotInvariant
  import opened SlotFacts
  import opened Spec
  import opened Linearization
  import O = Outcomes

  /** No other call at the slot is in the middle of an operation. */
  predicate OthersRest(s: Slot, a: CallId) {
    forall b :: b in s.calls && b != a ==> !Busy(s.calls[b])
  }

  /** What the call remembers of the word is still so. */
  predicate UpToDate(s: Slot, a: CallId)
    requires a in s.calls
  {
    match s.calls[a].pc
    case ReadCas(cur) => cur == s.word
    case ReadUnlockCas(cur) => cur == s.word
    case ParkMark(cur) => cur == s.word
    case ParkLeaveRead(cur) => cur == s.word
    case Parked(result) => result.Waited? ==> a in s.parked
    case _ => true
  }

  /** The call sleeps without a deadline. */
  predicate Stuck(c: Call) {
    c.pc == Parked(Waited) && !c.timeout.BlockUntil?
  }

  /** The deadline passes when nobody else moves. */
  function SoloMove(c: Call): Move {
    if c.pc == Parked(Waited) then Expire else Go
  }

  /** A bound on the steps to come. */
  function Rank(pc: Pc): nat {
    match pc
    case InsertWrite => 2
    case InsertOccupy => 1
    case ReadLoad => 11
    case ReadCas(_) => 1
    case ReadHeld => 0
    case ReadUnlockCas(_) => 2
    case TransitionCas => 11
    case WriteHeld => 0
    case RemoveTake => 2
    case RemoveLockedSwap(_) => 3
    case PushErasure(_) => 1
    case ParkLock => 10
    case ParkCheck => 9
    case ParkMark(_) => 8
    case ParkEnqueue(_) => 7
    case Parked(result) => if result.Waited? then 6 else 5
    case ParkLeaveMiss => 1
    case ParkLeaveRead(_) => 2
    case ParkLeaveWon => 3
    case UnparkReleased => 1
    case UnparkRemoved(_) => 2
    case Done(_) => 0
    case Panicked => 0
  }

  /** The queue lock is free, or the call has it. */
  lemma QueueLockIsOurs(s: Slot, a: CallId)
    requires Inv(s) && OthersRest(s, a) && a in s.calls
    ensures s.queueLock.None? || (s.queueLock == Some(a) && HasQueueLock(s.calls[a]))
  {
  }

  lemma SoloEnabled(s: Slot, a: CallId)
    requires Inv(s) && OthersRest(s, a) && a in s.calls && Busy(s.calls[a]) && UpToDate(s, a) && !Stuck(s.calls[a])
    ensures Enabled(s, a, SoloMove(s.calls[a]))
  {
    QueueLockIsOurs(s, a);
    AlwaysShaped(s, a);
  }

  /** The step leaves the call up to date and closer to rest. */
  predicate Progress(s: Slot, t: Slot, a: CallId) {
    a in s.calls && a in t.calls && UpToDate(t, a) && Rank(t.calls[a].pc) < Rank(s.calls[a].pc)
  }

  lemma ParkProgress(s: Slot, a: CallId)
    requires Moves(s, a) && UpToDate(s, a) && Enabled(s, a, Go)
    requires var pc := s.calls[a].pc; pc.ParkLock? || pc.ParkMark? || pc.ParkEnqueue?
    ensures Progress(s, Proceed(s, a), a)
  {
  }

  lemma CheckProgress(s: Slot, a: CallId)
    requires Moves(s, a) && UpToDate(s, a) && Enabled(s, a, Go) && s.calls[a].pc.ParkCheck?
    ensures Progress(s, Proceed(s, a), a)
  {
  }

  lemma LeaveProgress(s: Slot, a: CallId)
    requires Moves(s, a) && UpToDate(s, a) && Enabled(s, a, Go)
    requires var pc := s.calls[a].pc; pc.ParkLeaveMiss? || pc.ParkLeaveRead? || pc.ParkLeaveWon?
    ensures Progress(s, Proceed(s, a), a)
  {
  }

  lemma LockProgress(s: Slot, a: CallId)
    requires Moves(s, a) && UpToDate(s, a) && Enabled(s, a, Go)
    requires var pc := s.calls[a].pc; pc.ReadLoad? || pc.ReadCas? || pc.ReadUnlockCas?
    ensures Progress(s, Proceed(s, a), a)
  {
  }

  lemma TransitionProgress(s: Slot, a: CallId)
    requires Moves(s, a) && UpToDate(s, a) && Enabled(s, a, Go) && s.calls[a].pc.TransitionCas?
    ensures Progress(s, Proceed(s, a), a)
  {
  }

  lemma InsertProgress(s: Slot, a: CallId)
    requires Moves(s, a) && UpToDate(s, a) && Enabled(s, a, Go) && (Inserting(s.calls[a]) || Unparking(s.calls[a]))
    ensures Progress(s, Proceed(s, a), a)
  {
  }

  lemma EvictProgress(s: Slot, a: CallId)
    requires Moves(s, a) && UpToDate(s, a) && Enabled(s, a, Go)
    requires s.calls[a].pc.RemoveTake? || s.calls[a].pc.RemoveLockedSwap? || s.calls[a].pc.PushErasure?
    ensures Progress(s, Proceed(s, a), a)
  {
  }

  /** Each step comes closer to rest. */
  lemma SoloProgress(s: Slot, a: CallId)
    requires Moves(s, a) && UpToDate(s, a) && Busy(s.calls[a]) && Enabled(s, a, SoloMove(s.calls[a]))
    ensures Progress(s, Next(s, a, SoloMove(s.calls[a])), a)
  {
    hide Moves;
    var c := s.calls[a];
    if c.pc.Parked? { }
    else if c.pc.ParkLock? || c.pc.ParkMark? || c.pc.ParkEnqueue? { ParkProgress(s, a); }
    else if c.pc.ParkCheck? { CheckProgress(s, a); }
    else if HasQueueLock(c) { LeaveProgress(s, a); }
    else if c.pc.ReadLoad? || c.pc.ReadCas? || c.pc.ReadUnlockCas? { LockProgress(s, a); }
    else if c.pc.TransitionCas? { TransitionProgress(s, a); }
    else if Inserting(c) || Unparking(c) { InsertProgress(s, a); }
    else { EvictProgress(s, a); }
  }

  /** What an operation that has no choice any more is doing. */
  datatype Track = Filling | Releasing | Evacuating | Open

  function TrackOf(pc: Pc): Track {
    match pc
    case InsertWrite => Filling
    case InsertOccupy => Filling
    case ReadUnlockCas(_) => Releasing
    case UnparkReleased => Releasing
    case RemoveLockedSwap(_) => Evacuating
    case UnparkRemoved(_) => Evacuating
    case PushErasure(_) => Evacuating
    case Done(o) =>
      if o.Inserted? then Filling else if o.Released? then Releasing else if o.Removed? then Evacuating else Open
    case _ => Open
  }

  lemma StaysOnTrack(s: Slot, a: CallId)
    requires a in s.calls && UpToDate(s, a) && TrackOf(s.calls[a].pc) != Open && Busy(s.calls[a])
    requires Enabled(s, a, SoloMove(s.calls[a]))
    ensures var t := Next(s, a, SoloMove(s.calls[a])); a in t.calls && TrackOf(t.calls[a].pc) == TrackOf(s.calls[a].pc)
  {
    if TrackOf(s.calls[a].pc) == Evacuating {
      StaysEvacuating(s, a);
    } else {
      StaysOnItsWay(s, a);
    }
  }

  lemma StaysEvacuating(s: Slot, a: CallId)
    requires Enabled(s, a, Go) && TrackOf(s.calls[a].pc) == Evacuating
    ensures a in Proceed(s, a).calls && TrackOf(Proceed(s, a).calls[a].pc) == Evacuating
  {
  }

  lemma StaysOnItsWay(s: Slot, a: CallId)
    requires Enabled(s, a, Go) && UpToDate(s, a)
    requires TrackOf(s.calls[a].pc) == Filling || TrackOf(s.calls[a].pc) == Releasing
    ensures a in Proceed(s, a).calls && TrackOf(Proceed(s, a).calls[a].pc) == TrackOf(s.calls[a].pc)
  {
  }

  // ----- the event and the evidence

  /** The event that a call at this point has had since it was last at rest. */
  predicate Had(c: Call, cell: Cell, ev: Event<nat>) {
    match c.pc
    case ReadHeld => c.op.Read? && ev == EvLockRead(c.op.ord)
    case WriteHeld => c.op.Write? && ev == EvLockWrite(c.op.ord)
    case ParkLeaveWon => if c.op.Write? then ev == EvLockWrite(c.op.ord) else HadRemoval(c.op, cell, ev)
    case RemoveTake => HadRemoval(c.op, cell, ev)
    case PushErasure(e) => HadRemoved(c.op, e, ev)
    case UnparkRemoved(e) => HadRemoved(c.op, e, ev)
    case UnparkReleased => HadUnlock(c.op, ev)
    case Done(o) => HadOutcome(c.op, o, ev)
    case _ => ev.Tau?
  }

  predicate HadRemoval(op: Op, cell: Cell, ev: Event<nat>) {
    op.Remove? && cell.Init? && ev == EvRemove(op.ord, cell.element)
  }

  predicate HadRemoved(op: Op, e: Element, ev: Event<nat>) {
    (op.Remove? && ev == EvRemove(op.ord, e)) || (op.Write? && ev == EvRemoveLocked(op.ord, e))
  }

  predicate HadUnlock(op: Op, ev: Event<nat>) {
    (op.Read? && ev == EvUnlockRead(op.ord)) || (op.Write? && ev == EvUnlockWrite(op.ord))
  }

  predicate HadOutcome(op: Op, o: Outcome, ev: Event<nat>) {
    match o
    case Inserted(k) => op.Insert? && ev == EvInsert(k, op.element)
    case NotFound => ev.Tau?
    case TimedOut => ev.Tau?
    case Released => HadUnlock(op, ev)
    case Removed(e) => HadRemoved(op, e, ev)
  }

  function Latest(ev: Event<nat>, now: Event<nat>): Event<nat> {
    if now.Tau? then ev else now
  }

  /** The step of the call is its first event, or none. */
  predicate HasNow(s: Slot, t: Slot, a: CallId, m: Move, ev: Event<nat>) {
    && a in t.calls
    && var now := EventOf(s, a, m);
       Had(t.calls[a], t.cell, Latest(ev, now)) && (now.Tau? || ev.Tau?)
  }

  lemma ParkEvent(s: Slot, a: CallId, ev: Event<nat>)
    requires Moves(s, a) && Stored(s) && UpToDate(s, a) && Enabled(s, a, Go) && Had(s.calls[a], s.cell, ev)
    requires var pc := s.calls[a].pc; pc.ParkLock? || pc.ParkMark? || pc.ParkEnqueue?
    ensures HasNow(s, Proceed(s, a), a, Go, ev)
  {
  }

  lemma CheckEvent(s: Slot, a: CallId, ev: Event<nat>)
    requires Settled(s, a) && Enabled(s, a, Go) && Had(s.calls[a], s.cell, ev) && s.calls[a].pc.ParkCheck?
    ensures HasNow(s, Proceed(s, a), a, Go, ev)
  {
    NoHolders(s);
  }

  lemma LeaveEvent(s: Slot, a: CallId, ev: Event<nat>)
    requires Moves(s, a) && Enabled(s, a, Go) && Had(s.calls[a], s.cell, ev)
    requires var pc := s.calls[a].pc; pc.ParkLeaveMiss? || pc.ParkLeaveRead? || pc.ParkLeaveWon?
    ensures HasNow(s, Proceed(s, a), a, Go, ev)
  {
  }

  lemma LockEvent(s: Slot, a: CallId, ev: Event<nat>)
    requires Moves(s, a) && UpToDate(s, a) && Enabled(s, a, Go) && Had(s.calls[a], s.cell, ev)
    requires var pc := s.calls[a].pc; pc.ReadLoad? || pc.ReadCas? || pc.ReadUnlockCas?
    ensures HasNow(s, Proceed(s, a), a, Go, ev)
  {
  }

  lemma TransitionEvent(s: Slot, a: CallId, ev: Event<nat>)
    requires Settled(s, a) && Enabled(s, a, Go) && Had(s.calls[a], s.cell, ev) && s.calls[a].pc.TransitionCas?
    ensures HasNow(s, Proceed(s, a), a, Go, ev)
  {
    NoHolders(s);
  }

  lemma InsertEvent(s: Slot, a: CallId, ev: Event<nat>)
    requires Moves(s, a) && Enabled(s, a, Go) && Had(s.calls[a], s.cell, ev) && Inserting(s.calls[a])
    ensures HasNow(s, Proceed(s, a), a, Go, ev)
  {
  }

  lemma EvictEvent(s: Slot, a: CallId, ev: Event<nat>)
    requires Moves(s, a) && Enabled(s, a, Go) && Had(s.calls[a], s.cell, ev)
    requires s.calls[a].pc.RemoveTake? || s.calls[a].pc.RemoveLockedSwap? || s.calls[a].pc.PushErasure?
    ensures HasNow(s, Proceed(s, a), a, Go, ev)
  {
  }

  lemma UnparkEvent(s: Slot, a: CallId, ev: Event<nat>)
    requires Moves(s, a) && Enabled(s, a, Go) && Had(s.calls[a], s.cell, ev) && Unparking(s.calls[a])
    ensures HasNow(s, Proceed(s, a), a, Go, ev)
  {
  }

  lemma SoloEvent(s: Slot, a: CallId, ev: Event<nat>)
    requires Settled(s, a) && UpToDate(s, a) && Busy(s.calls[a]) && Enabled(s, a, SoloMove(s.calls[a]))
    requires Had(s.calls[a], s.cell, ev)
    ensures HasNow(s, Next(s, a, SoloMove(s.calls[a])), a, SoloMove(s.calls[a]), ev)
  {
    hide Moves, Counted, Housed, Stored;
    var c := s.calls[a];
    if c.pc.Parked? { }
    else if c.pc.ParkLock? || c.pc.ParkMark? || c.pc.ParkEnqueue? { ParkEvent(s, a, ev); }
    else if c.pc.ParkCheck? { CheckEvent(s, a, ev); }
    else if HasQueueLock(c) { LeaveEvent(s, a, ev); }
    else if c.pc.ReadLoad? || c.pc.ReadCas? || c.pc.ReadUnlockCas? { LockEvent(s, a, ev); }
    else if c.pc.TransitionCas? { TransitionEvent(s, a, ev); }
    else if Inserting(c) { InsertEvent(s, a, ev); }
    else if Unparking(c) { UnparkEvent(s, a, ev); }
    else { EvictEvent(s, a, ev); }
  }
  /** The present state justifies what the call has seen. */
  predicate Evident(spec: Spec<nat>, c: Call) {
    && (O.Supports(c, NotFound) ==> !c.op.Insert? && Justifies(spec, c.op, c.op.ord, NotFound))
    && (O.Supports(c, TimedOut) ==> !c.op.Insert? && Justifies(spec, c.op, c.op.ord, TimedOut))
    && (c.pc.Panicked? ==> c.op.Read? && Crowded(spec, c.op.ord))
  }

  lemma SupportEvident(s: Slot, a: CallId, m: Move, o: Outcome)
    requires Inv(s) && Enabled(s, a, m) && a in s.calls && a in Next(s, a, m).calls
    requires Evident(SpecOf(s), s.calls[a]) && O.Supports(Next(s, a, m).calls[a], o)
    ensures !s.calls[a].op.Insert? && Justifies(SpecOf(s), s.calls[a].op, s.calls[a].op.ord, o)
  {
    hide Inv;
    if !O.Supports(s.calls[a], o) { O.SupportIsJustified(s, a, m, o); }
  }

  lemma CrowdedNow(s: Slot, a: CallId)
    requires Settled(s, a) && UpToDate(s, a) && Busy(s.calls[a]) && Enabled(s, a, SoloMove(s.calls[a]))
    requires a in Next(s, a, SoloMove(s.calls[a])).calls && Next(s, a, SoloMove(s.calls[a])).calls[a].pc.Panicked?
    ensures s.calls[a].op.Read? && Crowded(SpecOf(s), s.calls[a].op.ord)
  {
    var c := s.calls[a];
    assert c.pc.ReadLoad? || c.pc.ParkLeaveRead?;
    assert s.word.ReadLocked? && s.word.id == c.op.ord;
  }

  /** A call that runs alone: where it is, what it has done, and what it has seen. */
  ghost predicate Running(start: Spec<nat>, s: Slot, a: CallId, ev: Event<nat>) {
    && Inv(s) && a in s.calls && OthersRest(s, a) && UpToDate(s, a)
    && Had(s.calls[a], s.cell, ev) && Evident(SpecOf(s), s.calls[a])
    && SpecStep(start, SpecOf(s), a, ev)
  }

  lemma RunningSettled(s: Slot, a: CallId)
    requires Inv(s) && a in s.calls
    ensures Settled(s, a)
  {
    InvMoves(s, a);
  }

  lemma OthersStillRest(s: Slot, a: CallId, m: Move)
    requires OthersRest(s, a) && Enabled(s, a, m)
    ensures OthersRest(Next(s, a, m), a)
  {
    StepTouchesOneCall(s, a, m);
  }

  /** Evidence is only seen where nothing has happened. */
  lemma SeesBeforeActing(c: Call, cell: Cell, ev: Event<nat>)
    requires Had(c, cell, ev) && (O.Supports(c, NotFound) || O.Supports(c, TimedOut) || c.pc.Panicked?)
    ensures ev.Tau?
  {
  }

  lemma StillEvident(s: Slot, a: CallId, ev: Event<nat>)
    requires Inv(s) && Settled(s, a) && UpToDate(s, a) && Busy(s.calls[a]) && Enabled(s, a, SoloMove(s.calls[a]))
    requires Evident(SpecOf(s), s.calls[a]) && HasNow(s, Next(s, a, SoloMove(s.calls[a])), a, SoloMove(s.calls[a]), ev)
    ensures var t := Next(s, a, SoloMove(s.calls[a])); Evident(SpecOf(t), t.calls[a])
  {
    hide Inv, Settled, HasNow, Had, EventOf, SpecOf, UpToDate, Justifies, Crowded;
    var m := SoloMove(s.calls[a]);
    var t := Next(s, a, m);
    var d := t.calls[a];
    StepTouchesOneCall(s, a, m);
    if O.Supports(d, NotFound) { SupportEvident(s, a, m, NotFound); }
    if O.Supports(d, TimedOut) { SupportEvident(s, a, m, TimedOut); }
    if d.pc.Panicked? { CrowdedNow(s, a); }
    if O.Supports(d, NotFound) || O.Supports(d, TimedOut) || d.pc.Panicked? { SameSpec(s, a, ev); }
  }

  lemma SameSpec(s: Slot, a: CallId, ev: Event<nat>)
    requires Inv(s) && a in s.calls && Enabled(s, a, SoloMove(s.calls[a]))
    requires HasNow(s, Next(s, a, SoloMove(s.calls[a])), a, SoloMove(s.calls[a]), ev)
    requires var d := Next(s, a, SoloMove(s.calls[a])).calls[a];
      O.Supports(d, NotFound) || O.Supports(d, TimedOut) || d.pc.Panicked?
    ensures SpecOf(Next(s, a, SoloMove(s.calls[a]))) == SpecOf(s)
  {
    hide Inv, Had, EventOf, SpecOf;
    var m := SoloMove(s.calls[a]);
    var t := Next(s, a, m);
    Simulates(s, a, m);
    SeesBeforeActing(t.calls[a], t.cell, Latest(ev, EventOf(s, a, m)));
  }

  /** A step of a call that runs alone. */
  lemma SoloStep(start: Spec<nat>, s: Slot, a: CallId, ev: Event<nat>) returns (next: Event<nat>)
    requires Running(start, s, a, ev) && Busy(s.calls[a]) && !Stuck(s.calls[a])
    ensures Enabled(s, a, SoloMove(s.calls[a]))
    ensures var t := Next(s, a, SoloMove(s.calls[a])); Running(start, t, a, next) && Progress(s, t, a)
  {
    hide Inv, Settled, Had, EventOf, SpecOf, UpToDate, Evident, OthersRest;
    SoloEnabled(s, a);
    RunningSettled(s, a);
    var m := SoloMove(s.calls[a]);
    var t := Next(s, a, m);
    StepKeepsInv(s, a, m);
    OthersStillRest(s, a, m);
    ProgressOf(s, a);
    SoloEvent(s, a, ev);
    StillEvident(s, a, ev);
    Simulates(s, a, m);
    next := Latest(ev, EventOf(s, a, m));
    OneEvent(start, SpecOf(s), SpecOf(t), a, ev, EventOf(s, a, m));
  }

  lemma ProgressOf(s: Slot, a: CallId)
    requires Settled(s, a) && UpToDate(s, a) && Busy(s.calls[a]) && Enabled(s, a, SoloMove(s.calls[a]))
    ensures Progress(s, Next(s, a, SoloMove(s.calls[a])), a)
  {
    SoloProgress(s, a);
  }

  lemma OneEvent(start: Spec<nat>, s: Spec<nat>, t: Spec<nat>, a: CallId, ev: Event<nat>, now: Event<nat>)
    requires SpecStep(start, s, a, ev) && SpecStep(s, t, a, now) && (now.Tau? || ev.Tau?)
    ensures SpecStep(start, t, a, Latest(ev, now))
  {
  }

  // ----- setting out from rest

  predicate AllRest(s: Slot) {
    forall b :: b in s.calls ==> !Busy(s.calls[b])
  }

  lemma Begins(s: Slot, a: CallId, op: Op, timeout: Timeout)
    requires Inv(s) && AllRest(s) && a !in s.calls && !op.Insert? && op.ord in s.issued
    ensures Enabled(s, a, Begin(op, timeout))
    ensures Running(SpecOf(s), Next(s, a, Begin(op, timeout)), a, Tau)
  {
    hide Inv, SpecOf, SpecStep;
    var m := Begin(op, timeout);
    StepKeepsInv(s, a, m);
    Simulates(s, a, m);
    StepTouchesOneCall(s, a, m);
  }

  lemma InsertBegins(s: Slot, a: CallId)
    requires Inv(s) && a in s.calls && OthersRest(s, a) && s.calls[a].pc.InsertWrite?
    ensures Running(SpecOf(s), s, a, Tau)
  {
  }

  /** The first step after rest. */
  predicate SetsOut(s: Slot, t: Slot, a: CallId, m: Move, ev: Event<nat>) {
    && a in s.calls && a in t.calls && EventOf(s, a, m) == ev
    && UpToDate(t, a) && Had(t.calls[a], t.cell, ev)
    && !O.Supports(t.calls[a], NotFound) && !O.Supports(t.calls[a], TimedOut) && !t.calls[a].pc.Panicked?
  }

  lemma Departs(s: Slot, a: CallId, m: Move, ev: Event<nat>)
    requires Inv(s) && AllRest(s) && Enabled(s, a, m) && SetsOut(s, Next(s, a, m), a, m, ev)
    ensures Running(SpecOf(s), Next(s, a, m), a, ev)
  {
    hide Inv, SpecOf, SpecStep, UpToDate, Had;
    StepKeepsInv(s, a, m);
    Simulates(s, a, m);
    OthersStillRest(s, a, m);
  }

  lemma UnlockSetsOut(s: Slot, a: CallId)
    requires Moves(s, a) && s.calls[a].pc.ReadHeld?
    ensures Enabled(s, a, Go) && SetsOut(s, Next(s, a, Go), a, Go, Tau)
  {
  }

  lemma WriteUnlockSetsOut(s: Slot, a: CallId)
    requires Moves(s, a) && s.calls[a].pc.WriteHeld?
    ensures Enabled(s, a, Go) && SetsOut(s, Next(s, a, Go), a, Go, EvUnlockWrite(s.calls[a].op.ord))
  {
  }

  lemma TakeSetsOut(s: Slot, a: CallId)
    requires Moves(s, a) && s.calls[a].pc.WriteHeld? && s.cell.Init?
    ensures Enabled(s, a, TakeLocked) && SetsOut(s, Next(s, a, TakeLocked), a, TakeLocked, Tau)
  {
  }

  lemma UnlockBegins(s: Slot, a: CallId)
    requires Inv(s) && AllRest(s) && a in s.calls && s.calls[a].pc.ReadHeld?
    ensures Enabled(s, a, Go) && Running(SpecOf(s), Next(s, a, Go), a, Tau)
  {
    hide Inv, Moves;
    InvMoves(s, a);
    UnlockSetsOut(s, a);
    Departs(s, a, Go, Tau);
  }

  lemma WriteUnlockBegins(s: Slot, a: CallId)
    requires Inv(s) && AllRest(s) && a in s.calls && s.calls[a].pc.WriteHeld?
    ensures s.calls[a].op.Write?
    ensures Enabled(s, a, Go) && Running(SpecOf(s), Next(s, a, Go), a, EvUnlockWrite(s.calls[a].op.ord))
  {
    hide Inv, Moves;
    AlwaysShaped(s, a);
    InvMoves(s, a);
    WriteUnlockSetsOut(s, a);
    Departs(s, a, Go, EvUnlockWrite(s.calls[a].op.ord));
  }

  lemma TakeBegins(s: Slot, a: CallId)
    requires Inv(s) && AllRest(s) && a in s.calls && s.calls[a].pc.WriteHeld?
    ensures Enabled(s, a, TakeLocked) && Running(SpecOf(s), Next(s, a, TakeLocked), a, Tau)
  {
    hide Inv, Moves;
    InvMoves(s, a);
    WriterSeesValue(s, a);
    TakeSetsOut(s, a);
    Departs(s, a, TakeLocked, Tau);
  }
}
