/**
 The slot protocol implements the specification: every step is one atomic event or none,
 and every outcome of a call is justified by an event or a state between its invocation
 and its return.
 */
module Linearization {
  import opened HeaderWord
  import opened SlotProtocol
  import opened SlotInvariant
  import opened SlotFacts
  import opened Spec

  // ----- abstraction of one slot

  function EntryOf(s: Slot): Entry
    requires !s.cell.Uninit?
  {
    Entry(s.cell.element, ReadHolders(s.calls), WriteHolders(s.calls))
  }

  predicate IsLive(s: Slot) {
    s.word.Occupied() && !s.cell.Uninit?
  }

  function SpecOf(s: Slot): Spec<nat> {
    Spec(if IsLive(s) then map[s.word.id := EntryOf(s)] else map[], s.removed.Keys)
  }

  /** The successful compare-exchange of `transition` is about to happen. */
  predicate WinsNow(s: Slot, c: Call) {
    && (c.op.Write? || c.op.Remove?) && s.word == Expected(c.op)
    && (c.pc.TransitionCas? || c.pc.ParkCheck?)
  }

  /** The event that a step is. */
  function EventOf(s: Slot, a: CallId, m: Move): Event<nat> {
    if a !in s.calls || s.calls[a].op.Insert? then
      if m.Go? && a in s.calls && s.calls[a].pc.InsertOccupy? then EvInsert(s.word.id, s.calls[a].op.element) else Tau
    else
      var c := s.calls[a];
      var k := c.op.ord;
      if m.Mutate? then EvAssign(k, m.payload)
      else if !m.Go? then Tau
      else if c.pc == ReadCas(s.word) then EvLockRead(k)
      else if c.pc == ReadUnlockCas(s.word) then EvUnlockRead(k)
      else if c.pc.WriteHeld? then EvUnlockWrite(k)
      else if c.pc.RemoveLockedSwap? then EvRemoveLocked(k, c.pc.element)
      else if WinsNow(s, c) then
        if c.op.Write? then EvLockWrite(k)
        else if s.cell.Uninit? then Tau else EvRemove(k, s.cell.element)
      else Tau
  }

  // ----- every step is its event

  /** A step that leaves word, value, guards and removals alone is invisible. */
  lemma InvisibleStep(s: Slot, t: Slot)
    requires t.word.id == s.word.id && t.word.Occupied() == s.word.Occupied() && t.removed == s.removed
    requires s.word.Occupied() ==> t.cell == s.cell || (!s.cell.Uninit? && t.cell == Moved(s.cell.element))
    requires s.word.Occupied() ==>
               ReadHolders(t.calls) == ReadHolders(s.calls) && WriteHolders(t.calls) == WriteHolders(s.calls)
    ensures SpecOf(t) == SpecOf(s)
  {
  }

  lemma SimulateQuiet(s: Slot, t: Slot, a: CallId)
    requires Quiet(s, t, a)
    ensures SpecOf(t) == SpecOf(s)
  {
    QuietHolders(s, t, a);
    InvisibleStep(s, t);
  }

  lemma SameHolders(s: Slot, t: Slot, a: CallId)
    requires CallUpdated(s, t, a)
    requires HoldsRead(t.calls[a]) == HoldsRead(s.calls[a]) && HoldsWrite(t.calls[a]) == HoldsWrite(s.calls[a])
    ensures ReadHolders(t.calls) == ReadHolders(s.calls) && WriteHolders(t.calls) == WriteHolders(s.calls)
  {
    HoldersUpdate(s.calls, a, t.calls[a]);
  }

  /** Guards exist only on a locked word. */
  lemma NoHolders(s: Slot)
    requires Counted(s)
    ensures !s.word.ReadLocked? ==> ReadHolders(s.calls) == {}
    ensures !s.word.WriteLocked? ==> WriteHolders(s.calls) == {}
  {
  }

  lemma SimulateInsert(s: Slot, a: CallId)
    requires Inv(s) && Enabled(s, a, Go) && Inserting(s.calls[a])
    ensures SpecStep(SpecOf(s), SpecOf(Proceed(s, a)), a, EventOf(s, a, Go))
  {
    InvMoves(s, a);
    if s.calls[a].pc.InsertWrite? {
      InvisibleStep(s, WriteValue(s, a));
    } else {
      NoHolders(s);
      SameHolders(s, Occupy(s, a), a);
      SimulateOccupy(s, a);
    }
  }

  lemma SimulateOccupy(s: Slot, a: CallId)
    requires Moves(s, a) && Recorded(s) && Housed(s) && s.calls[a].pc.InsertOccupy?
    requires ReadHolders(Occupy(s, a).calls) == {} && WriteHolders(Occupy(s, a).calls) == {}
    ensures SpecStep(SpecOf(s), SpecOf(Occupy(s, a)), a, EvInsert(s.word.id, s.calls[a].op.element))
  {
    assert Occupy(s, a).word == Unlocked(s.word.id);
  }

  lemma SimulateAddReader(s: Slot, a: CallId)
    requires Moves(s, a) && Counted(s) && Housed(s) && Stored(s) && s.calls[a].pc == ReadCas(s.word)
    ensures SpecStep(SpecOf(s), SpecOf(AddReader(s, a)), a, EvLockRead(s.calls[a].op.ord))
  {
    AddReaderLocal(s, a);
    NoHolders(s);
    HoldersUpdate(s.calls, a, AddReader(s, a).calls[a]);
    AddReaderSpec(s, AddReader(s, a), a);
  }

  lemma AddReaderSpec(s: Slot, t: Slot, a: CallId)
    requires IsLive(s) && IsLive(t) && t.word.id == s.word.id && t.cell == s.cell && t.removed == s.removed
    requires a !in ReadHolders(s.calls) && ReadHolders(t.calls) == ReadHolders(s.calls) + {a}
    requires WriteHolders(s.calls) == {} == WriteHolders(t.calls)
    ensures SpecStep(SpecOf(s), SpecOf(t), a, EvLockRead(s.word.id))
  {
    assert SpecOf(t) == Put(SpecOf(s), s.word.id, EntryOf(s).(readers := ReadHolders(s.calls) + {a}));
  }

  lemma SimulateDropReader(s: Slot, a: CallId)
    requires Moves(s, a) && Counted(s) && Housed(s) && Stored(s) && s.calls[a].pc == ReadUnlockCas(s.word)
    ensures SpecStep(SpecOf(s), SpecOf(DropReader(s, a)), a, EvUnlockRead(s.calls[a].op.ord))
  {
    DropReaderLocal(s, a);
    HoldersUpdate(s.calls, a, DropReader(s, a).calls[a]);
    DropReaderSpec(s, DropReader(s, a), a);
  }

  lemma DropReaderSpec(s: Slot, t: Slot, a: CallId)
    requires IsLive(s) && IsLive(t) && t.word.id == s.word.id && t.cell == s.cell && t.removed == s.removed
    requires a in ReadHolders(s.calls) && ReadHolders(t.calls) == ReadHolders(s.calls) - {a}
    requires WriteHolders(t.calls) == WriteHolders(s.calls) - {a} == WriteHolders(s.calls)
    ensures SpecStep(SpecOf(s), SpecOf(t), a, EvUnlockRead(s.word.id))
  {
    assert SpecOf(t) == Put(SpecOf(s), s.word.id, EntryOf(s).(readers := ReadHolders(s.calls) - {a}));
  }

  lemma SimulateTransition(s: Slot, a: CallId, won: Pc)
    requires Moves(s, a) && Counted(s) && Housed(s) && Stored(s) && WinsNow(s, s.calls[a])
    requires s.calls[a].op.Write? ==> won == WriteHeld || won == ParkLeaveWon
    ensures !s.cell.Uninit?
    ensures
      var c := s.calls[a];
      SpecStep(SpecOf(s), SpecOf(Transitioned(s, a, won)), a,
               if c.op.Write? then EvLockWrite(c.op.ord) else EvRemove(c.op.ord, s.cell.element))
  {
    NoHolders(s);
    var t := Transitioned(s, a, won);
    if s.calls[a].op.Write? {
      HoldersUpdate(s.calls, a, t.calls[a]);
      LockWriteSpec(s, t, a);
    } else {
      RemoveSpec(s, t, a);
    }
  }

  lemma LockWriteSpec(s: Slot, t: Slot, a: CallId)
    requires IsLive(s) && IsLive(t) && t.word.id == s.word.id && t.cell == s.cell && t.removed == s.removed
    requires ReadHolders(s.calls) == {} == ReadHolders(t.calls)
    requires WriteHolders(s.calls) == {} && WriteHolders(t.calls) == {a}
    ensures SpecStep(SpecOf(s), SpecOf(t), a, EvLockWrite(s.word.id))
  {
    assert SpecOf(t) == Put(SpecOf(s), s.word.id, EntryOf(s).(writers := {a}));
  }

  lemma RemoveSpec(s: Slot, t: Slot, a: CallId)
    requires IsLive(s) && ReadHolders(s.calls) == {} && WriteHolders(s.calls) == {}
    requires !t.word.Occupied() && t.removed.Keys == s.removed.Keys + {s.word.id}
    ensures SpecStep(SpecOf(s), SpecOf(t), a, EvRemove(s.word.id, s.cell.element))
  {
    assert SpecOf(t) == Drop(SpecOf(s), s.word.id);
  }

  lemma DropWriterHolders(s: Slot, a: CallId)
    requires Moves(s, a) && Counted(s) && s.calls[a].pc.WriteHeld?
    ensures WriteHolders(s.calls) == {a} && WriteHolders(DropWriter(s, a).calls) == {}
    ensures ReadHolders(DropWriter(s, a).calls) == ReadHolders(s.calls)
  {
    OnlyWriter(s, a);
    HoldersUpdate(s.calls, a, DropWriter(s, a).calls[a]);
  }

  lemma SimulateDropWriter(s: Slot, a: CallId)
    requires Moves(s, a) && Counted(s) && Housed(s) && Stored(s) && s.calls[a].pc.WriteHeld?
    ensures SpecStep(SpecOf(s), SpecOf(DropWriter(s, a)), a, EvUnlockWrite(s.calls[a].op.ord))
  {
    DropWriterHolders(s, a);
    var t := DropWriter(s, a);
    assert SpecOf(t) == Put(SpecOf(s), s.word.id, EntryOf(s).(writers := {}));
  }

  lemma SimulateAssign(s: Slot, a: CallId, v: int)
    requires Moves(s, a) && Counted(s) && Housed(s) && Stored(s) && s.calls[a].pc.WriteHeld? && s.cell.Init?
    ensures var t := s.(cell := Init(s.cell.element.(payload := v)));
      SpecStep(SpecOf(s), SpecOf(t), a, EvAssign(s.calls[a].op.ord, v))
  {
    OnlyWriter(s, a);
  }

  lemma SimulateSwapOut(s: Slot, a: CallId, e: Element)
    requires Moves(s, a) && Counted(s) && Housed(s) && Stored(s) && s.calls[a].pc == RemoveLockedSwap(e)
    ensures SpecStep(SpecOf(s), SpecOf(SwapOut(s, a, e)), a, EvRemoveLocked(s.calls[a].op.ord, e))
  {
    NoHolders(s);
    OnlyWriter(s, a);
    SwapOutLocal(s, a, e);
    SwapOutChanges(s, a, e);
    assert SpecOf(SwapOut(s, a, e)) == Drop(SpecOf(s), s.word.id);
  }

  /** The parts of the invariant that a simulated step needs. */
  predicate Settled(s: Slot, a: CallId) {
    Moves(s, a) && Counted(s) && Housed(s) && Stored(s)
  }

  lemma SimulateRemoval(s: Slot, a: CallId)
    requires Settled(s, a) && Enabled(s, a, Go)
    requires
      var c := s.calls[a];
      c.pc.RemoveTake? || c.pc.RemoveLockedSwap? || c.pc.PushErasure? || Unparking(c)
    ensures SpecStep(SpecOf(s), SpecOf(Proceed(s, a)), a, EventOf(s, a, Go))
  {
    var pc := s.calls[a].pc;
    if pc.RemoveLockedSwap? {
      SimulateSwapOut(s, a, pc.element);
    } else if pc.UnparkReleased? {
      QuietUnpark(s, a);
      SimulateQuiet(s, Proceed(s, a), a);
    } else {
      SimulateEvict(s, a);
    }
  }

  /** After the removal the identifier is gone already. */
  lemma SimulateEvict(s: Slot, a: CallId)
    requires Moves(s, a) && Housed(s) && Enabled(s, a, Go)
    requires var pc := s.calls[a].pc; pc.RemoveTake? || pc.PushErasure? || pc.UnparkRemoved?
    ensures SpecOf(Proceed(s, a)) == SpecOf(s)
  {
    InvisibleStep(s, Proceed(s, a));
  }

  lemma SimulateRetry(s: Slot, a: CallId)
    requires Settled(s, a) && Enabled(s, a, Spurious)
    ensures SpecOf(Retry(s, a)) == SpecOf(s)
  {
    QuietRetry(s, a);
    SimulateQuiet(s, Retry(s, a), a);
  }

  lemma SimulatePark(s: Slot, a: CallId)
    requires Settled(s, a) && Enabled(s, a, Go)
    requires s.calls[a].pc.ParkLock? || s.calls[a].pc.Parked? || HasQueueLock(s.calls[a])
    ensures SpecStep(SpecOf(s), SpecOf(Proceed(s, a)), a, EventOf(s, a, Go))
  {
    var c := s.calls[a];
    if c.pc.ParkMark? && c.pc.cur == s.word {
      SimulateMark(s, a);
    } else if c.pc.ParkCheck? && !c.op.Read? && s.word == Expected(c.op) {
      SimulateTransition(s, a, ParkLeaveWon);
    } else {
      SimulateQuietPark(s, a);
    }
  }

  lemma SimulateMark(s: Slot, a: CallId)
    requires Moves(s, a) && s.calls[a].pc == ParkMark(s.word)
    ensures SpecOf(MarkedWord(s, a)) == SpecOf(s)
  {
    SameHolders(s, MarkedWord(s, a), a);
    InvisibleStep(s, MarkedWord(s, a));
  }

  lemma SimulateTakeOut(s: Slot, a: CallId)
    requires Moves(s, a) && s.calls[a].pc.WriteHeld? && s.cell.Init?
    ensures SpecOf(TakeOut(s, a)) == SpecOf(s)
  {
    SameHolders(s, TakeOut(s, a), a);
    InvisibleStep(s, TakeOut(s, a));
  }

  lemma SimulateReserve(s: Slot, a: CallId, e: Element)
    requires Housed(s) && !s.word.Occupied()
    ensures SpecOf(Reserve(s, a, e)) == SpecOf(s)
  {
    InvisibleStep(s, Reserve(s, a, e));
  }

  lemma SimulateQuietPark(s: Slot, a: CallId)
    requires Moves(s, a) && Enabled(s, a, Go)
    requires s.calls[a].pc.ParkLock? || s.calls[a].pc.Parked? || HasQueueLock(s.calls[a])
    requires s.calls[a].pc.ParkMark? ==> s.calls[a].pc.cur != s.word
    requires s.calls[a].pc.ParkCheck? && !s.calls[a].op.Read? ==> s.word != Expected(s.calls[a].op)
    ensures SpecOf(Proceed(s, a)) == SpecOf(s)
  {
    var pc := s.calls[a].pc;
    if pc.ParkLock? || pc.Parked? || pc.ParkMark? { QuietPark(s, a); }
    else if pc.ParkCheck? { QuietCheck(s, a); }
    else if pc.ParkEnqueue? { QuietEnqueue(s, a); }
    else { QuietLeave(s, a); }
    SimulateQuiet(s, Proceed(s, a), a);
  }

  lemma SimulateLock(s: Slot, a: CallId)
    requires Settled(s, a) && Enabled(s, a, Go)
    requires
      var pc := s.calls[a].pc;
      || pc.ReadLoad? || pc.ReadCas? || pc.ReadHeld? || pc.ReadUnlockCas? || pc.TransitionCas? || pc.WriteHeld?
    ensures SpecStep(SpecOf(s), SpecOf(Proceed(s, a)), a, EventOf(s, a, Go))
  {
    var c := s.calls[a];
    if c.pc.ReadLoad? || c.pc.ReadHeld? {
      QuietRead(s, a);
      SimulateQuiet(s, Proceed(s, a), a);
    } else if c.pc.WriteHeld? {
      SimulateDropWriter(s, a);
    } else if c.pc == ReadCas(s.word) {
      SimulateAddReader(s, a);
    } else if c.pc == ReadUnlockCas(s.word) {
      SimulateDropReader(s, a);
    } else if c.pc.TransitionCas? && s.word == Expected(c.op) {
      SimulateTransition(s, a, WonPc(c.op));
    } else {
      SimulateRetry(s, a);
    }
  }

  lemma SimulateGo(s: Slot, a: CallId)
    requires Inv(s) && Enabled(s, a, Go)
    ensures SpecStep(SpecOf(s), SpecOf(Proceed(s, a)), a, EventOf(s, a, Go))
  {
    var c := s.calls[a];
    InvMoves(s, a);
    if Inserting(c) { SimulateInsert(s, a); }
    else if c.pc.ParkLock? || c.pc.Parked? || HasQueueLock(c) { SimulatePark(s, a); }
    else if c.pc.RemoveTake? || c.pc.RemoveLockedSwap? || c.pc.PushErasure? || Unparking(c) { SimulateRemoval(s, a); }
    else { SimulateLock(s, a); }
  }

  lemma SimulateBegin(s: Slot, a: CallId, c: Call)
    requires Counted(s) && a !in s.calls && Bystander(c)
    ensures SpecOf(s.(calls := s.calls[a := c])) == SpecOf(s)
  {
    var t := s.(calls := s.calls[a := c]);
    HoldersUpdate(s.calls, a, c);
    assert ReadHolders(t.calls) == ReadHolders(s.calls) && WriteHolders(t.calls) == WriteHolders(s.calls);
    InvisibleStep(s, t);
  }

  /** Forward simulation: every step of the protocol is the event of the specification named by `EventOf`. */
  lemma Simulates(s: Slot, a: CallId, m: Move)
    requires Inv(s) && Enabled(s, a, m)
    ensures SpecStep(SpecOf(s), SpecOf(Next(s, a, m)), a, EventOf(s, a, m))
  {
    hide Recorded, Stored, Awaited, AllCalls;
    if m.Go? {
      SimulateGo(s, a);
    } else if a !in s.calls {
      if m.BeginInsert? { SimulateReserve(s, a, m.element); } else { SimulateBegin(s, a, Next(s, a, m).calls[a]); }
    } else {
      InvMoves(s, a);
      if s.calls[a].pc.WriteHeld? { WriterSeesValue(s, a); }
      SimulateOther(s, a, m);
    }
  }

  lemma SimulateOther(s: Slot, a: CallId, m: Move)
    requires Settled(s, a) && Enabled(s, a, m) && !m.Go?
    requires s.calls[a].pc.WriteHeld? ==> s.cell.Init?
    ensures SpecStep(SpecOf(s), SpecOf(Next(s, a, m)), a, EventOf(s, a, m))
  {
    match m
    case Spurious => SimulateRetry(s, a);
    case Expire =>
      QuietExpire(s, a);
      SimulateQuiet(s, Next(s, a, m), a);
    case Deref =>
    case Mutate(v) => SimulateAssign(s, a, v);
    case TakeLocked => SimulateTakeOut(s, a);
  }
}
