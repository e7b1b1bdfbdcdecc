/**
 The protocol that any number of concurrent calls run on one slot
 (src/header.rs, src/block.rs, src/util/sync/park.rs).

 A *call* is one store operation from its invocation to its return; a call that
 acquires a guard goes on until the guard is dropped or consumed by
 `remove_locked`.  A step performs one access to memory shared between threads, or
 one operation under the queue lock of the parking lot, together with the local
 computation that follows it.  Any call may take the next step.

 `home`, `issued` and `removed` are history: no step of a running call depends on
 them.  They record who has the slot, which insertion each ordinal was returned to
 and which call removed it.
 */
module SlotProtocol {
  import opened HeaderWord

  type CallId = nat

  /** An element; `token` tells apart the elements of different insertions. */
  datatype Element = Element(token: CallId, payload: int)

  datatype Option<+T> = None | Some(value: T)

  datatype Timeout = DontBlock | BlockUntil | BlockIndefinitely

  datatype Op =
    | Insert(element: Element)
    | Read(ord: nat)
    | Write(ord: nat)
    | Remove(ord: nat)

  datatype Outcome =
    | Inserted(ord: nat)
    | NotFound
    | TimedOut
    | Released              // a guard was held and has been dropped
    | Removed(element: Element)

  /** The result cell of `park` while the call sleeps: written by the closure, overwritten by the timeout callback. */
  datatype ParkResult = Waited | Expired

  datatype Pc =
    // insert
    | InsertWrite                       // has the slot, about to write the value
    | InsertOccupy                      // about to set the notification bit
    // lock_read
    | ReadLoad
    | ReadCas(cur: HeaderState)         // about to add a reader to `cur`
    | ReadHeld
    | ReadUnlockCas(cur: HeaderState)   // about to take a reader from `cur`
    // lock_write and remove
    | TransitionCas
    | WriteHeld
    | RemoveTake                        // removed the ID, about to read the value
    | RemoveLockedSwap(element: Element)// remove_locked has read the value, about to swap
    | PushErasure(element: Element)
    // block and park
    | ParkLock                          // about to take the queue lock
    | ParkCheck                         // about to run the closure
    | ParkMark(cur: HeaderState)        // about to mark `cur` as having a blocked thread
    | ParkEnqueue(result: ParkResult)   // marked, about to enqueue and release the queue lock
    | Parked(result: ParkResult)        // returns when it is no longer in the queue
    | ParkLeaveMiss                     // the closure declined: about to release the queue lock
    | ParkLeaveRead(cur: HeaderState)
    | ParkLeaveWon
    // unpark_all
    | UnparkReleased
    | UnparkRemoved(element: Element)
    // ended
    | Done(outcome: Outcome)
    | Panicked                          // too many concurrent readers

  datatype Call = Call(op: Op, timeout: Timeout, pc: Pc)

  /** The memory of the value; `Moved` still holds the bytes of an element that was read out. */
  datatype Cell = Uninit | Init(element: Element) | Moved(element: Element)

  datatype Home =
    | Fresh                 // never handed out
    | Queued                // in the erasure queue
    | Held(owner: CallId)     // between hand-out and occupy, or between removal and erasure
    | Live
    | Retired

  datatype Slot = Slot(
    word: HeaderState,
    cell: Cell,
    queueLock: Option<CallId>,
    parked: set<CallId>,
    calls: map<CallId, Call>,
    home: Home,
    issued: map<nat, CallId>,
    removed: map<nat, CallId>
  )

  const NEW_SLOT: Slot := Slot(Unoccupied(0), Uninit, None, {}, map[], Fresh, map[], map[])

  /** How a call moves; `Go` is the only continuation at most program points. */
  datatype Move =
    | BeginInsert(element: Element)
    | Begin(op: Op, timeout: Timeout)
    | Go
    | Spurious                      // a weak compare-exchange fails although the word matches
    | Expire                        // the deadline of a parked call passes: the timeout callback runs
    | Deref                         // looking at the value through a guard
    | Mutate(payload: int)          // assignment through a write guard
    | TakeLocked                    // remove_locked

  // ----- decisions taken on a word that was just read

  /** `lock_read_with_current`, and `lock_read_slow` up to parking. */
  function ReadDecide(c: Call, cur: HeaderState): Pc
    requires c.op.Read?
  {
    if cur.id != c.op.ord then Done(NotFound)
    else if cur.WriteLocked? then SlowPath(c)
    else ReadAttempt(cur)
  }

  function ReadAttempt(cur: HeaderState): Pc {
    if cur.Readers() == MAX_CONCURRENT_READS then Panicked else ReadCas(cur)
  }

  function SlowPath(c: Call): Pc {
    if c.timeout.DontBlock? then Done(TimedOut) else ParkLock
  }

  /** `transition` after a failed compare-exchange that observed `actual`. */
  function TransitionDecide(c: Call, actual: HeaderState): Pc
    requires c.op.Write? || c.op.Remove?
  {
    if actual.id != c.op.ord then Done(NotFound)
    else if actual.Readers() > 0 then SlowPath(c)
    else TransitionCas
  }

  /** The word `transition` expects. */
  function Expected(op: Op): HeaderState
    requires op.Write? || op.Remove?
  {
    Unlocked(op.ord)
  }

  /** The word `transition` installs. */
  function Target(op: Op): HeaderState
    requires op.Write? || op.Remove?
  {
    if op.Write? then WriteLocked(op.ord, false) else Unoccupied(op.ord + 1)
  }

  // ----- steps

  function SetPc(s: Slot, a: CallId, pc: Pc): Slot
    requires a in s.calls
  {
    s.(calls := s.calls[a := s.calls[a].(pc := pc)])
  }

  /** The successful compare-exchange of `transition`, continuing at `won`. */
  function Transitioned(s: Slot, a: CallId, won: Pc): Slot
    requires a in s.calls && (s.calls[a].op.Write? || s.calls[a].op.Remove?)
  {
    var op := s.calls[a].op;
    var s1 := SetPc(s, a, won).(word := Target(op));
    if op.Write? then s1 else s1.(home := Held(a), removed := s.removed[op.ord := a])
  }

  function WonPc(op: Op): Pc {
    if op.Write? then WriteHeld else RemoveTake
  }

  /** Leaving the slot after a removal: queue it, or retire it when the next ID is reserved. */
  function AfterRemoval(s: Slot, a: CallId, e: Element): Slot
    requires a in s.calls && !s.calls[a].op.Insert?
  {
    if s.calls[a].op.ord + 1 != RESERVED_ID then SetPc(s, a, PushErasure(e))
    else SetPc(s, a, Done(Removed(e))).(home := Retired)
  }

  /** The slot is handed to an insertion. */
  function Reserve(s: Slot, a: CallId, e: Element): Slot {
    s.(home := Held(a), calls := s.calls[a := Call(Insert(e), DontBlock, InsertWrite)])
  }

  /** `slot.value.write`. */
  function WriteValue(s: Slot, a: CallId): Slot
    requires a in s.calls && s.calls[a].op.Insert?
  {
    SetPc(s, a, InsertOccupy).(cell := Init(s.calls[a].op.element))
  }

  /** `occupy`: one `fetch_or`, which returns the ID. */
  function Occupy(s: Slot, a: CallId): Slot
    requires a in s.calls
  {
    SetPc(s, a, Done(Inserted(s.word.id))).(
      word := s.word.UnmarkThreadBlocking(),
      home := Live,
      issued := s.issued[s.word.id := a])
  }

  /** The compare-exchange of `lock_read` succeeds. */
  function AddReader(s: Slot, a: CallId): Slot
    requires a in s.calls
  {
    SetPc(s, a, ReadHeld).(word := s.word.IncrementReaders())
  }

  /** The compare-exchange of `unlock_read` succeeds. */
  function DropReader(s: Slot, a: CallId): Slot
    requires a in s.calls
  {
    SetPc(s, a, if s.word.LastReaderMustUnpark() then UnparkReleased else Done(Released)).(
      word := s.word.AfterReadUnlock())
  }

  /** The swap of `unlock_write`. */
  function DropWriter(s: Slot, a: CallId): Slot
    requires a in s.calls && s.calls[a].op.Write?
  {
    SetPc(s, a, if s.word.HasThreadBlocking() then UnparkReleased else Done(Released)).(
      word := Unlocked(s.calls[a].op.ord))
  }

  /** `remove_locked` reads the value out. */
  function TakeOut(s: Slot, a: CallId): Slot
    requires a in s.calls && !s.cell.Uninit?
  {
    SetPc(s, a, RemoveLockedSwap(s.cell.element)).(cell := Moved(s.cell.element))
  }

  /** The swap of `remove_locked`. */
  function SwapOut(s: Slot, a: CallId, e: Element): Slot
    requires a in s.calls && s.calls[a].op.Write?
  {
    var ord := s.calls[a].op.ord;
    var t := s.(word := Unoccupied(ord + 1), home := Held(a), removed := s.removed[ord := a]);
    if s.word.HasThreadBlocking() then SetPc(t, a, UnparkRemoved(e)) else AfterRemoval(t, a, e)
  }

  predicate Enabled(s: Slot, a: CallId, m: Move) {
    match m
    case BeginInsert(e) => a !in s.calls && (s.home.Fresh? || s.home.Queued?) && e.token == a
    case Begin(op, _) => a !in s.calls && !op.Insert? && op.ord in s.issued
    case Go =>
      && a in s.calls
      && var pc := s.calls[a].pc;
      && !pc.Done? && !pc.Panicked?
      && Shape(s.calls[a])
      && (pc.ParkLock? || pc.UnparkReleased? || pc.UnparkRemoved? ==> s.queueLock.None?)
      && (pc.Parked? ==> a !in s.parked)
    case Spurious =>
      && a in s.calls
      && Shape(s.calls[a])
      && (s.calls[a].pc.ReadCas? || s.calls[a].pc.ReadUnlockCas? || s.calls[a].pc.TransitionCas?)
    case Expire =>
      && a in s.calls && s.calls[a].pc.Parked? && s.calls[a].timeout.BlockUntil?
      && a in s.parked && s.queueLock.None?
    case Deref => a in s.calls && (s.calls[a].pc.ReadHeld? || s.calls[a].pc.WriteHeld?)
    case Mutate(_) => a in s.calls && s.calls[a].pc.WriteHeld?
    case TakeLocked => a in s.calls && s.calls[a].pc.WriteHeld?
  }

  /** Which operations reach which program points. */
  predicate Shape(c: Call) {
    match c.pc
    case InsertWrite => c.op.Insert?
    case InsertOccupy => c.op.Insert?
    case ReadLoad => c.op.Read?
    case ReadCas(_) => c.op.Read?
    case ReadHeld => c.op.Read?
    case ReadUnlockCas(_) => c.op.Read?
    case TransitionCas => c.op.Write? || c.op.Remove?
    case WriteHeld => c.op.Write?
    case RemoveTake => c.op.Remove?
    case RemoveLockedSwap(_) => c.op.Write?
    case PushErasure(_) => c.op.Write? || c.op.Remove?
    case ParkLock => !c.op.Insert?
    case ParkCheck => !c.op.Insert?
    case ParkMark(_) => !c.op.Insert?
    case ParkEnqueue(_) => !c.op.Insert?
    case Parked(_) => !c.op.Insert?
    case ParkLeaveMiss => !c.op.Insert?
    case ParkLeaveRead(_) => c.op.Read?
    case ParkLeaveWon => c.op.Write? || c.op.Remove?
    case UnparkReleased => c.op.Read? || c.op.Write?
    case UnparkRemoved(_) => c.op.Write?
    case Done(o) =>
      && (o.Inserted? <==> c.op.Insert?)
      && (o.Released? ==> c.op.Read? || c.op.Write?)
      && (o.Removed? ==> c.op.Write? || c.op.Remove?)
    case Panicked => c.op.Read?
  }

  function Next(s: Slot, a: CallId, m: Move): Slot
    requires Enabled(s, a, m)
  {
    match m
    case BeginInsert(e) => Reserve(s, a, e)
    case Begin(op, t) =>
      s.(calls := s.calls[a := Call(op, t, if op.Read? then ReadLoad else TransitionCas)])
    case Go => Proceed(s, a)
    case Spurious => Retry(s, a)
    case Expire => SetPc(s, a, Parked(Expired)).(parked := s.parked - {a})
    case Deref => s
    // `Checks` excludes that these three read an uninitialised value
    case Mutate(v) => if s.cell.Uninit? then s else s.(cell := Init(s.cell.element.(payload := v)))
    case TakeLocked =>
      if s.cell.Uninit? then s else TakeOut(s, a)
  }

  /** A weak compare-exchange that failed and observed the current word. */
  function Retry(s: Slot, a: CallId): Slot
    requires Enabled(s, a, Spurious)
  {
    var c := s.calls[a];
    SetPc(s, a, if c.pc.ReadCas? then ReadDecide(c, s.word)
                else if c.pc.ReadUnlockCas? then ReadUnlockCas(s.word)
                else TransitionDecide(c, s.word))
  }

  function Proceed(s: Slot, a: CallId): Slot
    requires Enabled(s, a, Go)
  {
    var c := s.calls[a];
    match c.pc
    case InsertWrite => WriteValue(s, a)
    case InsertOccupy => Occupy(s, a)
    case ReadLoad => SetPc(s, a, ReadDecide(c, s.word))
    case ReadCas(cur) => if s.word == cur then AddReader(s, a) else Retry(s, a)
    case ReadHeld => SetPc(s, a, ReadUnlockCas(s.word))
    case ReadUnlockCas(cur) => if s.word == cur then DropReader(s, a) else Retry(s, a)
    case TransitionCas =>
      if s.word == Expected(c.op) then Transitioned(s, a, WonPc(c.op)) else Retry(s, a)
    case WriteHeld => DropWriter(s, a)
    case RemoveTake =>
      if s.cell.Uninit? then s
      else AfterRemoval(s.(cell := Moved(s.cell.element)), a, s.cell.element)
    case RemoveLockedSwap(e) => SwapOut(s, a, e)
    case PushErasure(e) => SetPc(s, a, Done(Removed(e))).(home := Queued)
    case ParkLock => SetPc(s, a, ParkCheck).(queueLock := Some(a))
    case ParkCheck => Check(s, a)
    case ParkMark(cur) =>
      if s.word == cur then SetPc(s, a, ParkEnqueue(Waited)).(word := cur.MarkThreadBlocking())
      else SetPc(s, a, ParkCheck)
    case ParkEnqueue(result) => SetPc(s, a, Parked(result)).(parked := s.parked + {a}, queueLock := None)
    case Parked(result) => SetPc(s, a, if result.Waited? then ParkLock else Done(TimedOut))
    case ParkLeaveMiss => SetPc(s, a, Done(NotFound)).(queueLock := None)
    case ParkLeaveRead(cur) => SetPc(s, a, ReadAttempt(cur)).(queueLock := None)
    case ParkLeaveWon => SetPc(s, a, WonPc(c.op)).(queueLock := None)
    case UnparkReleased => SetPc(s, a, Done(Released)).(parked := {})
    case UnparkRemoved(e) => AfterRemoval(s.(parked := {}), a, e)
  }

  /** The closure that decides, under the queue lock, whether to park. */
  function Check(s: Slot, a: CallId): Slot
    requires a in s.calls && !s.calls[a].op.Insert?
  {
    var op := s.calls[a].op;
    if op.Read? then
      SetPc(s, a, if s.word.id != op.ord then ParkLeaveMiss
                  else if s.word.WriteLocked? then ParkMark(s.word)
                  else ParkLeaveRead(s.word))
    else if s.word == Expected(op) then Transitioned(s, a, ParkLeaveWon)
    else SetPc(s, a, if s.word.id == op.ord then ParkMark(s.word) else ParkLeaveMiss)
  }

  /**
   The debug assertions of the program, the initialisation checks of the value and the
   unreachable branch of the timeout callback, as they are evaluated by the step.
   */
  predicate Checks(s: Slot, a: CallId, m: Move)
    requires Enabled(s, a, m)
  {
    match m
    case BeginInsert(_) => true
    case Begin(op, _) => op.ord != RESERVED_ID
    case Spurious => RetryChecks(s, a)
    case Expire => s.calls[a].pc.result.Waited?
    case Deref => s.cell.Init?
    case Mutate(_) => s.cell.Init?
    case TakeLocked => s.cell.Init?
    case Go =>
      var c := s.calls[a];
      match c.pc
      case InsertOccupy => !s.word.Occupied() && s.word.id != RESERVED_ID
      case ReadLoad => DecideChecks(ReadDecide(c, s.word))
      case ReadCas(cur) => s.word == cur || RetryChecks(s, a)
      case ReadHeld => UnlockChecks(c, s.word)
      case ReadUnlockCas(cur) => s.word == cur || RetryChecks(s, a)
      case TransitionCas => s.word == Expected(c.op) || RetryChecks(s, a)
      case WriteHeld => s.word.id == c.op.ord && s.word.WriteLocked? && s.word.Occupied()
      case RemoveTake => s.cell.Init?
      case RemoveLockedSwap(_) => s.word.id == c.op.ord && s.word.WriteLocked? && s.word.Occupied()
      case ParkMark(cur) => cur.Readers() > 0 && cur.id != RESERVED_ID
      case ParkLeaveRead(cur) => DecideChecks(ReadAttempt(cur))
      case _ => true
  }

  /** `increment_readers` is only asked to add to a word that is not write locked or reserved. */
  predicate DecideChecks(pc: Pc) {
    pc.ReadCas? ==> !pc.cur.WriteLocked? && pc.cur.id != RESERVED_ID
  }

  /** `unlock_read_with_current`. */
  predicate UnlockChecks(c: Call, cur: HeaderState)
    requires c.op.Read?
  {
    cur.Readers() != 0 && !cur.WriteLocked? && cur.id == c.op.ord && cur.Occupied()
  }

  predicate RetryChecks(s: Slot, a: CallId)
    requires Enabled(s, a, Spurious)
  {
    var c := s.calls[a];
    if c.pc.ReadCas? then DecideChecks(ReadDecide(c, s.word))
    else if c.pc.ReadUnlockCas? then UnlockChecks(c, s.word)
    // busy retry only when the word observed is the expected one
    else TransitionDecide(c, s.word) == TransitionCas ==> s.word == Expected(c.op)
  }
}
