/**
 `RwStore` (src/lib.rs) as the object a single thread sees: every operation runs the steps
 of its call to the end, nobody else moving, and does to the abstract map what it promises.

 That each method ends also shows that no operation waits for anything but a lock that is
 held: run alone it comes to rest within a fixed number of steps.
 */
module RwStore {
  import opened Bits
  import opened Blocks
  import opened Store
  import opened Spec
  import opened Refinement
  import P = SlotProtocol
  import I = SlotInvariant
  import F = SlotFacts
  import L = Linearization
  import B = Bucket
  import HeaderWord
  import C = Capacity
  import BucketChoice
  import O = Outcomes
  import Solo

  /** A lock guard: the identifier it was acquired with, and the call that acquired it. */
  datatype Guard = Guard(id: Id, call: P.CallId)

  /**
   `Ok(Some(value))`, `Ok(None)`, `Err(TimedOut)`, or the panic over too many readers.  A call
   that is `Asleep` waits for a guard that its own thread has, and never returns.
   */
  datatype Response<+T> = Found(value: T) | Absent | TimedOut | Panic | Asleep

  // ----- states of the machine

  predicate BucketsRest(s: Store) {
    forall k :: 0 <= k < |s.buckets| ==> s.buckets[k].calls == map[]
  }

  /** No operation is going on; guards may be held. */
  predicate AtRest(s: Store) {
    BucketsRest(s) && forall r :: r in s.slots ==> Solo.AllRest(s.slots[r])
  }

  /** Somebody may enter each bucket. */
  predicate Roomy(s: Store) {
    forall k :: 0 <= k < |s.buckets| ==> s.buckets[k].limit > 0
  }

  /** The call has removed an element whose slot can be used again. */
  predicate Erases(c: P.Call) {
    c.pc.Done? && c.pc.outcome.Removed? && !c.op.Insert? && c.op.ord + 1 != HeaderWord.RESERVED_ID
  }

  function PushedBy(c: P.Slot, r: SlotRef, a: P.CallId): seq<SlotRef> {
    if a in c.calls && Erases(c.calls[a]) then [r] else []
  }

  /** Call `a` was made at slot `r`, with these arguments. */
  predicate Made(s: Store, r: SlotRef, a: P.CallId, op: P.Op, timeout: P.Timeout) {
    r in s.slots && a in s.slots[r].calls && s.slots[r].calls[a].op == op && s.slots[r].calls[a].timeout == timeout
  }

  /** What a removal adds to the erasures: its slot, unless the next ID there is the reserved one. */
  function Erasure(removed: bool, id: Id): seq<SlotRef> {
    if removed && id.ord + 1 != HeaderWord.RESERVED_ID then [id.slot] else []
  }

  /** Since state `start` nothing but call `a`, at slot `r`, has moved. */
  ghost predicate Working(start: Store, s: Store, r: SlotRef, a: P.CallId, ev: Event<nat>) {
    && Inv(s) && BucketsRest(s) && s.buckets == start.buckets
    && r in start.slots && r in s.slots && s.slots == start.slots[r := s.slots[r]]
    && s.used == start.used + {a}
    && s.erasures == start.erasures + PushedBy(s.slots[r], r, a)
    && (forall q :: q in s.slots && q != r ==> Solo.AllRest(s.slots[q]))
    && Solo.Running(L.SpecOf(start.slots[r]), s.slots[r], a, ev)
  }

  lemma NobodyInAllocator(s: Store, a: P.CallId)
    requires BucketsRest(s)
    ensures !InAllocator(s, a)
  {
  }

  /** One step of the call. */
  lemma WorkStep(start: Store, s: Store, r: SlotRef, a: P.CallId, ev: Event<nat>) returns (next: Event<nat>)
    requires Working(start, s, r, a, ev) && F.Busy(s.slots[r].calls[a]) && !Solo.Stuck(s.slots[r].calls[a])
    ensures
      var m := AtSlot(r, Solo.SoloMove(s.slots[r].calls[a]));
      && Enabled(s, a, m) && Working(start, Next(s, a, m), r, a, next)
      && Solo.Progress(s.slots[r], Next(s, a, m).slots[r], a)
      && SameCall(s, Next(s, a, m), r, a)
  {
    hide Inv, Solo.Running;
    RunningCall(start, s, r, a, ev);
    next := Solo.SoloStep(L.SpecOf(start.slots[r]), s.slots[r], a, ev);
    NobodyInAllocator(s, a);
    var mv := Solo.SoloMove(s.slots[r].calls[a]);
    StepKeepsInv(s, a, AtSlot(r, mv));
    F.StepTouchesOneCall(s.slots[r], a, mv);
    TrackKept(L.SpecOf(start.slots[r]), s.slots[r], a, ev);
    PushKept(L.SpecOf(start.slots[r]), s.slots[r], a, ev);
  }

  /** The erasure is pushed by the step with which the removal ends. */
  lemma PushKept(start: Spec<nat>, c: P.Slot, a: P.CallId, ev: Event<nat>)
    requires Solo.Running(start, c, a, ev) && F.Busy(c.calls[a]) && P.Enabled(c, a, Solo.SoloMove(c.calls[a]))
    requires a in P.Next(c, a, Solo.SoloMove(c.calls[a])).calls
    ensures Pushes(c, a, Solo.SoloMove(c.calls[a])) <==> Erases(P.Next(c, a, Solo.SoloMove(c.calls[a])).calls[a])
    ensures !Erases(c.calls[a])
  {
    hide I.Inv, Solo.Had, Solo.Evident, Solo.OthersRest, SpecStep;
    I.InvMoves(c, a);
    PushAtEnd(c, a);
  }

  lemma PushAtEnd(c: P.Slot, a: P.CallId)
    requires a in c.calls && I.Remembers(c.calls[a]) && P.Enabled(c, a, Solo.SoloMove(c.calls[a]))
    requires a in P.Next(c, a, Solo.SoloMove(c.calls[a])).calls
    ensures Pushes(c, a, Solo.SoloMove(c.calls[a])) <==> Erases(P.Next(c, a, Solo.SoloMove(c.calls[a])).calls[a])
  {
    var pc := c.calls[a].pc;
    if pc == P.Parked(P.Waited) {
    } else if F.InParking(pc) {
      ParkingErasesNothing(c, a);
    } else if pc.RemoveTake? || pc.RemoveLockedSwap? || pc.UnparkRemoved? || pc.PushErasure? {
      PushingErases(c, a);
    } else {
      WorkErasesNothing(c, a);
    }
  }

  lemma ParkingErasesNothing(c: P.Slot, a: P.CallId)
    requires P.Enabled(c, a, P.Go) && F.InParking(c.calls[a].pc)
    ensures a in P.Proceed(c, a).calls && !Erases(P.Proceed(c, a).calls[a])
  {
  }

  lemma PushingErases(c: P.Slot, a: P.CallId)
    requires P.Enabled(c, a, P.Go) && I.Remembers(c.calls[a])
    requires var pc := c.calls[a].pc; pc.RemoveTake? || pc.RemoveLockedSwap? || pc.UnparkRemoved? || pc.PushErasure?
    ensures a in P.Proceed(c, a).calls
    ensures Erases(P.Proceed(c, a).calls[a]) <==> c.calls[a].pc.PushErasure?
  {
  }

  lemma WorkErasesNothing(c: P.Slot, a: P.CallId)
    requires P.Enabled(c, a, P.Go) && !F.InParking(c.calls[a].pc)
    requires var pc := c.calls[a].pc; !pc.RemoveTake? && !pc.RemoveLockedSwap? && !pc.UnparkRemoved? && !pc.PushErasure?
    ensures a in P.Proceed(c, a).calls && !Erases(P.Proceed(c, a).calls[a])
  {
  }

  lemma TrackKept(start: Spec<nat>, c: P.Slot, a: P.CallId, ev: Event<nat>)
    requires Solo.Running(start, c, a, ev) && F.Busy(c.calls[a]) && P.Enabled(c, a, Solo.SoloMove(c.calls[a]))
    requires a in P.Next(c, a, Solo.SoloMove(c.calls[a])).calls
    ensures Solo.TrackOf(c.calls[a].pc) != Solo.Open ==>
              Solo.TrackOf(P.Next(c, a, Solo.SoloMove(c.calls[a])).calls[a].pc) == Solo.TrackOf(c.calls[a].pc)
  {
    hide I.Inv, Solo.Had, Solo.Evident, SpecStep;
    if Solo.TrackOf(c.calls[a].pc) != Solo.Open { Solo.StaysOnTrack(c, a); }
  }

  predicate SameCall(s: Store, t: Store, r: SlotRef, a: P.CallId) {
    && r in s.slots && r in t.slots && a in s.slots[r].calls && a in t.slots[r].calls
    && OnTrack(s.slots[r].calls[a], t.slots[r].calls[a])
  }

  /** The same call, and on the same track if it was on one. */
  predicate OnTrack(c: P.Call, d: P.Call) {
    && d.op == c.op && d.timeout == c.timeout
    && (Solo.TrackOf(c.pc) != Solo.Open ==> Solo.TrackOf(d.pc) == Solo.TrackOf(c.pc))
  }

  lemma RunningCall(start: Store, s: Store, r: SlotRef, a: P.CallId, ev: Event<nat>)
    requires Working(start, s, r, a, ev)
    ensures a in s.slots[r].calls
  {
  }

  /** When the call has come to rest, so has the store; and the abstract map has had its event. */
  lemma WorkDone(start: Store, s: Store, r: SlotRef, a: P.CallId, ev: Event<nat>)
    requires Working(start, s, r, a, ev) && !F.Busy(s.slots[r].calls[a])
    ensures AtRest(s)
    ensures SpecStep(AbsOf(start), AbsOf(s), a, Lift(r, ev))
  {
    hide Inv, I.Inv, AbsOf, SpecStep;
    WorkEvent(start, s, r, a, ev);
    forall b | b in s.slots[r].calls ensures !F.Busy(s.slots[r].calls[b]) {
    }
  }

  lemma WorkEvent(start: Store, s: Store, r: SlotRef, a: P.CallId, ev: Event<nat>)
    requires Working(start, s, r, a, ev)
    ensures SpecStep(AbsOf(start), AbsOf(s), a, Lift(r, ev))
  {
    hide Inv, I.Inv, AbsOf;
    LiftStep(start, s, r, a, ev);
  }

  /** What the invariant knows about the identifiers of a slot. */
  lemma KnownIsIssued(s: Store, id: Id)
    requires Inv(s) && Known(AbsOf(s), id)
    ensures id.slot in s.slots && id.ord in s.slots[id.slot].issued
    ensures !(id in AbsOf(s).live && id in AbsOf(s).gone)
  {
    AbsAt(s, id.slot, id.ord);
    assert id == Id(id.slot, id.ord);
    KnownInSlot(s.slots[id.slot], id.ord);
  }

  lemma KnownInSlot(c: P.Slot, ord: nat)
    requires I.Inv(c) && Known(L.SpecOf(c), ord)
    ensures ord in c.issued
    ensures !(ord in L.SpecOf(c).live && ord in L.SpecOf(c).gone)
  {
  }

  /** What the call has seen is so in the abstract map. */
  lemma EvidenceLifts(s: Store, r: SlotRef, op: P.Op, k: nat, o: P.Outcome)
    requires r in s.slots && Justifies(L.SpecOf(s.slots[r]), op, k, o)
    ensures Justifies(AbsOf(s), op, Id(r, k), o)
  {
    AbsAt(s, r, k);
  }

  /** How the store is left by the call. */
  ghost predicate Ends(start: Store, s: Store, r: SlotRef, a: P.CallId, c: P.Call, ev: Event<nat>) {
    && Working(start, s, r, a, ev) && s.slots[r].calls[a] == c
    && (!F.Busy(c) || Solo.Stuck(c))
  }

  lemma EmptyStore(limit: nat)
    requires 0 < limit <= TWO31
    ensures Inv(NewStore(limit)) && AtRest(NewStore(limit)) && AbsOf(NewStore(limit)) == Spec(map[], {})
    ensures NewStore(limit).used == {} && Roomy(NewStore(limit))
  {
    hide Inv, AtRest, AbsOf;
    InvInit(limit);
    EmptyRests(limit);
    EmptyAbs(limit);
  }

  lemma EmptyRests(limit: nat)
    ensures AtRest(NewStore(limit))
  {
  }

  lemma EmptyAbs(limit: nat)
    ensures AbsOf(NewStore(limit)) == Spec(map[], {})
  {
    assert AbsOf(NewStore(limit)).live == map[] && AbsOf(NewStore(limit)).gone == {};
  }

  /** Evidence for "not found". */
  lemma EndsAbsent(start: Store, s: Store, r: SlotRef, a: P.CallId, c: P.Call, ev: Event<nat>)
    requires Ends(start, s, r, a, c, ev) && c.pc == P.Done(P.NotFound)
    ensures !c.op.Insert? && AbsOf(s) == AbsOf(start) && Id(r, c.op.ord) in AbsOf(s).gone
  {
    hide Inv, I.Inv, AbsOf;
    WorkEvent(start, s, r, a, ev);
    EvidenceLifts(s, r, c.op, c.op.ord, P.NotFound);
  }

  /** Evidence for a timeout; without a deadline the call sleeps on it. */
  lemma EndsTimedOut(start: Store, s: Store, r: SlotRef, a: P.CallId, c: P.Call, ev: Event<nat>)
    requires Ends(start, s, r, a, c, ev) && (c.pc == P.Done(P.TimedOut) || Solo.Stuck(c))
    ensures !c.op.Insert? && AbsOf(s) == AbsOf(start) && Justifies(AbsOf(s), c.op, Id(r, c.op.ord), P.TimedOut)
    ensures Solo.Stuck(c) <==> c.timeout.BlockIndefinitely?
  {
    hide Inv, AbsOf;
    WorkEvent(start, s, r, a, ev);
    EvidenceLifts(s, r, c.op, c.op.ord, P.TimedOut);
    assert I.Inv(s.slots[r]);
    F.IndefiniteNeverTimesOut(s.slots[r], a);
  }

  lemma EndsPanicked(start: Store, s: Store, r: SlotRef, a: P.CallId, c: P.Call, ev: Event<nat>)
    requires Ends(start, s, r, a, c, ev) && c.pc.Panicked?
    ensures c.op.Read? && AbsOf(s) == AbsOf(start) && Crowded(AbsOf(s), Id(r, c.op.ord))
  {
    hide Inv, I.Inv, AbsOf, L.SpecOf, O.Supports, Solo.Had, Solo.UpToDate, Solo.OthersRest;
    WorkEvent(start, s, r, a, ev);
    PanicsIdly(c, s.slots[r].cell, ev);
    CrowdLifts(s, r, c.op.ord);
  }

  lemma PanicsIdly(c: P.Call, cell: P.Cell, ev: Event<nat>)
    requires Solo.Had(c, cell, ev) && c.pc.Panicked?
    ensures ev.Tau?
  {
  }

  lemma CrowdLifts(s: Store, r: SlotRef, o: nat)
    requires r in s.slots && Crowded(L.SpecOf(s.slots[r]), o)
    ensures Crowded(AbsOf(s), Id(r, o))
  {
    hide AbsOf, L.SpecOf;
    AbsAt(s, r, o);
  }

  /** A call that has no guard releases none. */
  lemma NothingToRelease(c: P.Slot, t: Spec<nat>, a: P.CallId, ev: Event<nat>)
    requires a !in c.calls && SpecStep(L.SpecOf(c), t, a, ev)
    ensures !ev.EvUnlockRead? && !ev.EvUnlockWrite? && !ev.EvRemoveLocked?
  {
    assert a !in I.ReadHolders(c.calls) && a !in I.WriteHolders(c.calls);
  }

  /** How a call that has just begun can end. */
  predicate BegunEnd(c: P.Call, ev: Event<nat>) {
    || c.pc == P.Done(P.NotFound) || c.pc == P.Done(P.TimedOut)
    || match c.op
       case Insert(_) => false
       case Read(k) => c.pc.Panicked? || (c.pc.ReadHeld? && ev == EvLockRead(k))
       case Write(k) => c.pc.WriteHeld? && ev == EvLockWrite(k)
       case Remove(k) => c.pc.Done? && c.pc.outcome.Removed? && ev == EvRemove(k, c.pc.outcome.element)
  }

  lemma BegunEnds(start: Store, s: Store, r: SlotRef, a: P.CallId, c: P.Call, ev: Event<nat>)
    requires Ends(start, s, r, a, c, ev) && !Solo.Stuck(c) && a !in start.slots[r].calls && !c.op.Insert?
    ensures BegunEnd(c, ev)
  {
    hide Inv, I.Inv, SpecStep, BegunEnd, P.Shape, F.Busy, Solo.Had, Solo.UpToDate, Solo.Evident, Solo.OthersRest;
    F.AlwaysShaped(s.slots[r], a);
    NothingToRelease(start.slots[r], L.SpecOf(s.slots[r]), a, ev);
    HadEnds(c, s.slots[r].cell, ev);
  }

  lemma HadEnds(c: P.Call, cell: P.Cell, ev: Event<nat>)
    requires Solo.Had(c, cell, ev) && P.Shape(c) && !F.Busy(c) && !c.op.Insert?
    requires !ev.EvUnlockRead? && !ev.EvUnlockWrite? && !ev.EvRemoveLocked?
    ensures BegunEnd(c, ev)
  {
  }
  lemma EndsWorking(start: Store, s: Store, r: SlotRef, a: P.CallId, c: P.Call, ev: Event<nat>)
    requires Ends(start, s, r, a, c, ev)
    ensures Working(start, s, r, a, ev) && s.slots[r].calls[a] == c && (!F.Busy(c) || Solo.Stuck(c))
    ensures Inv(s) && s.used == start.used + {a} && s.buckets == start.buckets && r in start.slots
    ensures s.erasures == start.erasures + (if Erases(c) then [r] else [])
  {
  }

  // ----- a call alone in a bucket

  /** Only call `a` is in the bucket, and the block it may have to add is not too long. */
  predicate AloneIn(b: B.Bucket, a: P.CallId) {
    && b.calls.Keys == {a}
    && (b.calls[a].SlowRefetch? || Carrying(b.calls[a]) || b.blocks <= MAX_BLOCK)
  }

  /** A bound on the steps to come in the bucket. */
  function BucketRank(pc: B.Pc): nat {
    match pc
    case WantRead => 8
    case FastFetch => 7
    case FastMiss(_) => 6
    case WantWrite(_) => 5
    case SlowFetch(_) => 4
    case SlowExpand(_) => 3
    case SlowRefetch => 2
    case FastHit(_) => 1
    case SlowHit(_) => 1
  }

  lemma AloneStep(b: B.Bucket, a: P.CallId)
    requires B.Inv(b) && AloneIn(b, a)
    ensures B.Enabled(b, a)
    ensures var t := B.Next(b, a);
      if Carrying(b.calls[a]) then t.calls == map[]
      else AloneIn(t, a) && BucketRank(t.calls[a]) < BucketRank(b.calls[a])
  {
    AloneEnabled(b, a);
    if Carrying(b.calls[a]) { assert B.Next(b, a).calls == map[]; }
  }

  lemma AloneEnabled(b: B.Bucket, a: P.CallId)
    requires B.Inv(b) && AloneIn(b, a)
    ensures B.Enabled(b, a)
  {
    assert b.calls.Keys == {a} && B.PcInv(b, b.calls[a]);
    if !B.Writing(b.calls[a]) { assert b.writer == {}; }
    if !B.Reading(b.calls[a]) { assert B.Readers(b) == {}; }
    if b.calls[a].SlowRefetch? { B.RefetchHits(b, a); }
  }

  /** The location that call `a`, alone in the bucket, is going to get. */
  function DueTo(b: B.Bucket, a: P.CallId): B.Location
    requires a in b.calls
  {
    match b.calls[a]
    case FastHit(l) => l
    case SlowHit(l) => l
    case _ => NextLocation(b)
  }

  /** The first unused slot of the head, or else the first slot of the next block. */
  function NextLocation(b: B.Bucket): B.Location {
    if B.Hits(b) then B.Offered(b) else B.Location(b.blocks, 0)
  }

  /** A bucket after location `l` was handed out, nobody being inside. */
  function HandedUpTo(l: B.Location, limit: nat): B.Bucket {
    B.Bucket(l.block + 1, l.slot + 1, {}, map[], limit)
  }

  /** The bucket is as it will be left by the call that has location `l`, but for the call. */
  predicate HeadAt(b: B.Bucket, l: B.Location) {
    b.blocks == l.block + 1 && b.nextUnused == l.slot + 1
  }

  /** The slot is the next one of its bucket that was never used, and now it is used. */
  predicate FreshlyHandedOut(pre: seq<B.Bucket>, post: seq<B.Bucket>, r: SlotRef) {
    && r.bucket < |pre|
    && var b := pre[r.bucket];
       r == RefOf(r.bucket, NextLocation(b)) && post == pre[r.bucket := HandedUpTo(NextLocation(b), b.limit)]
  }

  /** A call that is alone gets the location due to it. */
  lemma DueStays(b: B.Bucket, a: P.CallId)
    requires B.Inv(b) && AloneIn(b, a) && B.Enabled(b, a) && !Carrying(b.calls[a])
    ensures var t := B.Next(b, a);
      && a in t.calls && DueTo(t, a) == DueTo(b, a) && t.limit == b.limit
      && (Carrying(t.calls[a]) ==> HeadAt(t, DueTo(b, a)))
  {
    assert B.PcInv(b, b.calls[a]);
    B.OvershootBound(b);
    assert HeadLen(b.blocks + 1) > 0;
  }

  lemma LeavesBucket(b: B.Bucket, a: P.CallId)
    requires B.Inv(b) && AloneIn(b, a) && B.Enabled(b, a) && Carrying(b.calls[a]) && HeadAt(b, DueTo(b, a))
    ensures B.Next(b, a) == HandedUpTo(DueTo(b, a), b.limit)
  {
    assert B.Next(b, a).calls == map[];
    if b.calls[a].FastHit? { assert b.writer == {}; }
  }

  /** Nobody but call `a` is in the middle of anything. */
  predicate OthersRest(s: Store, a: P.CallId) {
    forall r :: r in s.slots ==> Solo.OthersRest(s.slots[r], a)
  }

  predicate OtherBucketsRest(s: Store, k: nat) {
    forall j :: 0 <= j < |s.buckets| && j != k ==> s.buckets[j].calls == map[]
  }

  /** Insertion `a` of element `e` is looking for a slot in bucket `k`. */
  ghost predicate Looking(s: Store, k: nat, a: P.CallId, e: P.Element) {
    && Inv(s) && k < BUCKET_COUNT && OtherBucketsRest(s, k) && AloneIn(s.buckets[k], a) && OthersRest(s, a)
    && a in s.elements && s.elements[a] == e
    && (Carrying(s.buckets[k].calls[a]) ==>
          && InsertsAt(s, RefOf(k, s.buckets[k].calls[a].location), a, e)
          && HeadAt(s.buckets[k], s.buckets[k].calls[a].location))
  }

  /** Slot `r` is there for insertion `a` of element `e`. */
  predicate InsertsAt(s: Store, r: SlotRef, a: P.CallId, e: P.Element) {
    r in s.slots && a in s.slots[r].calls && s.slots[r].calls[a].op == P.Insert(e)
  }

  /** Insertion `a` of element `e` has been given slot `r`. */
  ghost predicate Given(s: Store, r: SlotRef, a: P.CallId, e: P.Element) {
    && Inv(s) && BucketsRest(s) && OthersRest(s, a)
    && InsertsAt(s, r, a, e) && s.slots[r].calls[a].pc.InsertWrite?
  }

  lemma LookStep(s: Store, k: nat, a: P.CallId, e: P.Element)
    requires Looking(s, k, a, e)
    ensures Enabled(s, a, Allocate(k))
    ensures var t := Next(s, a, Allocate(k));
      && Inv(t) && AbsOf(t) == AbsOf(s) && OtherBucketsRest(t, k) && t.used == s.used && t.elements == s.elements
      && t.erasures == s.erasures && t.buckets == s.buckets[k := B.Next(s.buckets[k], a)]
      && OthersRest(t, a)
  {
    hide AbsOf, AloneIn, Inv;
    BucketSound(s, k);
    AloneStep(s.buckets[k], a);
    AllocateReady(s, a, k);
    StepKeepsInv(s, a, Allocate(k));
    StepRefines(s, a, Allocate(k));
    LookKeepsRest(s, k, a);
  }

  /** The slot that is fetched is reserved for the element. */
  lemma LookReserves(s: Store, k: nat, a: P.CallId)
    requires Enabled(s, a, Allocate(k)) && a in s.elements && !Carrying(s.buckets[k].calls[a])
    requires a in Next(s, a, Allocate(k)).buckets[k].calls
    requires Carrying(Next(s, a, Allocate(k)).buckets[k].calls[a])
    ensures var t := Next(s, a, Allocate(k));
      InsertsAt(t, RefOf(k, t.buckets[k].calls[a].location), a, s.elements[a])
  {
    assert B.FetchesNow(s.buckets[k], a);
  }

  lemma LookingCall(s: Store, k: nat, a: P.CallId, e: P.Element)
    requires Looking(s, k, a, e)
    ensures k < |s.buckets| && a in s.buckets[k].calls
  {
    hide Inv;
    BucketSound(s, k);
  }

  lemma BucketSound(s: Store, k: nat)
    requires Inv(s) && k < BUCKET_COUNT
    ensures |s.buckets| == BUCKET_COUNT && B.Inv(s.buckets[k])
  {
  }

  lemma LookKeepsRest(s: Store, k: nat, a: P.CallId)
    requires Enabled(s, a, Allocate(k)) && OthersRest(s, a)
    ensures OthersRest(Next(s, a, Allocate(k)), a)
  {
    hide B.FetchesNow, B.Next, B.Enabled;
  }

  lemma CarriesSlot(s: Store, k: nat, a: P.CallId)
    requires Inv(s) && k < BUCKET_COUNT && a in s.buckets[k].calls && Carrying(s.buckets[k].calls[a])
    ensures var r := RefOf(k, s.buckets[k].calls[a].location);
      r in s.slots && a in s.slots[r].calls && s.slots[r].calls[a].pc.InsertWrite?
  {
    hide SlotsInv, FreshInv, ErasuresInv;
    assert Placed(s, k, a);
  }

  lemma LookGoesOn(s: Store, k: nat, a: P.CallId, e: P.Element)
    requires Looking(s, k, a, e)
    ensures Enabled(s, a, Allocate(k))
    ensures var t := Next(s, a, Allocate(k));
      && AbsOf(t) == AbsOf(s) && t.used == s.used && t.erasures == s.erasures
      && t.buckets == s.buckets[k := t.buckets[k]]
      && if Carrying(s.buckets[k].calls[a])
         then && Given(t, RefOf(k, s.buckets[k].calls[a].location), a, e)
              && t.buckets[k] == HandedUpTo(DueTo(s.buckets[k], a), s.buckets[k].limit)
         else && Looking(t, k, a, e) && BucketRank(t.buckets[k].calls[a]) < BucketRank(s.buckets[k].calls[a])
              && DueTo(t.buckets[k], a) == DueTo(s.buckets[k], a) && t.buckets[k].limit == s.buckets[k].limit
  {
    hide AbsOf, Inv;
    LookStep(s, k, a, e);
    BucketSound(s, k);
    AloneStep(s.buckets[k], a);
    if Carrying(s.buckets[k].calls[a]) {
      CarriesSlot(s, k, a);
      LeavesBucket(s.buckets[k], a);
    } else {
      DueStays(s.buckets[k], a);
    }
    if !Carrying(s.buckets[k].calls[a]) && Carrying(Next(s, a, Allocate(k)).buckets[k].calls[a]) {
      LookReserves(s, k, a);
    }
  }

  // ----- answers

  function RemoveResponse(c: P.Call): Response<P.Element> {
    match c.pc
    case Done(o) => (match o case Removed(e) => Found(e) case NotFound => Absent case _ => TimedOut)
    case Parked(_) => Asleep
    case _ => Panic
  }

  function LockResponse(c: P.Call, g: Guard): Response<Guard> {
    match c.pc
    case ReadHeld => Found(g)
    case WriteHeld => Found(g)
    case Done(o) => if o.NotFound? then Absent else TimedOut
    case Parked(_) => Asleep
    case _ => Panic
  }

  /** What the end of a call, or its sleep, says about the abstract map before it. */
  predicate Tells(pre: Spec<Id>, post: Spec<Id>, id: Id, a: P.CallId, c: P.Call, ev: Event<nat>) {
    && (Solo.Stuck(c) || BegunEnd(c, ev)) && !c.op.Insert? && c.op.ord == id.ord
    && !(id in pre.live && id in pre.gone)
    && SpecStep(pre, post, a, Lift(id.slot, ev))
    && (c.pc == P.Done(P.NotFound) ==> post == pre && id in pre.gone)
    && (c.pc == P.Done(P.TimedOut) || Solo.Stuck(c) ==>
          && post == pre && Justifies(pre, c.op, id, P.TimedOut)
          && (Solo.Stuck(c) <==> c.timeout.BlockIndefinitely?))
    && (c.pc.Panicked? ==> post == pre && Crowded(pre, id))
  }

  /** All about the end of a call that has just begun. */
  lemma Finished(start: Store, s: Store, id: Id, a: P.CallId, c: P.Call, ev: Event<nat>)
    requires Inv(start) && a !in start.used
    requires Ends(start, s, id.slot, a, c, ev) && !c.op.Insert? && c.op.ord == id.ord && Known(AbsOf(start), id)
    ensures Inv(s) && (!Solo.Stuck(c) ==> AtRest(s)) && s.used == start.used + {a} && s.buckets == start.buckets
    ensures s.erasures == start.erasures + (if Erases(c) then [id.slot] else [])
    ensures Tells(AbsOf(start), AbsOf(s), id, a, c, ev)
  {
    hide Ends, AbsOf, AtRest, SpecStep, Justifies, Crowded, Inv, I.Inv, BegunEnd;
    assert id == Id(id.slot, id.ord);
    EndsWorking(start, s, id.slot, a, c, ev);
    KnownIsIssued(start, id);
    NewHere(start, id.slot, a);
    if Solo.Stuck(c) || c.pc == P.Done(P.TimedOut) { EndsTimedOut(start, s, id.slot, a, c, ev); }
    if c.pc == P.Done(P.NotFound) { EndsAbsent(start, s, id.slot, a, c, ev); }
    if c.pc.Panicked? { EndsPanicked(start, s, id.slot, a, c, ev); }
    WorkEvent(start, s, id.slot, a, ev);
    if !Solo.Stuck(c) {
      BegunEnds(start, s, id.slot, a, c, ev);
      WorkDone(start, s, id.slot, a, ev);
    }
  }

  /** The answer to a call that needs the element without guards, or without a writer. */
  predicate Answers<T>(result: Response<T>, pre: Spec<Id>, post: Spec<Id>, id: Id, locked: bool, timeout: P.Timeout) {
    && (result.Absent? <==> id in pre.gone)
    && (result.TimedOut? <==> id in pre.live && locked && !timeout.BlockIndefinitely?)
    && (result.Asleep? <==> id in pre.live && locked && timeout.BlockIndefinitely?)
    && (!result.Found? ==> post == pre)
  }

  lemma RemoveAnswers(pre: Spec<Id>, post: Spec<Id>, id: Id, a: P.CallId, c: P.Call, ev: Event<nat>)
    requires Tells(pre, post, id, a, c, ev) && c.op.Remove?
    ensures
      var result := RemoveResponse(c);
      && Answers(result, pre, post, id, id in pre.live && !pre.live[id].Free(), c.timeout)
      && (result.Found? ==> SpecStep(pre, post, a, EvRemove(id, result.value)))
      && !result.Panic?
  {
    assert id == Id(id.slot, id.ord);
  }

  lemma WriteAnswers(pre: Spec<Id>, post: Spec<Id>, id: Id, a: P.CallId, c: P.Call, ev: Event<nat>)
    requires Tells(pre, post, id, a, c, ev) && c.op.Write?
    ensures
      var result := LockResponse(c, Guard(id, a));
      && Answers(result, pre, post, id, id in pre.live && !pre.live[id].Free(), c.timeout)
      && (result.Found? ==> SpecStep(pre, post, a, EvLockWrite(id)))
      && !result.Panic? && !Erases(c)
  {
    assert id == Id(id.slot, id.ord);
  }

  lemma ReadAnswers(pre: Spec<Id>, post: Spec<Id>, id: Id, a: P.CallId, c: P.Call, ev: Event<nat>)
    requires Tells(pre, post, id, a, c, ev) && c.op.Read?
    requires Crowded(pre, id) ==> pre.live[id].writers == {}
    requires id in post.live ==> |post.live[id].readers| <= HeaderWord.MAX_CONCURRENT_READS
    ensures
      var result := LockResponse(c, Guard(id, a));
      && Answers(result, pre, post, id, id in pre.live && pre.live[id].writers != {}, c.timeout)
      && (result.Panic? <==> Crowded(pre, id))
      && (result.Found? ==> SpecStep(pre, post, a, EvLockRead(id)))
      && !Erases(c)
  {
    assert id == Id(id.slot, id.ord);
  }

  /** Only a sleeping call is stuck. */
  lemma StuckIsParked(c: P.Call)
    ensures Solo.Stuck(c) ==> c.pc.Parked?
  {
  }

  // ----- guards

  /** Where a guard is in the machine, and what it sees. */
  lemma GuardAt(s: Store, g: Guard)
    requires Inv(s) && AtRest(s) && g.id in AbsOf(s).live
    requires g.call in AbsOf(s).live[g.id].readers || g.call in AbsOf(s).live[g.id].writers
    ensures g.id.slot in s.slots && g.call in s.slots[g.id.slot].calls && I.Inv(s.slots[g.id.slot])
    ensures
      var c := s.slots[g.id.slot].calls[g.call];
      && (g.call in AbsOf(s).live[g.id].readers ==> c.pc.ReadHeld? && c.op == P.Read(g.id.ord))
      && (g.call in AbsOf(s).live[g.id].writers ==> c.pc.WriteHeld? && c.op == P.Write(g.id.ord))
    ensures s.slots[g.id.slot].cell == P.Init(AbsOf(s).live[g.id].element)
    ensures g.call in s.used
  {
    hide AbsOf, FreshInv, ErasuresInv, BucketsInv;
    AbsAt(s, g.id.slot, g.id.ord);
    assert g.id == Id(g.id.slot, g.id.ord);
    GuardInSlot(s.slots[g.id.slot], g.id.ord, g.call);
  }

  lemma GuardInSlot(c: P.Slot, ord: nat, a: P.CallId)
    requires I.Inv(c) && Solo.AllRest(c) && ord in L.SpecOf(c).live
    requires a in L.SpecOf(c).live[ord].readers || a in L.SpecOf(c).live[ord].writers
    ensures a in c.calls && c.cell == P.Init(L.SpecOf(c).live[ord].element)
    ensures a in L.SpecOf(c).live[ord].readers ==> c.calls[a].pc.ReadHeld? && c.calls[a].op == P.Read(ord)
    ensures a in L.SpecOf(c).live[ord].writers ==> c.calls[a].pc.WriteHeld? && c.calls[a].op == P.Write(ord)
  {
    F.AlwaysShaped(c, a);
    F.GuardSeesValue(c, a);
    I.InvMoves(c, a);
  }

  /** How a guard ends. */
  lemma ReleaseEnds(start: Store, s: Store, r: SlotRef, a: P.CallId, c: P.Call, ev: Event<nat>)
    requires Ends(start, s, r, a, c, ev) && Solo.TrackOf(c.pc) != Solo.Open
    ensures Inv(s) && AtRest(s) && s.used == start.used + {a} && s.buckets == start.buckets
    ensures s.erasures == start.erasures + (if Erases(c) then [r] else [])
    ensures SpecStep(AbsOf(start), AbsOf(s), a, Lift(r, ev))
    ensures Solo.TrackOf(c.pc) == Solo.Releasing ==> Solo.HadUnlock(c.op, ev) && !Erases(c)
    ensures Solo.TrackOf(c.pc) == Solo.Evacuating ==>
              c.pc.Done? && c.pc.outcome.Removed? && Solo.HadRemoved(c.op, c.pc.outcome.element, ev)
    ensures Solo.TrackOf(c.pc) == Solo.Filling ==>
              c.pc.Done? && c.pc.outcome.Inserted? && c.op.Insert? && ev == EvInsert(c.pc.outcome.ord, c.op.element)
  {
    hide Inv, I.Inv, AbsOf, SpecStep, Solo.UpToDate, Solo.Evident;
    EndsWorking(start, s, r, a, c, ev);
    WorkDone(start, s, r, a, ev);
  }

  /** There are never more readers than there may be. */
  lemma ReadersBounded(s: Store, id: Id)
    requires Inv(s)
    ensures id in AbsOf(s).live ==> |AbsOf(s).live[id].readers| <= HeaderWord.MAX_CONCURRENT_READS
  {
    hide AbsOf, FreshInv, ErasuresInv, BucketsInv, CallsInv;
    AbsAt(s, id.slot, id.ord);
    assert id == Id(id.slot, id.ord);
    if id in AbsOf(s).live { F.GuardsCounted(s.slots[id.slot]); }
  }

  class RwStore {
    var s: Store
    var nextCall: P.CallId

    ghost predicate Valid()
      reads this
    {
      && Inv(s) && AtRest(s)
      && (forall a :: a in s.used ==> a < nextCall)
      && Roomy(s)
    }

    /** The elements with their guards, and the identifiers that were removed. */
    ghost function Abs(): Spec<Id>
      reads this
    {
      AbsOf(s)
    }

    constructor ()
      ensures Valid() && Abs() == Spec(map[], {})
    {
      hide Inv, AtRest, AbsOf, NewStore, Roomy;
      s := NewStore(1);
      nextCall := 0;
      EmptyStore(1);
    }

    /** Runs call `a` at slot `r` until it rests, or sleeps without a deadline. */
    method Run(ghost start: Store, r: SlotRef, a: P.CallId, ghost ev: Event<nat>)
      returns (c: P.Call, ghost last: Event<nat>)
      requires Working(start, s, r, a, ev)
      modifies `s
      ensures Ends(start, s, r, a, c, last)
      ensures OnTrack(old(s.slots[r].calls[a]), c)
    {
      last := ev;
      RunningCall(start, s, r, a, last);
      while F.Busy(s.slots[r].calls[a]) && !Solo.Stuck(s.slots[r].calls[a])
        invariant Working(start, s, r, a, last) && r in s.slots && a in s.slots[r].calls
        invariant OnTrack(old(s.slots[r].calls[a]), s.slots[r].calls[a])
        decreases Solo.Rank(s.slots[r].calls[a].pc)
      {
        last := WorkStep(start, s, r, a, last);
        s := Next(s, a, AtSlot(r, Solo.SoloMove(s.slots[r].calls[a])));
      }
      c := s.slots[r].calls[a];
    }

    /** Begins a call at a slot and runs it. */
    method Call(r: SlotRef, op: P.Op, timeout: P.Timeout) returns (c: P.Call, ghost last: Event<nat>)
      requires Valid() && !op.Insert? && r in s.slots && op.ord in s.slots[r].issued
      modifies this
      ensures Ends(old(s), s, r, old(nextCall), c, last) && nextCall == old(nextCall) + 1
      ensures c.op == op && c.timeout == timeout && Made(s, r, old(nextCall), op, timeout)
    {
      hide Inv, I.Inv, Working, Ends, AtRest, AbsOf;
      var a := nextCall;
      ghost var start := s;
      nextCall := nextCall + 1;
      CallBegins(s, r, a, op, timeout);
      s := Next(s, a, AtSlot(r, P.Begin(op, timeout)));
      c, last := Run(start, r, a, Tau);
      EndsWorking(start, s, r, a, c, last);
      RunningCall(start, s, r, a, last);
    }

    /** `remove_with_timeout`; `remove` is the same without a deadline. */
    method Remove(id: Id, timeout: P.Timeout) returns (result: Response<P.Element>)
      requires Valid() && Known(Abs(), id)
      modifies this
      ensures (!result.Asleep? ==> Valid()) && nextCall == old(nextCall) + 1
      ensures Made(s, id.slot, old(nextCall), P.Remove(id.ord), timeout)
      ensures Answers(result, old(Abs()), Abs(), id,
                      id in old(Abs()).live && !old(Abs()).live[id].Free(), timeout)
      ensures result.Found? ==> SpecStep(old(Abs()), Abs(), old(nextCall), EvRemove(id, result.value))
      ensures !result.Panic?
      ensures s.erasures == old(s.erasures) + Erasure(result.Found?, id) && s.buckets == old(s.buckets)
    {
      hide Inv, I.Inv, AbsOf, AtRest, Ends, SpecStep, Tells, Answers, Solo.Stuck;
      ghost var start, a := s, nextCall;
      KnownIsIssued(s, id);
      NewHere(s, id.slot, nextCall);
      var c; ghost var ev;
      c, ev := Call(id.slot, P.Remove(id.ord), timeout);
      Finished(start, s, id, a, c, ev);
      RemoveAnswers(AbsOf(start), AbsOf(s), id, a, c, ev);
      StuckIsParked(c);
      result := RemoveResponse(c);
    }

    /** `read_with_timeout`. */
    method Read(id: Id, timeout: P.Timeout) returns (result: Response<Guard>)
      requires Valid() && Known(Abs(), id)
      modifies this
      ensures (!result.Asleep? ==> Valid()) && nextCall == old(nextCall) + 1
      ensures Made(s, id.slot, old(nextCall), P.Read(id.ord), timeout)
      ensures Answers(result, old(Abs()), Abs(), id,
                      id in old(Abs()).live && old(Abs()).live[id].writers != {}, timeout)
      ensures result.Panic? <==> Crowded(old(Abs()), id)
      ensures result.Found? ==> result.value == Guard(id, old(nextCall))
      ensures result.Found? ==> SpecStep(old(Abs()), Abs(), old(nextCall), EvLockRead(id))
      ensures s.erasures == old(s.erasures) && s.buckets == old(s.buckets)
    {
      hide Inv, I.Inv, AbsOf, AtRest, Ends, SpecStep, Tells, Answers, Solo.Stuck, Crowded;
      ghost var start, a := s, nextCall;
      KnownIsIssued(s, id);
      NewHere(s, id.slot, nextCall);
      var c; ghost var ev;
      c, ev := Call(id.slot, P.Read(id.ord), timeout);
      Finished(start, s, id, a, c, ev);
      CrowdIsUnlocked(start, id);
      ReadersBounded(s, id);
      ReadAnswers(AbsOf(start), AbsOf(s), id, a, c, ev);
      StuckIsParked(c);
      result := LockResponse(c, Guard(id, nextCall - 1));
    }

    /** `write_with_timeout`. */
    method Write(id: Id, timeout: P.Timeout) returns (result: Response<Guard>)
      requires Valid() && Known(Abs(), id)
      modifies this
      ensures (!result.Asleep? ==> Valid()) && nextCall == old(nextCall) + 1
      ensures Made(s, id.slot, old(nextCall), P.Write(id.ord), timeout)
      ensures Answers(result, old(Abs()), Abs(), id,
                      id in old(Abs()).live && !old(Abs()).live[id].Free(), timeout)
      ensures result.Found? ==> result.value == Guard(id, old(nextCall))
      ensures result.Found? ==> SpecStep(old(Abs()), Abs(), old(nextCall), EvLockWrite(id))
      ensures !result.Panic?
      ensures s.erasures == old(s.erasures) && s.buckets == old(s.buckets)
    {
      hide Inv, I.Inv, AbsOf, AtRest, Ends, SpecStep, Tells, Answers, Solo.Stuck;
      ghost var start, a := s, nextCall;
      KnownIsIssued(s, id);
      NewHere(s, id.slot, nextCall);
      var c; ghost var ev;
      c, ev := Call(id.slot, P.Write(id.ord), timeout);
      Finished(start, s, id, a, c, ev);
      WriteAnswers(AbsOf(start), AbsOf(s), id, a, c, ev);
      StuckIsParked(c);
      result := LockResponse(c, Guard(id, nextCall - 1));
    }

    /** `Deref` of a guard. */
    method Look(g: Guard) returns (element: P.Element)
      requires Valid() && g.id in Abs().live
      requires g.call in Abs().live[g.id].readers || g.call in Abs().live[g.id].writers
      ensures element == Abs().live[g.id].element
    {
      GuardAt(s, g);
      element := s.slots[g.id.slot].cell.element;
    }

    /** Dropping a read guard. */
    method DropRead(g: Guard)
      requires Valid() && g.id in Abs().live && g.call in Abs().live[g.id].readers
      modifies `s
      ensures Valid() && SpecStep(old(Abs()), Abs(), g.call, EvUnlockRead(g.id))
      ensures s.erasures == old(s.erasures) && s.buckets == old(s.buckets)
    {
      hide Inv, I.Inv, AbsOf, AtRest, Ends, Working, SpecStep;
      ghost var start := s;
      GuardAt(s, g);
      ReadGuardLeaves(s, g);
      s := Next(s, g.call, AtSlot(g.id.slot, P.Go));
      var c; ghost var ev;
      c, ev := Run(start, g.id.slot, g.call, Tau);
      ReleaseEnds(start, s, g.id.slot, g.call, c, ev);
      assert g.id == Id(g.id.slot, g.id.ord);
    }

    /** Dropping a write guard. */
    method DropWrite(g: Guard)
      requires Valid() && g.id in Abs().live && g.call in Abs().live[g.id].writers
      modifies `s
      ensures Valid() && SpecStep(old(Abs()), Abs(), g.call, EvUnlockWrite(g.id))
      ensures s.erasures == old(s.erasures) && s.buckets == old(s.buckets)
    {
      hide Inv, I.Inv, AbsOf, AtRest, Ends, Working, SpecStep;
      ghost var start := s;
      GuardAt(s, g);
      WriteGuardLeaves(s, g);
      s := Next(s, g.call, AtSlot(g.id.slot, P.Go));
      var c; ghost var ev;
      c, ev := Run(start, g.id.slot, g.call, EvUnlockWrite(g.id.ord));
      ReleaseEnds(start, s, g.id.slot, g.call, c, ev);
      assert g.id == Id(g.id.slot, g.id.ord);
    }

    /** Removal through a write guard: always succeeds, without waiting. */
    method RemoveLocked(g: Guard) returns (element: P.Element)
      requires Valid() && g.id in Abs().live && g.call in Abs().live[g.id].writers
      modifies `s
      ensures Valid() && SpecStep(old(Abs()), Abs(), g.call, EvRemoveLocked(g.id, element))
      ensures s.erasures == old(s.erasures) + Erasure(true, g.id) && s.buckets == old(s.buckets)
    {
      hide Inv, I.Inv, AbsOf, AtRest, Ends, Working, SpecStep;
      ghost var start := s;
      GuardAt(s, g);
      TakingGuardLeaves(s, g);
      s := Next(s, g.call, AtSlot(g.id.slot, P.TakeLocked));
      var c; ghost var ev;
      c, ev := Run(start, g.id.slot, g.call, Tau);
      ReleaseEnds(start, s, g.id.slot, g.call, c, ev);
      assert g.id == Id(g.id.slot, g.id.ord);
      element := c.pc.outcome.element;
    }

    /** `DerefMut` of a write guard, and an assignment. */
    method Assign(g: Guard, payload: int)
      requires Valid() && g.id in Abs().live && g.call in Abs().live[g.id].writers
      modifies `s
      ensures Valid() && SpecStep(old(Abs()), Abs(), g.call, EvAssign(g.id, payload))
      ensures s.erasures == old(s.erasures) && s.buckets == old(s.buckets)
    {
      hide Inv, I.Inv, AbsOf, SpecStep;
      GuardAt(s, g);
      Assigns(s, g, payload);
      s := Next(s, g.call, AtSlot(g.id.slot, P.Mutate(payload)));
    }

    /** `Bucket::next_insert_location`: the way of insertion `a` through bucket `k`. */
    method NextInsertLocation(k: nat, a: P.CallId, ghost e: P.Element) returns (r: SlotRef)
      requires Looking(s, k, a, e)
      modifies `s
      ensures Given(s, r, a, e) && Abs() == old(Abs()) && s.used == old(s.used) && Roomy(s) == old(Roomy(s))
      ensures r == RefOf(k, old(DueTo(s.buckets[k], a)))
      ensures s.buckets == old(s.buckets)[k := HandedUpTo(old(DueTo(s.buckets[k], a)), old(s.buckets[k].limit))]
      ensures s.erasures == old(s.erasures)
    {
      hide AbsOf, Inv;
      hide Looking, Given, Roomy;
      ghost var pre := s;
      LookingCall(s, k, a, e);
      while !Carrying(s.buckets[k].calls[a])
        invariant Looking(s, k, a, e) && k < |s.buckets| && a in s.buckets[k].calls
        invariant AbsOf(s) == AbsOf(pre) && s.used == pre.used && Roomy(s) == Roomy(pre)
        invariant DueTo(s.buckets[k], a) == DueTo(pre.buckets[k], a) && s.buckets[k].limit == pre.buckets[k].limit
        invariant s.erasures == pre.erasures && s.buckets == pre.buckets[k := s.buckets[k]]
        decreases BucketRank(s.buckets[k].calls[a])
      {
        LookGoesOn(s, k, a, e);
        SameRoom(s, k, a);
        s := Next(s, a, Allocate(k));
        LookingCall(s, k, a, e);
      }
      r := RefOf(k, s.buckets[k].calls[a].location);
      LookGoesOn(s, k, a, e);
      SameRoom(s, k, a);
      s := Next(s, a, Allocate(k));
    }

    /** `capacity`, which underflows nowhere when no operation is going on. */
    method Capacity() returns (touched: nat, total: nat, fits: bool)
      requires Valid()
      ensures touched == |C.Touched(s)| && total == |s.slots|
      ensures fits <==> touched < TWO32 && total < TWO32
    {
      var underflow;
      RestIsCalm(s);
      touched, total, underflow, fits := C.StoreCapacity(s);
      assert !underflow;
    }

    /** `insert`; `thread` is the generator of the calling thread, used only if no erasure can be reused. */
    method Insert(payload: int, thread: BucketChoice.Chooser) returns (id: Id)
      requires Valid() && thread.Valid()
      requires s.erasures == [] ==> s.buckets[thread.NextBucket()].blocks <= MAX_BLOCK
      modifies this, thread
      ensures Valid() && nextCall == old(nextCall) + 1
      ensures SpecStep(old(Abs()), Abs(), old(nextCall), EvInsert(id, P.Element(old(nextCall), payload)))
      ensures thread.Valid()
      ensures
        thread.made == if old(s.erasures) != [] then old(thread.made) else old(thread.made) + [old(thread.NextBucket())]
      ensures old(s.erasures) != [] ==>
                id.slot == old(s.erasures)[0] && s.erasures == old(s.erasures)[1..] && s.buckets == old(s.buckets)
      ensures old(s.erasures) == [] ==>
                && s.erasures == [] && id.slot.bucket == old(thread.NextBucket())
                && FreshlyHandedOut(old(s.buckets), s.buckets, id.slot)
    {
      hide Inv, I.Inv, AbsOf, AtRest, Ends, Working, SpecStep, Looking, Given;
      var a, e := nextCall, P.Element(nextCall, payload);
      nextCall := nextCall + 1;
      var r;
      if s.erasures != [] {
        r := s.erasures[0];
        Starts(s, a, e, 0);
        s := Next(s, a, StartInsert(e, 0));
      } else {
        var k := thread.ArbitraryBucketId();
        Starts(s, a, e, k);
        s := Next(s, a, StartInsert(e, k));
        r := NextInsertLocation(k, a, e);
      }
      ghost var start := s;
      GivenWorks(s, r, a, e);
      var c; ghost var ev;
      c, ev := Run(start, r, a, Tau);
      ReleaseEnds(start, s, r, a, c, ev);
      id := Id(r, c.pc.outcome.ord);
    }
  }

  /** At rest no bucket is locked and no miss is pending. */
  lemma RestIsCalm(s: Store)
    requires BucketsInv(s) && BucketsRest(s)
    ensures forall k :: 0 <= k < BUCKET_COUNT ==> s.buckets[k].writer == {}
    ensures C.PendingBelow(s.buckets, BUCKET_COUNT) == 0
  {
    forall k | 0 <= k < BUCKET_COUNT ensures s.buckets[k].writer == {} && B.Missers(s.buckets[k]) == {} {
      assert B.Inv(s.buckets[k]) && s.buckets[k].calls == map[];
    }
    NothingPending(s.buckets, BUCKET_COUNT);
  }

  lemma {:induction false} NothingPending(bs: seq<B.Bucket>, n: nat)
    requires n <= |bs| && forall k :: 0 <= k < n ==> B.Missers(bs[k]) == {}
    ensures C.PendingBelow(bs, n) == 0
  {
    if n > 0 { NothingPending(bs, n - 1); }
  }

  lemma SameRoom(s: Store, k: nat, a: P.CallId)
    requires Enabled(s, a, Allocate(k))
    ensures Roomy(Next(s, a, Allocate(k))) == Roomy(s)
  {
    var t := Next(s, a, Allocate(k));
    assert t.buckets == s.buckets[k := t.buckets[k]] && t.buckets[k].limit == s.buckets[k].limit;
    forall j | 0 <= j < |s.buckets| ensures t.buckets[j].limit == s.buckets[j].limit { }
  }

  lemma StartEnabled(s: Store, a: P.CallId, e: P.Element, k: nat)
    requires ErasuresInv(s) && |s.buckets| == BUCKET_COUNT && BucketsRest(s) && Roomy(s)
    requires a !in s.used && e.token == a && k < BUCKET_COUNT
    ensures Enabled(s, a, StartInsert(e, k))
  {
    assert s.buckets[k].calls == map[];
  }

  /** An erasure is reused. */
  lemma Pops(s: Store, a: P.CallId, e: P.Element, k: nat)
    requires AtRest(s) && Enabled(s, a, StartInsert(e, k)) && s.erasures != []
    ensures var t := Next(s, a, StartInsert(e, k));
      && BucketsRest(t) && OthersRest(t, a) && t.buckets == s.buckets && t.used == s.used + {a}
      && InsertsAt(t, s.erasures[0], a, e) && t.slots[s.erasures[0]].calls[a].pc.InsertWrite?
      && t.erasures == s.erasures[1..]
  {
  }

  /** The insertion goes to its bucket. */
  lemma Enters(s: Store, a: P.CallId, e: P.Element, k: nat)
    requires AtRest(s) && |s.buckets| == BUCKET_COUNT && k < BUCKET_COUNT
    requires Enabled(s, a, StartInsert(e, k)) && s.erasures == []
    requires s.buckets[k].blocks <= MAX_BLOCK && Roomy(s)
    ensures var t := Next(s, a, StartInsert(e, k));
      && OtherBucketsRest(t, k) && OthersRest(t, a)
      && |t.buckets| == BUCKET_COUNT && AloneIn(t.buckets[k], a) && Roomy(t)
      && a in t.elements && t.elements[a] == e && t.used == s.used + {a} && !Carrying(t.buckets[k].calls[a])
      && t.erasures == [] && JustIn(s, t, k, a)
  {
  }

  /** Call `a` is about to go its way through bucket `k`, and nothing else has happened to the buckets. */
  predicate JustIn(s: Store, t: Store, k: nat, a: P.CallId) {
    && k < |s.buckets| == |t.buckets| && t.buckets == s.buckets[k := t.buckets[k]] && a in t.buckets[k].calls
    && DueTo(t.buckets[k], a) == NextLocation(s.buckets[k]) && t.buckets[k].limit == s.buckets[k].limit
  }

  lemma Starts(s: Store, a: P.CallId, e: P.Element, k: nat)
    requires Inv(s) && AtRest(s) && Roomy(s) && a !in s.used && e.token == a && k < BUCKET_COUNT
    requires s.erasures == [] ==> s.buckets[k].blocks <= MAX_BLOCK
    ensures Enabled(s, a, StartInsert(e, k))
    ensures var t := Next(s, a, StartInsert(e, k));
      && AbsOf(t) == AbsOf(s) && t.used == s.used + {a} && Roomy(t)
      && if s.erasures != []
         then Given(t, s.erasures[0], a, e) && t.erasures == s.erasures[1..] && t.buckets == s.buckets
         else Looking(t, k, a, e) && t.erasures == [] && JustIn(s, t, k, a)
  {
    hide AbsOf, SlotsInv, FreshInv, CallsInv, B.Inv, AtRest;
    StartEnabledHere(s, a, e, k);
    StepKeepsInv(s, a, StartInsert(e, k));
    StepRefines(s, a, StartInsert(e, k));
    hide Inv;
    if s.erasures != [] { Pops(s, a, e, k); } else { Enters(s, a, e, k); }
  }

  lemma StartEnabledHere(s: Store, a: P.CallId, e: P.Element, k: nat)
    requires Inv(s) && AtRest(s) && Roomy(s) && a !in s.used && e.token == a && k < BUCKET_COUNT
    ensures Enabled(s, a, StartInsert(e, k)) && |s.buckets| == BUCKET_COUNT
  {
    hide B.Inv, SlotsInv, FreshInv, CallsInv, Solo.AllRest;
    StartEnabled(s, a, e, k);
  }

  /** An insertion that was given its slot can go on there. */
  lemma OneSlotEach(s: Store, r: SlotRef, q: SlotRef, a: P.CallId)
    requires Inv(s) && r in s.slots && q in s.slots && a in s.slots[r].calls && q != r
    ensures a !in s.slots[q].calls
  {
    hide BucketsInv, SlotsInv, FreshInv, ErasuresInv;
  }

  lemma GivenWorks(s: Store, r: SlotRef, a: P.CallId, e: P.Element)
    requires Given(s, r, a, e) && a in s.used
    ensures Working(s, s, r, a, Tau)
    ensures r in s.slots && a in s.slots[r].calls && s.slots[r].calls[a].op == P.Insert(e)
    ensures Solo.TrackOf(s.slots[r].calls[a].pc) == Solo.Filling
  {
    hide Inv, I.Inv, Solo.Running;
    SlotSound(s, r);
    Solo.InsertBegins(s.slots[r], a);
    forall q | q in s.slots && q != r ensures Solo.AllRest(s.slots[q]) {
      OneSlotEach(s, r, q, a);
    }
  }

  lemma Assigns(s: Store, g: Guard, payload: int)
    requires Inv(s) && AtRest(s) && g.id.slot in s.slots && g.call in s.slots[g.id.slot].calls && g.call in s.used
    requires
      var c := s.slots[g.id.slot].calls[g.call];
      c.pc.WriteHeld? && c.op == P.Write(g.id.ord) && s.slots[g.id.slot].cell.Init?
    ensures Enabled(s, g.call, AtSlot(g.id.slot, P.Mutate(payload)))
    ensures
      var t := Next(s, g.call, AtSlot(g.id.slot, P.Mutate(payload)));
      && Inv(t) && AtRest(t) && t.used == s.used && t.buckets == s.buckets
      && SpecStep(AbsOf(s), AbsOf(t), g.call, EvAssign(g.id, payload))
  {
    hide Inv, AbsOf, SpecStep;
    var m := AtSlot(g.id.slot, P.Mutate(payload));
    NobodyInAllocator(s, g.call);
    StepKeepsInv(s, g.call, m);
    StepRefines(s, g.call, m);
    assert g.id == Id(g.id.slot, g.id.ord);
  }

  lemma CrowdIsUnlocked(s: Store, id: Id)
    requires Inv(s)
    ensures Crowded(AbsOf(s), id) ==> AbsOf(s).live[id].writers == {}
  {
    hide AbsOf, FreshInv, ErasuresInv, BucketsInv, CallsInv;
    if Crowded(AbsOf(s), id) { CrowdInSlot(s, id); }
  }

  lemma CrowdInSlot(s: Store, id: Id)
    requires Inv(s) && Crowded(AbsOf(s), id)
    ensures AbsOf(s).live[id].writers == {}
  {
    hide AbsOf, FreshInv, ErasuresInv, BucketsInv, CallsInv;
    AbsAt(s, id.slot, id.ord);
    assert id == Id(id.slot, id.ord);
    F.GuardsCounted(s.slots[id.slot]);
  }

  /** A guard sets out, at its slot. */
  predicate GuardGoes(c: P.Slot, a: P.CallId, mv: P.Move, track: Solo.Track) {
    && a in c.calls && (mv.Go? || mv.TakeLocked?) && P.Enabled(c, a, mv) && !Pushes(c, a, mv)
    && var d := P.Next(c, a, mv);
       && a in d.calls && d.calls[a].op == c.calls[a].op && Solo.TrackOf(d.calls[a].pc) == track
       && !Erases(d.calls[a])
  }

  lemma GuardsGo(c: P.Slot, a: P.CallId)
    requires I.Moves(c, a)
    ensures c.calls[a].pc.ReadHeld? ==> GuardGoes(c, a, P.Go, Solo.Releasing)
    ensures c.calls[a].pc.WriteHeld? ==> GuardGoes(c, a, P.Go, Solo.Releasing)
    ensures c.calls[a].pc.WriteHeld? && c.cell.Init? ==> GuardGoes(c, a, P.TakeLocked, Solo.Evacuating)
  {
  }

  /** The store after a guard has set out. */
  ghost predicate SetOut(s: Store, t: Store, g: Guard, track: Solo.Track, ev: Event<nat>) {
    && Working(s, t, g.id.slot, g.call, ev)
    && g.call in t.slots[g.id.slot].calls && g.call in s.slots[g.id.slot].calls
    && t.slots[g.id.slot].calls[g.call].op == s.slots[g.id.slot].calls[g.call].op
    && Solo.TrackOf(t.slots[g.id.slot].calls[g.call].pc) == track
  }

  lemma GuardLeaves(s: Store, g: Guard, mv: P.Move, track: Solo.Track, ev: Event<nat>)
    requires Inv(s) && AtRest(s) && g.id.slot in s.slots && g.call in s.used
    requires GuardGoes(s.slots[g.id.slot], g.call, mv, track)
    requires Solo.Running(L.SpecOf(s.slots[g.id.slot]), P.Next(s.slots[g.id.slot], g.call, mv), g.call, ev)
    ensures Enabled(s, g.call, AtSlot(g.id.slot, mv))
    ensures SetOut(s, Next(s, g.call, AtSlot(g.id.slot, mv)), g, track, ev)
  {
    hide I.Inv, Inv, Solo.Running, Solo.TrackOf;
    NobodyInAllocator(s, g.call);
    StepKeepsInv(s, g.call, AtSlot(g.id.slot, mv));
    SlotSound(s, g.id.slot);
  }

  lemma ReadGuardLeaves(s: Store, g: Guard)
    requires Inv(s) && AtRest(s) && g.id.slot in s.slots && g.call in s.slots[g.id.slot].calls && g.call in s.used
    requires s.slots[g.id.slot].calls[g.call].pc.ReadHeld?
    ensures Enabled(s, g.call, AtSlot(g.id.slot, P.Go))
    ensures SetOut(s, Next(s, g.call, AtSlot(g.id.slot, P.Go)), g, Solo.Releasing, Tau)
  {
    hide I.Inv, Inv, I.Moves, GuardGoes, SetOut, Solo.Running;
    SlotSound(s, g.id.slot);
    I.InvMoves(s.slots[g.id.slot], g.call);
    GuardsGo(s.slots[g.id.slot], g.call);
    Solo.UnlockBegins(s.slots[g.id.slot], g.call);
    GuardLeaves(s, g, P.Go, Solo.Releasing, Tau);
  }

  lemma WriteGuardLeaves(s: Store, g: Guard)
    requires Inv(s) && AtRest(s) && g.id.slot in s.slots && g.call in s.slots[g.id.slot].calls && g.call in s.used
    requires s.slots[g.id.slot].calls[g.call].pc.WriteHeld? && s.slots[g.id.slot].calls[g.call].op == P.Write(g.id.ord)
    ensures Enabled(s, g.call, AtSlot(g.id.slot, P.Go))
    ensures SetOut(s, Next(s, g.call, AtSlot(g.id.slot, P.Go)), g, Solo.Releasing, EvUnlockWrite(g.id.ord))
  {
    hide I.Inv, Inv, I.Moves, GuardGoes, SetOut, Solo.Running;
    SlotSound(s, g.id.slot);
    I.InvMoves(s.slots[g.id.slot], g.call);
    GuardsGo(s.slots[g.id.slot], g.call);
    Solo.WriteUnlockBegins(s.slots[g.id.slot], g.call);
    GuardLeaves(s, g, P.Go, Solo.Releasing, EvUnlockWrite(g.id.ord));
  }

  lemma TakingGuardLeaves(s: Store, g: Guard)
    requires Inv(s) && AtRest(s) && g.id.slot in s.slots && g.call in s.slots[g.id.slot].calls && g.call in s.used
    requires s.slots[g.id.slot].calls[g.call].pc.WriteHeld? && s.slots[g.id.slot].cell.Init?
    ensures Enabled(s, g.call, AtSlot(g.id.slot, P.TakeLocked))
    ensures SetOut(s, Next(s, g.call, AtSlot(g.id.slot, P.TakeLocked)), g, Solo.Evacuating, Tau)
  {
    hide I.Inv, Inv, I.Moves, GuardGoes, SetOut, Solo.Running;
    SlotSound(s, g.id.slot);
    I.InvMoves(s.slots[g.id.slot], g.call);
    GuardsGo(s.slots[g.id.slot], g.call);
    Solo.TakeBegins(s.slots[g.id.slot], g.call);
    GuardLeaves(s, g, P.TakeLocked, Solo.Evacuating, Tau);
  }

  lemma SlotSound(s: Store, r: SlotRef)
    requires Inv(s) && r in s.slots
    ensures I.Inv(s.slots[r])
  {
  }

  lemma CallBegins(s: Store, r: SlotRef, a: P.CallId, op: P.Op, timeout: P.Timeout)
    requires Inv(s) && AtRest(s) && a !in s.used && r in s.slots && !op.Insert? && op.ord in s.slots[r].issued
    ensures Enabled(s, a, AtSlot(r, P.Begin(op, timeout)))
    ensures
      var t := Next(s, a, AtSlot(r, P.Begin(op, timeout)));
      && Working(s, t, r, a, Tau) && a in t.slots[r].calls
      && t.slots[r].calls[a].op == op && t.slots[r].calls[a].timeout == timeout
  {
    hide I.Inv, Inv, Solo.Running, P.Next, P.Enabled;
    NobodyInAllocator(s, a);
    NewHere(s, r, a);
    Solo.Begins(s.slots[r], a, op, timeout);
    BeginAdds(s.slots[r], a, op, timeout);
    StepKeepsInv(s, a, AtSlot(r, P.Begin(op, timeout)));
  }

  lemma BeginAdds(c: P.Slot, a: P.CallId, op: P.Op, timeout: P.Timeout)
    requires P.Enabled(c, a, P.Begin(op, timeout))
    ensures var d := P.Next(c, a, P.Begin(op, timeout));
      a in d.calls && d.calls[a].op == op && d.calls[a].timeout == timeout && !Erases(d.calls[a])
  {
  }

  lemma NewHere(s: Store, r: SlotRef, a: P.CallId)
    requires Inv(s) && a !in s.used && r in s.slots
    ensures I.Inv(s.slots[r]) && a !in s.slots[r].calls
  {
  }
}
