/**
 Runs of the whole store refine the atomic map: each step is one event of the
 specification or none, and each outcome is explained by an event or a state inside the
 call that returns it.
 */
module Refinement {
  import opened Bits
  import P = SlotProtocol
  import opened Spec
  import opened Store
  import I = SlotInvariant
  import F = SlotFacts
  import L = Linearization
  import O = Outcomes
  import B = Bucket

  /** What `insert` returns: a slot and the ordinal of the insertion. */
  datatype Id = Id(slot: SlotRef, ord: nat)

  // ----- abstraction of the store

  function AbsOf(s: Store): Spec<Id> {
    Spec(map r | r in s.slots && L.IsLive(s.slots[r]) :: Id(r, s.slots[r].word.id) := L.EntryOf(s.slots[r]),
         set r, o | r in s.slots && o in s.slots[r].removed :: Id(r, o))
  }

  function Lift(r: SlotRef, ev: Event<nat>): Event<Id> {
    match ev
    case Tau => Tau
    case EvInsert(k, e) => EvInsert(Id(r, k), e)
    case EvLockRead(k) => EvLockRead(Id(r, k))
    case EvUnlockRead(k) => EvUnlockRead(Id(r, k))
    case EvLockWrite(k) => EvLockWrite(Id(r, k))
    case EvUnlockWrite(k) => EvUnlockWrite(Id(r, k))
    case EvAssign(k, v) => EvAssign(Id(r, k), v)
    case EvRemove(k, e) => EvRemove(Id(r, k), e)
    case EvRemoveLocked(k, e) => EvRemoveLocked(Id(r, k), e)
  }

  function EventOf(s: Store, a: P.CallId, m: StoreMove): Event<Id> {
    if m.AtSlot? && m.slot in s.slots then Lift(m.slot, L.EventOf(s.slots[m.slot], a, m.move)) else Tau
  }

  lemma AbsAt(s: Store, r: SlotRef, o: nat)
    ensures Id(r, o) in AbsOf(s).live <==> r in s.slots && o in L.SpecOf(s.slots[r]).live
    ensures Id(r, o) in AbsOf(s).live ==> AbsOf(s).live[Id(r, o)] == L.SpecOf(s.slots[r]).live[o]
    ensures Id(r, o) in AbsOf(s).gone <==> r in s.slots && o in L.SpecOf(s.slots[r]).gone
  {
  }

  /** The abstraction only depends on what each slot contributes. */
  lemma SameAbs(s: Store, t: Store)
    requires t.slots.Keys >= s.slots.Keys
    requires forall r :: r in t.slots ==>
               L.SpecOf(t.slots[r]) == if r in s.slots then L.SpecOf(s.slots[r]) else Spec(map[], {})
    ensures AbsOf(t) == AbsOf(s)
  {
    hide AbsOf, L.SpecOf;
    forall id: Id
      ensures id in AbsOf(t).live <==> id in AbsOf(s).live
      ensures id in AbsOf(t).live ==> AbsOf(t).live[id] == AbsOf(s).live[id]
      ensures id in AbsOf(t).gone <==> id in AbsOf(s).gone
    {
      AbsAt(s, id.slot, id.ord);
      AbsAt(t, id.slot, id.ord);
    }
    assert AbsOf(t).live == AbsOf(s).live;
    assert AbsOf(t).gone == AbsOf(s).gone;
  }

  lemma PutAbs(s: Store, t: Store, r: SlotRef, k: nat, e: Entry)
    requires r in s.slots && r in t.slots && t.slots == s.slots[r := t.slots[r]]
    requires L.SpecOf(t.slots[r]) == Put(L.SpecOf(s.slots[r]), k, e)
    ensures AbsOf(t) == Put(AbsOf(s), Id(r, k), e)
  {
    hide AbsOf, L.SpecOf;
    forall id: Id
      ensures id in AbsOf(t).live <==> id in Put(AbsOf(s), Id(r, k), e).live
      ensures id in AbsOf(t).live ==> AbsOf(t).live[id] == Put(AbsOf(s), Id(r, k), e).live[id]
      ensures id in AbsOf(t).gone <==> id in AbsOf(s).gone
    {
      AbsAt(s, id.slot, id.ord);
      AbsAt(t, id.slot, id.ord);
    }
    assert AbsOf(t).live == Put(AbsOf(s), Id(r, k), e).live;
    assert AbsOf(t).gone == AbsOf(s).gone;
  }

  lemma DropAbs(s: Store, t: Store, r: SlotRef, k: nat)
    requires r in s.slots && r in t.slots && t.slots == s.slots[r := t.slots[r]]
    requires L.SpecOf(t.slots[r]) == Drop(L.SpecOf(s.slots[r]), k)
    ensures AbsOf(t) == Drop(AbsOf(s), Id(r, k))
  {
    hide AbsOf, L.SpecOf;
    var d := Drop(AbsOf(s), Id(r, k));
    forall id: Id
      ensures id in AbsOf(t).live <==> id in d.live
      ensures id in AbsOf(t).live ==> AbsOf(t).live[id] == d.live[id]
      ensures id in AbsOf(t).gone <==> id in d.gone
    {
      AbsAt(s, id.slot, id.ord);
      AbsAt(t, id.slot, id.ord);
    }
    assert AbsOf(t).live == d.live;
    assert AbsOf(t).gone == d.gone;
  }

  /** An event of one slot is the event of the store on the same slot. */
  lemma LiftStep(s: Store, t: Store, r: SlotRef, a: P.CallId, ev: Event<nat>)
    requires r in s.slots && r in t.slots && t.slots == s.slots[r := t.slots[r]]
    requires SpecStep(L.SpecOf(s.slots[r]), L.SpecOf(t.slots[r]), a, ev)
    ensures SpecStep(AbsOf(s), AbsOf(t), a, Lift(r, ev))
  {
    if ev.Tau? {
      SameAbs(s, t);
    } else {
      AbsAt(s, r, ev.key);
      if ev.EvRemove? || ev.EvRemoveLocked? {
        DropAbs(s, t, r, ev.key);
      } else {
        PutAbs(s, t, r, ev.key, L.SpecOf(t.slots[r]).live[ev.key]);
      }
    }
  }

  /** Handing out a slot, or bringing new ones, is invisible. */
  lemma ReserveAbs(s: Store, t: Store, r: SlotRef, a: P.CallId, e: P.Element)
    requires r in s.slots && I.Inv(s.slots[r]) && (s.slots[r].home.Fresh? || s.slots[r].home.Queued?)
    requires t.slots == s.slots[r := P.Reserve(s.slots[r], a, e)]
    ensures AbsOf(t) == AbsOf(s)
  {
    L.SimulateReserve(s.slots[r], a, e);
    SameAbs(s, t);
  }

  /** Every step of the store is one event of the specification, or none. */
  lemma StepRefines(s: Store, a: P.CallId, m: StoreMove)
    requires Inv(s) && Enabled(s, a, m)
    ensures SpecStep(AbsOf(s), AbsOf(Next(s, a, m)), a, EventOf(s, a, m))
  {
    hide Inv, AbsOf;
    match m
    case AtSlot(r, mv) =>
      SlotStepRefines(s, a, r, mv);
    case StartInsert(e, k) =>
      StartRefines(s, a, e, k);
    case Allocate(k) => AllocateRefines(s, a, k);
  }

  lemma SlotStepRefines(s: Store, a: P.CallId, r: SlotRef, mv: P.Move)
    requires Inv(s) && Enabled(s, a, AtSlot(r, mv))
    ensures SpecStep(AbsOf(s), AbsOf(Next(s, a, AtSlot(r, mv))), a, Lift(r, L.EventOf(s.slots[r], a, mv)))
  {
    hide I.Inv, AbsOf, SpecStep, L.SpecOf, L.EventOf;
    L.Simulates(s.slots[r], a, mv);
    LiftStep(s, Next(s, a, AtSlot(r, mv)), r, a, L.EventOf(s.slots[r], a, mv));
  }

  lemma StartRefines(s: Store, a: P.CallId, e: P.Element, k: nat)
    requires Inv(s) && Enabled(s, a, StartInsert(e, k))
    ensures AbsOf(Next(s, a, StartInsert(e, k))) == AbsOf(s)
  {
    hide I.Inv, L.SpecOf;
    if s.erasures != [] { ReserveAbs(s, Next(s, a, StartInsert(e, k)), s.erasures[0], a, e); }
  }

  lemma AllocateRefines(s: Store, a: P.CallId, k: nat)
    requires Inv(s) && Enabled(s, a, Allocate(k))
    ensures AbsOf(Next(s, a, Allocate(k))) == AbsOf(s)
  {
    var b := s.buckets[k];
    if B.FetchesNow(b, a) {
      AllocateReady(s, a, k);
      ReserveAbs(s, Next(s, a, Allocate(k)), RefOf(k, B.Offered(b)), a, s.elements[a]);
    } else if b.calls[a].SlowExpand? {
      var t := Next(s, a, Allocate(k));
      B.StepKeepsInv(b, a);
      ExpandSlots(s, t, k);
      assert L.SpecOf(P.NEW_SLOT) == Spec(map[], {});
      SameAbs(s, t);
    }
  }

  // ----- runs

  /** `states[i + 1]` follows from `states[i]` by the move of one call. */
  datatype Run = Run(states: seq<Store>, moves: seq<(P.CallId, StoreMove)>)

  ghost predicate IsRun(run: Run, limit: nat) {
    && limit <= TWO31
    && |run.states| == |run.moves| + 1
    && run.states[0] == NewStore(limit)
    && forall i :: 0 <= i < |run.moves| ==> RunStep(run, i)
  }

  predicate RunStep(run: Run, i: nat)
    requires i < |run.moves| && |run.states| == |run.moves| + 1
  {
    && Enabled(run.states[i], run.moves[i].0, run.moves[i].1)
    && run.states[i + 1] == Next(run.states[i], run.moves[i].0, run.moves[i].1)
  }

  lemma RunLength(run: Run, limit: nat)
    requires IsRun(run, limit)
    ensures |run.states| == |run.moves| + 1
  {
  }

  function EventAt(run: Run, i: nat): Event<Id>
    requires i < |run.moves| && |run.states| == |run.moves| + 1
  {
    EventOf(run.states[i], run.moves[i].0, run.moves[i].1)
  }

  /** Every state of every run satisfies the invariant. */
  lemma {:induction false} RunKeepsInv(run: Run, limit: nat, i: nat)
    requires IsRun(run, limit) && i < |run.states|
    ensures Inv(run.states[i])
  {
    if i == 0 {
      InvInit(limit);
    } else {
      RunKeepsInv(run, limit, i - 1);
      assert RunStep(run, i - 1);
      StepKeepsInv(run.states[i - 1], run.moves[i - 1].0, run.moves[i - 1].1);
    }
  }

  /** Refinement: a run of the store, looked at through `AbsOf`, is a run of the specification. */
  lemma RunRefines(run: Run, limit: nat, i: nat)
    requires IsRun(run, limit) && i < |run.moves|
    ensures AbsOf(run.states[0]) == Spec(map[], {})
    ensures SpecStep(AbsOf(run.states[i]), AbsOf(run.states[i + 1]), run.moves[i].0, EventAt(run, i))
  {
    RunKeepsInv(run, limit, i);
    assert RunStep(run, i);
    StepRefines(run.states[i], run.moves[i].0, run.moves[i].1);
  }

  // ----- commitments of calls are events of the run

  /** Call `b`, at slot `r`, has the event behind it. */
  predicate CommitsAt(s: Store, r: SlotRef, b: P.CallId, ev: Event<nat>) {
    r in s.slots && O.Commits(s.slots[r], b, ev)
  }

  lemma Lifted(q: SlotRef, r: SlotRef, x: Event<nat>, y: Event<nat>)
    requires O.Committing(y)
    ensures Lift(q, x) == Lift(r, y) <==> q == r && x == y
  {
  }

  /** The commitments at `r` grow by the event `now` of the step of call `a`, and by nothing else. */
  predicate CommitsGrow(s: Store, t: Store, a: P.CallId, now: Event<Id>, r: SlotRef, b: P.CallId, ev: Event<nat>) {
    && (CommitsAt(t, r, b, ev) <==> CommitsAt(s, r, b, ev) || (a == b && now == Lift(r, ev)))
    && !(CommitsAt(s, r, b, ev) && a == b && now == Lift(r, ev))
  }

  /** A step of the store adds exactly its own event to the commitments. */
  lemma StepCommitsAt(s: Store, a: P.CallId, m: StoreMove, r: SlotRef, b: P.CallId, ev: Event<nat>)
    requires Inv(s) && Enabled(s, a, m) && O.Committing(ev)
    ensures CommitsGrow(s, Next(s, a, m), a, EventOf(s, a, m), r, b, ev)
  {
    match m
    case AtSlot(q, mv) => SlotStepCommits(s, a, q, mv, r, b, ev);
    case StartInsert(e, k) => StartCommits(s, a, e, k, r, b, ev);
    case Allocate(k) => AllocateCommits(s, a, k, r, b, ev);
  }

  lemma SlotStepCommits(s: Store, a: P.CallId, q: SlotRef, mv: P.Move, r: SlotRef, b: P.CallId, ev: Event<nat>)
    requires SlotsInv(s) && Enabled(s, a, AtSlot(q, mv)) && O.Committing(ev)
    ensures CommitsGrow(s, Next(s, a, AtSlot(q, mv)), a, EventOf(s, a, AtSlot(q, mv)), r, b, ev)
  {
    hide I.Inv, O.Commits, O.Committing, L.EventOf;
    O.StepCommits(s.slots[q], a, mv, b, ev);
    Lifted(q, r, L.EventOf(s.slots[q], a, mv), ev);
  }

  /** Handing out slot `q` commits nobody to anything. */
  lemma HandOverCommits(s: Store, t: Store, q: SlotRef, a: P.CallId, e: P.Element,
                        r: SlotRef, b: P.CallId, ev: Event<nat>)
    requires q in s.slots && I.Inv(s.slots[q]) && P.Enabled(s.slots[q], a, P.BeginInsert(e)) && O.Committing(ev)
    requires t.slots == s.slots[q := P.Reserve(s.slots[q], a, e)]
    ensures CommitsGrow(s, t, a, Tau, r, b, ev)
  {
    if r == q {
      ReserveCommits(s.slots[q], a, e, b, ev);
    } else {
      SameSlotsCommit(s, t, a, r, b, ev);
    }
  }

  lemma ReserveCommits(c: P.Slot, a: P.CallId, e: P.Element, b: P.CallId, ev: Event<nat>)
    requires I.Inv(c) && P.Enabled(c, a, P.BeginInsert(e)) && O.Committing(ev)
    ensures O.Commits(P.Reserve(c, a, e), b, ev) <==> O.Commits(c, b, ev)
  {
    O.StepCommits(c, a, P.BeginInsert(e), b, ev);
  }

  lemma PopReady(s: Store, a: P.CallId, e: P.Element, k: nat)
    requires Inv(s) && Enabled(s, a, StartInsert(e, k)) && s.erasures != []
    ensures I.Inv(s.slots[s.erasures[0]]) && P.Enabled(s.slots[s.erasures[0]], a, P.BeginInsert(e))
  {
  }

  lemma StartCommits(s: Store, a: P.CallId, e: P.Element, k: nat, r: SlotRef, b: P.CallId, ev: Event<nat>)
    requires Inv(s) && Enabled(s, a, StartInsert(e, k)) && O.Committing(ev)
    ensures CommitsGrow(s, Next(s, a, StartInsert(e, k)), a, Tau, r, b, ev)
  {
    if s.erasures != [] {
      PopReady(s, a, e, k);
      HandOverCommits(s, Next(s, a, StartInsert(e, k)), s.erasures[0], a, e, r, b, ev);
    } else {
      SameSlotsCommit(s, Next(s, a, StartInsert(e, k)), a, r, b, ev);
    }
  }

  lemma AllocateCommits(s: Store, a: P.CallId, k: nat, r: SlotRef, b: P.CallId, ev: Event<nat>)
    requires Inv(s) && Enabled(s, a, Allocate(k)) && O.Committing(ev)
    ensures CommitsGrow(s, Next(s, a, Allocate(k)), a, Tau, r, b, ev)
  {
    var t := Next(s, a, Allocate(k));
    if B.FetchesNow(s.buckets[k], a) {
      AllocateReady(s, a, k);
      HandOverCommits(s, t, RefOf(k, B.Offered(s.buckets[k])), a, s.elements[a], r, b, ev);
    } else if s.buckets[k].calls[a].SlowExpand? {
      ExpandedSlots(s, a, k);
      SameSlotsCommit(s, t, a, r, b, ev);
    } else {
      SameSlotsCommit(s, t, a, r, b, ev);
    }
  }

  lemma SameSlotsCommit(s: Store, t: Store, a: P.CallId, r: SlotRef, b: P.CallId, ev: Event<nat>)
    requires r in s.slots ==> r in t.slots && t.slots[r] == s.slots[r]
    requires r in t.slots && r !in s.slots ==> t.slots[r] == P.NEW_SLOT
    requires O.Committing(ev)
    ensures CommitsGrow(s, t, a, Tau, r, b, ev)
  {
  }

  /** The same for a step of a run. */
  lemma RunCommits(run: Run, limit: nat, i: nat, r: SlotRef, b: P.CallId, ev: Event<nat>)
    requires IsRun(run, limit) && i < |run.moves| && O.Committing(ev)
    ensures CommitsGrow(run.states[i], run.states[i + 1], run.moves[i].0, EventAt(run, i), r, b, ev)
  {
    RunKeepsInv(run, limit, i);
    assert RunStep(run, i);
    StepCommitsAt(run.states[i], run.moves[i].0, run.moves[i].1, r, b, ev);
  }

  lemma ExpandedSlots(s: Store, a: P.CallId, k: nat)
    requires Inv(s) && Enabled(s, a, Allocate(k)) && s.buckets[k].calls[a].SlowExpand?
    ensures var t := Next(s, a, Allocate(k));
      && t.slots.Keys >= s.slots.Keys
      && forall r :: r in t.slots ==> if r in s.slots then t.slots[r] == s.slots[r] else t.slots[r] == P.NEW_SLOT
  {
    B.StepKeepsInv(s.buckets[k], a);
    ExpandSlots(s, Next(s, a, Allocate(k)), k);
  }

  /** What a call has committed to is an event of its own, at one earlier step of the run. */
  lemma {:induction false} CommitmentIsEvent(run: Run, limit: nat, n: nat, r: SlotRef, b: P.CallId, ev: Event<nat>)
      returns (i: nat)
    requires IsRun(run, limit) && n < |run.states| && O.Committing(ev)
    requires CommitsAt(run.states[n], r, b, ev)
    ensures i < n && run.moves[i].0 == b && EventAt(run, i) == Lift(r, ev)
  {
    assert n > 0;
    RunCommits(run, limit, n - 1, r, b, ev);
    if CommitsAt(run.states[n - 1], r, b, ev) {
      i := CommitmentIsEvent(run, limit, n - 1, r, b, ev);
    } else {
      i := n - 1;
    }
  }

  /** An event stays committed for the rest of the run. */
  lemma {:induction false} EventStaysCommitted(run: Run, limit: nat, i: nat, n: nat, r: SlotRef, ev: Event<nat>)
    requires IsRun(run, limit) && i < n < |run.states| && O.Committing(ev) && EventAt(run, i) == Lift(r, ev)
    ensures CommitsAt(run.states[n], r, run.moves[i].0, ev)
    decreases n
  {
    RunCommits(run, limit, n - 1, r, run.moves[i].0, ev);
    if i < n - 1 { EventStaysCommitted(run, limit, i, n - 1, r, ev); }
  }

  /** A call never has the same committing event twice. */
  lemma EventHappensOnce(run: Run, limit: nat, i: nat, j: nat, r: SlotRef, ev: Event<nat>)
    requires IsRun(run, limit) && i < j < |run.moves| && O.Committing(ev)
    requires run.moves[i].0 == run.moves[j].0
    requires EventAt(run, i) == Lift(r, ev)
    ensures EventAt(run, j) != Lift(r, ev)
  {
    EventStaysCommitted(run, limit, i, j, r, ev);
    RunCommits(run, limit, j, r, run.moves[j].0, ev);
  }

  // ----- outcomes without effect are justified

  predicate SupportsAt(s: Store, r: SlotRef, b: P.CallId, o: P.Outcome) {
    r in s.slots && b in s.slots[r].calls && O.Supports(s.slots[r].calls[b], o)
  }

  /** The state is inside the call, and justifies the outcome. */
  predicate JustifiedAt(s: Store, r: SlotRef, b: P.CallId, op: P.Op, o: P.Outcome) {
    && r in s.slots && b in s.slots[r].calls && s.slots[r].calls[b].op == op && !op.Insert?
    && !s.slots[r].calls[b].pc.Done?
    && Justifies(AbsOf(s), op, Id(r, op.ord), o)
  }

  /** The evidence of a call was there before the step, or is justified by the state before it. */
  predicate SupportGrows(s: Store, t: Store, r: SlotRef, b: P.CallId, o: P.Outcome)
    requires r in t.slots && b in t.slots[r].calls
  {
    && r in s.slots && b in s.slots[r].calls && s.slots[r].calls[b].op == t.slots[r].calls[b].op
    && (SupportsAt(s, r, b, o) || JustifiedAt(s, r, b, t.slots[r].calls[b].op, o))
  }

  lemma SlotStepSupports(s: Store, a: P.CallId, q: SlotRef, mv: P.Move, r: SlotRef, b: P.CallId, o: P.Outcome)
    requires SlotsInv(s) && Enabled(s, a, AtSlot(q, mv)) && SupportsAt(Next(s, a, AtSlot(q, mv)), r, b, o)
    ensures SupportGrows(s, Next(s, a, AtSlot(q, mv)), r, b, o)
  {
    hide I.Inv, AbsOf, L.SpecOf;
    F.StepTouchesOneCall(s.slots[q], a, mv);
    if q == r && a == b && !SupportsAt(s, r, b, o) {
      O.SupportIsJustified(s.slots[r], a, mv, o);
      AbsAt(s, r, s.slots[r].calls[b].op.ord);
    }
  }

  /** The slot was handed to an insertion. */
  ghost predicate ReservedNow(c: P.Slot, d: P.Slot) {
    exists a, e :: d == P.Reserve(c, a, e)
  }

  /** A slot that is handed out or new has no evidence of anything. */
  lemma OtherStepSupports(s: Store, t: Store, r: SlotRef, b: P.CallId, o: P.Outcome)
    requires SupportsAt(t, r, b, o)
    requires r in s.slots ==> t.slots[r] == s.slots[r] || ReservedNow(s.slots[r], t.slots[r])
    requires r !in s.slots ==> t.slots[r] == P.NEW_SLOT
    ensures SupportGrows(s, t, r, b, o)
  {
  }

  lemma StepSupports(s: Store, a: P.CallId, m: StoreMove, r: SlotRef, b: P.CallId, o: P.Outcome)
    requires Inv(s) && Enabled(s, a, m) && SupportsAt(Next(s, a, m), r, b, o)
    ensures SupportGrows(s, Next(s, a, m), r, b, o)
  {
    if m.AtSlot? {
      SlotStepSupports(s, a, m.slot, m.move, r, b, o);
    } else {
      SlotsReservedOrNew(s, a, m, r);
      OtherStepSupports(s, Next(s, a, m), r, b, o);
    }
  }

  lemma SlotsReservedOrNew(s: Store, a: P.CallId, m: StoreMove, r: SlotRef)
    requires Inv(s) && Enabled(s, a, m) && !m.AtSlot? && r in Next(s, a, m).slots
    ensures r in s.slots ==> Next(s, a, m).slots[r] == s.slots[r] || ReservedNow(s.slots[r], Next(s, a, m).slots[r])
    ensures r !in s.slots ==> Next(s, a, m).slots[r] == P.NEW_SLOT
  {
    if m.StartInsert? {
      PopReserves(s, a, m, r);
    } else if B.FetchesNow(s.buckets[m.bucket], a) {
      HandOutReserves(s, a, m, r);
    } else if s.buckets[m.bucket].calls[a].SlowExpand? {
      ExpandedSlots(s, a, m.bucket);
    }
  }

  lemma PopReserves(s: Store, a: P.CallId, m: StoreMove, r: SlotRef)
    requires Enabled(s, a, m) && m.StartInsert? && r in Next(s, a, m).slots
    ensures r in s.slots && (Next(s, a, m).slots[r] == s.slots[r] || ReservedNow(s.slots[r], Next(s, a, m).slots[r]))
  {
  }

  lemma HandOutReserves(s: Store, a: P.CallId, m: StoreMove, r: SlotRef)
    requires Enabled(s, a, m) && m.Allocate? && B.FetchesNow(s.buckets[m.bucket], a) && r in Next(s, a, m).slots
    ensures r in s.slots && (Next(s, a, m).slots[r] == s.slots[r] || ReservedNow(s.slots[r], Next(s, a, m).slots[r]))
  {
  }

  lemma RunSupports(run: Run, limit: nat, i: nat, r: SlotRef, b: P.CallId, o: P.Outcome)
    requires IsRun(run, limit) && i < |run.moves| && SupportsAt(run.states[i + 1], r, b, o)
    ensures SupportGrows(run.states[i], run.states[i + 1], r, b, o)
  {
    RunKeepsInv(run, limit, i);
    assert RunStep(run, i);
    StepSupports(run.states[i], run.moves[i].0, run.moves[i].1, r, b, o);
  }

  /** An outcome that changes nothing is justified by an earlier state of the run, after the call began. */
  lemma {:induction false} OutcomeIsJustified(run: Run, limit: nat, n: nat, r: SlotRef, b: P.CallId, o: P.Outcome)
      returns (i: nat)
    requires IsRun(run, limit) && n < |run.states| && SupportsAt(run.states[n], r, b, o)
    ensures i < n && JustifiedAt(run.states[i], r, b, run.states[n].slots[r].calls[b].op, o)
  {
    assert n > 0;
    RunSupports(run, limit, n - 1, r, b, o);
    if SupportsAt(run.states[n - 1], r, b, o) {
      i := OutcomeIsJustified(run, limit, n - 1, r, b, o);
    } else {
      i := n - 1;
    }
  }

  // ----- reads that panic and waits that are given up

  /** Only its own move changes what is recorded of a call that does not insert. */
  lemma CallFrame(s: Store, a: P.CallId, m: StoreMove, r: SlotRef, b: P.CallId)
    requires Inv(s) && Enabled(s, a, m) && r in Next(s, a, m).slots && b in Next(s, a, m).slots[r].calls
    requires !Next(s, a, m).slots[r].calls[b].op.Insert?
    ensures r in s.slots
    ensures
      if a == b && m.AtSlot? && m.slot == r then Next(s, a, m).slots[r] == P.Next(s.slots[r], a, m.move)
      else b in s.slots[r].calls && s.slots[r].calls[b] == Next(s, a, m).slots[r].calls[b]
  {
    hide I.Inv;
    if m.AtSlot? {
      F.StepTouchesOneCall(s.slots[m.slot], a, m.move);
    } else {
      SlotsReservedOrNew(s, a, m, r);
    }
  }

  /** The call is at the slot, running, with these arguments. */
  predicate RunsAt(s: Store, r: SlotRef, b: P.CallId, op: P.Op, timeout: P.Timeout) {
    && r in s.slots && b in s.slots[r].calls && F.Busy(s.slots[r].calls[b])
    && s.slots[r].calls[b].op == op && s.slots[r].calls[b].timeout == timeout
  }

  predicate HasCall(s: Store, r: SlotRef, b: P.CallId, c: P.Call) {
    r in s.slots && b in s.slots[r].calls && s.slots[r].calls[b] == c
  }

  /** The element has as many readers as there may be, while the call is reading it. */
  predicate CrowdedAt(s: Store, r: SlotRef, b: P.CallId, c: P.Call) {
    c.op.Read? && RunsAt(s, r, b, c.op, c.timeout) && Crowded(AbsOf(s), Id(r, c.op.ord))
  }

  /** The timeout callback of the call, which is in the queue of the parking lot. */
  predicate DeadlinePasses(run: Run, j: nat, r: SlotRef, b: P.CallId, c: P.Call) {
    && j < |run.moves| && j < |run.states| && run.moves[j] == (b, AtSlot(r, P.Expire))
    && RunsAt(run.states[j], r, b, c.op, c.timeout) && c.timeout.BlockUntil?
    && b in run.states[j].slots[r].parked && run.states[j].slots[r].calls[b].pc.Parked?
  }

  /** The step before which call `b` did not yet have what `c` shows. */
  lemma StepSeesCrowd(s: Store, a: P.CallId, m: StoreMove, r: SlotRef, b: P.CallId, c: P.Call) returns (d: P.Call)
    requires Inv(s) && Enabled(s, a, m) && HasCall(Next(s, a, m), r, b, c) && O.SeesCrowd(c) && !c.op.Insert?
    ensures (HasCall(s, r, b, d) && O.SeesCrowd(d) && d.op == c.op && d.timeout == c.timeout) || CrowdedAt(s, r, b, c)
  {
    hide I.Inv, AbsOf, L.SpecOf, O.SeesCrowd, P.Next, P.Enabled;
    CallFrame(s, a, m, r, b);
    if a == b && m.AtSlot? && m.slot == r {
      F.StepTouchesOneCall(s.slots[r], a, m.move);
      if b in s.slots[r].calls { d := s.slots[r].calls[b]; }
      if b !in s.slots[r].calls || !O.SeesCrowd(d) {
        O.CrowdIsSeen(s.slots[r], a, m.move);
        AbsAt(s, r, c.op.ord);
      }
    } else {
      d := c;
    }
  }

  lemma StepGivesUp(s: Store, a: P.CallId, m: StoreMove, r: SlotRef, b: P.CallId, c: P.Call) returns (d: P.Call)
    requires Inv(s) && Enabled(s, a, m) && HasCall(Next(s, a, m), r, b, c) && O.GaveUp(c) && !c.op.Insert?
    ensures
      || (HasCall(s, r, b, d) && O.GaveUp(d) && d.op == c.op && d.timeout == c.timeout)
      || (a == b && m == AtSlot(r, P.Expire) && RunsAt(s, r, b, c.op, c.timeout) && c.timeout.BlockUntil?
          && b in s.slots[r].parked && s.slots[r].calls[b].pc.Parked?)
  {
    hide I.Inv, O.GaveUp, P.Next, P.Enabled;
    CallFrame(s, a, m, r, b);
    if a == b && m.AtSlot? && m.slot == r {
      F.StepTouchesOneCall(s.slots[r], a, m.move);
      if b in s.slots[r].calls { d := s.slots[r].calls[b]; }
      if b !in s.slots[r].calls || !O.GaveUp(d) { O.GivesUpAtDeadline(s.slots[r], a, m.move); }
    } else {
      d := c;
    }
  }

  lemma RunSeesCrowd(run: Run, limit: nat, i: nat, r: SlotRef, b: P.CallId, c: P.Call) returns (d: P.Call)
    requires IsRun(run, limit) && i < |run.moves| && HasCall(run.states[i + 1], r, b, c) && O.SeesCrowd(c)
    ensures
      || (HasCall(run.states[i], r, b, d) && O.SeesCrowd(d) && d.op == c.op && d.timeout == c.timeout)
      || CrowdedAt(run.states[i], r, b, c)
  {
    hide Inv, CrowdedAt, O.SeesCrowd;
    RunKeepsInv(run, limit, i);
    assert RunStep(run, i);
    CallIsShaped(run, limit, i + 1, r, b);
    NotInserting(c);
    d := StepSeesCrowd(run.states[i], run.moves[i].0, run.moves[i].1, r, b, c);
  }

  /** Insertions neither read nor wait. */
  lemma NotInserting(c: P.Call)
    requires P.Shape(c)
    ensures O.SeesCrowd(c) || O.GaveUp(c) ==> !c.op.Insert?
  {
  }

  lemma RunGivesUp(run: Run, limit: nat, i: nat, r: SlotRef, b: P.CallId, c: P.Call) returns (d: P.Call)
    requires IsRun(run, limit) && i < |run.moves| && HasCall(run.states[i + 1], r, b, c) && O.GaveUp(c)
    ensures
      || (HasCall(run.states[i], r, b, d) && O.GaveUp(d) && d.op == c.op && d.timeout == c.timeout)
      || DeadlinePasses(run, i, r, b, c)
  {
    hide Inv, O.GaveUp;
    RunKeepsInv(run, limit, i);
    assert RunStep(run, i);
    CallIsShaped(run, limit, i + 1, r, b);
    NotInserting(c);
    d := StepGivesUp(run.states[i], run.moves[i].0, run.moves[i].1, r, b, c);
  }

  /** A new store has no calls. */
  lemma NoCallYet(run: Run, limit: nat, r: SlotRef, b: P.CallId, c: P.Call)
    requires IsRun(run, limit)
    ensures !HasCall(run.states[0], r, b, c)
  {
  }

  /** A read that panics has met the greatest number of readers, all at the same time, while it was running. */
  lemma {:induction false} PanicIsJustified(run: Run, limit: nat, n: nat, r: SlotRef, b: P.CallId, c: P.Call)
      returns (i: nat)
    requires IsRun(run, limit) && n < |run.states| && HasCall(run.states[n], r, b, c) && O.SeesCrowd(c)
    ensures i < n && CrowdedAt(run.states[i], r, b, c)
  {
    NoCallYet(run, limit, r, b, c);
    RunLength(run, limit);
    hide IsRun, CrowdedAt, HasCall, O.SeesCrowd;
    var d := RunSeesCrowd(run, limit, n - 1, r, b, c);
    if CrowdedAt(run.states[n - 1], r, b, c) {
      i := n - 1;
    } else {
      i := PanicIsJustified(run, limit, n - 1, r, b, d);
      SameCrowd(run.states[i], r, b, d, c);
    }
  }

  lemma SameCrowd(s: Store, r: SlotRef, b: P.CallId, d: P.Call, c: P.Call)
    requires CrowdedAt(s, r, b, d) && d.op == c.op && d.timeout == c.timeout
    ensures CrowdedAt(s, r, b, c)
  {
  }

  /** A call that may block times out only after its own deadline has passed, while it was asleep. */
  lemma {:induction false} DeadlineHasPassed(run: Run, limit: nat, n: nat, r: SlotRef, b: P.CallId, c: P.Call)
      returns (j: nat)
    requires IsRun(run, limit) && n < |run.states| && HasCall(run.states[n], r, b, c) && O.GaveUp(c)
    ensures j < n && DeadlinePasses(run, j, r, b, c)
  {
    NoCallYet(run, limit, r, b, c);
    RunLength(run, limit);
    hide IsRun, DeadlinePasses, HasCall, O.GaveUp;
    var d := RunGivesUp(run, limit, n - 1, r, b, c);
    if DeadlinePasses(run, n - 1, r, b, c) {
      j := n - 1;
    } else {
      j := DeadlineHasPassed(run, limit, n - 1, r, b, d);
      SameDeadline(run, j, r, b, d, c);
    }
  }

  lemma SameDeadline(run: Run, j: nat, r: SlotRef, b: P.CallId, d: P.Call, c: P.Call)
    requires DeadlinePasses(run, j, r, b, d) && d.op == c.op && d.timeout == c.timeout
    ensures DeadlinePasses(run, j, r, b, c)
  {
  }

  // ----- linearizability

  /**
   Why call `c` could time out: at step `i` its element was locked in the way.  If it may
   block, its deadline has passed after that, while it was asleep.
   */
  ghost predicate ExplainsTimeout(run: Run, i: nat, n: nat, r: SlotRef, b: P.CallId, c: P.Call)
    requires i < |run.states|
  {
    && JustifiedAt(run.states[i], r, b, c.op, P.TimedOut)
    && (!c.timeout.DontBlock? ==> exists j :: i < j < n && DeadlinePasses(run, j, r, b, c))
  }

  /** The event or state at step `i` that is behind the end of call `c`, which has ended at state `n`. */
  ghost predicate Explains(run: Run, i: nat, n: nat, r: SlotRef, b: P.CallId, c: P.Call)
    requires i < |run.moves| && |run.states| == |run.moves| + 1 && (c.pc.Done? || c.pc.Panicked?)
  {
    if c.pc.Panicked? then CrowdedAt(run.states[i], r, b, c)
    else
      match c.pc.outcome
      case Inserted(k) =>
        c.op.Insert? && run.moves[i].0 == b && EventAt(run, i) == EvInsert(Id(r, k), c.op.element)
      case NotFound => JustifiedAt(run.states[i], r, b, c.op, P.NotFound)
      case TimedOut => ExplainsTimeout(run, i, n, r, b, c)
      case Released =>
        && run.moves[i].0 == b
        && ((c.op.Read? && EventAt(run, i) == EvLockRead(Id(r, c.op.ord)))
            || (c.op.Write? && EventAt(run, i) == EvLockWrite(Id(r, c.op.ord))))
      case Removed(e) =>
        && run.moves[i].0 == b
        && ((c.op.Remove? && EventAt(run, i) == EvRemove(Id(r, c.op.ord), e))
            || (c.op.Write? && EventAt(run, i) == EvRemoveLocked(Id(r, c.op.ord), e)))
  }

  /** Linearizability: however a call ends, one step inside the call explains it. */
  lemma OutcomeIsExplained(run: Run, limit: nat, n: nat, r: SlotRef, b: P.CallId) returns (i: nat)
    requires IsRun(run, limit) && n < |run.states|
    requires r in run.states[n].slots && b in run.states[n].slots[r].calls
    requires run.states[n].slots[r].calls[b].pc.Done? || run.states[n].slots[r].calls[b].pc.Panicked?
    ensures i < n && Explains(run, i, n, r, b, run.states[n].slots[r].calls[b])
  {
    hide AbsOf, JustifiedAt, CrowdedAt, DeadlinePasses, O.Commits, O.SeesCrowd;
    var c := run.states[n].slots[r].calls[b];
    if c.pc.Panicked? {
      CrowdSeen(c);
      i := PanicIsJustified(run, limit, n, r, b, c);
    } else if c.pc.outcome.TimedOut? {
      i := TimeoutIsExplained(run, limit, n, r, b, c);
    } else if c.pc.outcome.NotFound? {
      i := OutcomeIsJustified(run, limit, n, r, b, P.NotFound);
    } else {
      var ev := CompletionOf(run, limit, n, r, b);
      i := CommitmentIsEvent(run, limit, n, r, b, ev);
    }
  }

  lemma CrowdSeen(c: P.Call)
    requires c.pc.Panicked?
    ensures O.SeesCrowd(c)
  {
  }

  lemma TimeoutIsExplained(run: Run, limit: nat, n: nat, r: SlotRef, b: P.CallId, c: P.Call) returns (i: nat)
    requires IsRun(run, limit) && n < |run.states| && HasCall(run.states[n], r, b, c) && c.pc == P.Done(P.TimedOut)
    ensures i < n && ExplainsTimeout(run, i, n, r, b, c)
  {
    hide AbsOf, JustifiedAt;
    if c.timeout.DontBlock? {
      i := OutcomeIsJustified(run, limit, n, r, b, P.TimedOut);
    } else {
      var j := DeadlineHasPassed(run, limit, n, r, b, c);
      i := OutcomeIsJustified(run, limit, j, r, b, P.TimedOut);
    }
  }

  /** The event that a call has behind it when it ends with an effect. */
  lemma CompletionOf(run: Run, limit: nat, n: nat, r: SlotRef, b: P.CallId) returns (ev: Event<nat>)
    requires IsRun(run, limit) && n < |run.states|
    requires r in run.states[n].slots && b in run.states[n].slots[r].calls
    requires var pc := run.states[n].slots[r].calls[b].pc;
      pc.Done? && !pc.outcome.NotFound? && !pc.outcome.TimedOut?
    ensures O.Committing(ev) && CommitsAt(run.states[n], r, b, ev)
    ensures var c := run.states[n].slots[r].calls[b];
      match c.pc.outcome
      case Inserted(k) => c.op.Insert? && ev == EvInsert(k, c.op.element)
      case Released => (c.op.Read? && ev == EvLockRead(c.op.ord)) || (c.op.Write? && ev == EvLockWrite(c.op.ord))
      case Removed(e) =>
        (c.op.Remove? && ev == EvRemove(c.op.ord, e)) || (c.op.Write? && ev == EvRemoveLocked(c.op.ord, e))
      case _ => false
  {
    var c := run.states[n].slots[r].calls[b];
    CallIsShaped(run, limit, n, r, b);
    match c.pc.outcome
    case Inserted(k) => ev := EvInsert(k, c.op.element);
    case Released => ev := if c.op.Read? then EvLockRead(c.op.ord) else EvLockWrite(c.op.ord);
    case Removed(e) => ev := if c.op.Remove? then EvRemove(c.op.ord, e) else EvRemoveLocked(c.op.ord, e);
  }

  lemma CallIsShaped(run: Run, limit: nat, n: nat, r: SlotRef, b: P.CallId)
    requires IsRun(run, limit) && n < |run.states|
    requires r in run.states[n].slots && b in run.states[n].slots[r].calls
    ensures P.Shape(run.states[n].slots[r].calls[b])
  {
    RunKeepsInv(run, limit, n);
    F.AlwaysShaped(run.states[n].slots[r], b);
  }

  // ----- identifiers over a run

  /** The run seen through the abstraction. */
  function TraceOf(run: Run): Trace<Id>
    requires |run.states| == |run.moves| + 1
  {
    Trace(seq(|run.states|, i requires 0 <= i < |run.states| => AbsOf(run.states[i])),
          seq(|run.moves|, i requires 0 <= i < |run.moves| => (run.moves[i].0, EventAt(run, i))))
  }

  /** Refinement of whole runs. */
  lemma RunIsTrace(run: Run, limit: nat)
    requires IsRun(run, limit)
    ensures IsTrace(TraceOf(run))
  {
    var t := TraceOf(run);
    forall i | 0 <= i < |t.events| ensures SpecStep(t.states[i], t.states[i + 1], t.events[i].0, t.events[i].1) {
      RunRefines(run, limit, i);
    }
  }

  /** No two insertions of a run return the same identifier, and nothing happens to a removed one. */
  lemma RunIdentifiers(run: Run, limit: nat, i: nat, j: nat)
    requires IsRun(run, limit) && i < j < |run.moves|
    ensures EventAt(run, i).EvInsert? && EventAt(run, j).EvInsert? ==> EventAt(run, i).key != EventAt(run, j).key
    ensures IsRemoval(EventAt(run, i)) && !EventAt(run, j).Tau? ==> EventAt(run, i).key != EventAt(run, j).key
  {
    RunIsTrace(run, limit);
    var t := TraceOf(run);
    assert t.events[i].1 == EventAt(run, i) && t.events[j].1 == EventAt(run, j);
    if t.events[i].1.EvInsert? && t.events[j].1.EvInsert? { IdsAreNeverReused(t, i, j); }
    if IsRemoval(t.events[i].1) && !t.events[j].1.Tau? { RemovedIsDead(t, i, j); }
  }
}
