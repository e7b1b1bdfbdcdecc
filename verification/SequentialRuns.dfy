/**
 Whole operations as pieces of sequential runs, and the run on which a single thread sees
 more slots touched than there ever were elements: one slot goes through all its IDs, is
 retired, and the next insertion takes a slot that was never used.
 */
module SequentialRuns {
  import opened Bits
  import opened Blocks
  import opened Store
  import opened Spec
  import opened Refinement
  import HeaderWord
  import P = SlotProtocol
  import I = SlotInvariant
  import F = SlotFacts
  import L = Linearization
  import B = Bucket
  import C = Capacity
  import H = HighWater
  import W = Witness
  import X = RwStore
  import Solo
  import DocumentedPeak

  // ----- states in which at most one call is busy

  lemma WorkingIsSequential(start: Store, s: Store, r: SlotRef, a: P.CallId, ev: Event<nat>)
    requires X.Working(start, s, r, a, ev)
    ensures H.Sequential(s)
  {
    hide Inv, I.Inv, Solo.UpToDate, Solo.Had, Solo.Evident, SpecStep;
    forall b | H.IsBusy(s, b) ensures b == a {
      var q :| q in s.slots && H.BusyAt(s, q, b);
      assert q == r;
    }
  }

  lemma LookingIsSequential(s: Store, k: nat, a: P.CallId, e: P.Element)
    requires X.Looking(s, k, a, e)
    ensures H.Sequential(s)
  {
    hide Inv;
    forall b | H.IsBusy(s, b) ensures b == a {
      if InAllocator(s, b) {
        var j :| 0 <= j < |s.buckets| && b in s.buckets[j].calls;
        assert j == k;
      } else {
        var q :| q in s.slots && H.BusyAt(s, q, b);
      }
    }
  }

  lemma GivenIsSequential(s: Store, r: SlotRef, a: P.CallId, e: P.Element)
    requires X.Given(s, r, a, e)
    ensures H.Sequential(s)
  {
    hide Inv;
    forall b | H.IsBusy(s, b) ensures b == a {
      var q :| q in s.slots && H.BusyAt(s, q, b);
    }
  }

  lemma RestIsIdle(s: Store)
    requires X.AtRest(s)
    ensures H.Idle(s) && H.Sequential(s)
  {
    forall a ensures !H.IsBusy(s, a) {
    }
  }

  // ----- runs, piece by piece

  ghost predicate IsSequential(run: Run, limit: nat) {
    IsRun(run, limit) && H.SequentialRun(run)
  }

  /** The run goes on. */
  predicate GoesOn(run: Run, more: Run) {
    run.states != [] && more.states != [] && run.states <= more.states
  }

  lemma Step(run: Run, limit: nat, a: P.CallId, m: StoreMove) returns (more: Run)
    requires IsSequential(run, limit) && Enabled(W.Last(run), a, m) && H.Sequential(Next(W.Last(run), a, m))
    ensures IsSequential(more, limit) && GoesOn(run, more) && W.Last(more) == Next(W.Last(run), a, m)
    ensures |C.Touched(W.Last(more))| ==
              |C.Touched(W.Last(run))| + (if H.TakesFresh(W.Last(run), a, m) then 1 else 0)
  {
    hide C.Touched, H.Sequential, Inv;
    more := W.Step(run, limit, a, m);
    RunKeepsInv(run, limit, |run.states| - 1);
    H.StepTouches(W.Last(run), a, m);
    forall i | 0 <= i < |more.states| ensures H.Sequential(more.states[i]) {
      if i < |run.states| { assert more.states[i] == run.states[i]; }
    }
  }

  /** A call works to its end, and touches no slot that was not touched. */
  lemma {:induction false} Works(run: Run, limit: nat, start: Store, r: SlotRef, a: P.CallId, ev: Event<nat>)
      returns (more: Run, c: P.Call, last: Event<nat>)
    requires IsSequential(run, limit) && run.states != [] && r in W.Last(run).slots && a in W.Last(run).slots[r].calls
    requires X.Working(start, W.Last(run), r, a, ev)
    ensures IsSequential(more, limit) && GoesOn(run, more) && X.Ends(start, W.Last(more), r, a, c, last)
    ensures X.OnTrack(W.Last(run).slots[r].calls[a], c)
    ensures |C.Touched(W.Last(more))| == |C.Touched(W.Last(run))|
    decreases Solo.Rank(W.Last(run).slots[r].calls[a].pc)
  {
    hide IsSequential, C.Touched, X.Working, H.TakesFresh;
    var s := W.Last(run);
    if F.Busy(s.slots[r].calls[a]) && !Solo.Stuck(s.slots[r].calls[a]) {
      var next := X.WorkStep(start, s, r, a, ev);
      var m := AtSlot(r, Solo.SoloMove(s.slots[r].calls[a]));
      WorkingIsSequential(start, Next(s, a, m), r, a, next);
      more := Step(run, limit, a, m);
      NotFresh(s, a, m);
      more, c, last := Works(more, limit, start, r, a, next);
    } else {
      more, c, last := run, s.slots[r].calls[a], ev;
    }
  }

  lemma NotFresh(s: Store, a: P.CallId, m: StoreMove)
    requires !m.Allocate?
    ensures !H.TakesFresh(s, a, m)
  {
  }

  /** The insertion goes through its bucket; it touches the slot that it is given. */
  lemma {:induction false} Looks(run: Run, limit: nat, k: nat, a: P.CallId, e: P.Element)
    returns (more: Run, r: SlotRef)
    requires IsSequential(run, limit) && run.states != []
    requires k < |W.Last(run).buckets| && a in W.Last(run).buckets[k].calls
    requires X.Looking(W.Last(run), k, a, e)
    ensures IsSequential(more, limit) && GoesOn(run, more) && X.Given(W.Last(more), r, a, e)
    ensures AbsOf(W.Last(more)) == AbsOf(W.Last(run)) && W.Last(more).used == W.Last(run).used
    ensures X.Roomy(W.Last(more)) == X.Roomy(W.Last(run))
    ensures |C.Touched(W.Last(more))| ==
              |C.Touched(W.Last(run))| + (if Carrying(W.Last(run).buckets[k].calls[a]) then 0 else 1)
    decreases X.BucketRank(W.Last(run).buckets[k].calls[a])
  {
    hide IsSequential, C.Touched, AbsOf, Inv, H.Sequential;
    var s := W.Last(run);
    X.LookGoesOn(s, k, a, e);
    var t := Next(s, a, Allocate(k));
    X.SameRoom(s, k, a);
    if Carrying(s.buckets[k].calls[a]) {
      r := RefOf(k, s.buckets[k].calls[a].location);
      GivenIsSequential(t, r, a, e);
      more := Step(run, limit, a, Allocate(k));
      LeavingTakesNone(s, a, k);
    } else {
      LookingIsSequential(t, k, a, e);
      more := Step(run, limit, a, Allocate(k));
      TakesAsItCarries(s, a, k);
      more, r := Looks(more, limit, k, a, e);
    }
  }

  lemma LeavingTakesNone(s: Store, a: P.CallId, k: nat)
    requires k < |s.buckets| && a in s.buckets[k].calls && Carrying(s.buckets[k].calls[a])
    ensures !H.TakesFresh(s, a, Allocate(k))
  {
  }

  lemma TakesAsItCarries(s: Store, a: P.CallId, k: nat)
    requires Enabled(s, a, Allocate(k)) && a in Next(s, a, Allocate(k)).buckets[k].calls
    ensures Carrying(Next(s, a, Allocate(k)).buckets[k].calls[a]) <==> H.TakesFresh(s, a, Allocate(k))
  {
    BucketStepTouchesOneCall(s.buckets[k], a);
  }

  // ----- whole operations

  /** A sequential run whose last state is at rest; calls from `free` on have not begun. */
  ghost predicate Resting(run: Run, limit: nat, free: P.CallId) {
    && IsSequential(run, limit) && run.states != []
    && Inv(W.Last(run)) && X.AtRest(W.Last(run)) && X.Roomy(W.Last(run))
    && forall a :: a in W.Last(run).used ==> a < free
  }

  lemma RestingInv(run: Run, limit: nat)
    requires IsSequential(run, limit) && run.states != []
    ensures Inv(W.Last(run))
  {
    RunKeepsInv(run, limit, |run.states| - 1);
  }

  /** The insertion has its slot. */
  lemma InsertStarts(run: Run, limit: nat, a: P.CallId, e: P.Element, k: nat) returns (more: Run, r: SlotRef)
    requires Resting(run, limit, a) && e.token == a && k < BUCKET_COUNT
    requires W.Last(run).erasures == [] ==> k < |W.Last(run).buckets| && W.Last(run).buckets[k].blocks <= MAX_BLOCK
    ensures IsSequential(more, limit) && GoesOn(run, more) && X.Given(W.Last(more), r, a, e)
    ensures AbsOf(W.Last(more)) == AbsOf(W.Last(run)) && W.Last(more).used == W.Last(run).used + {a}
    ensures X.Roomy(W.Last(more))
    ensures W.Last(run).erasures != [] ==> r == W.Last(run).erasures[0]
    ensures |C.Touched(W.Last(more))| == |C.Touched(W.Last(run))| + (if W.Last(run).erasures == [] then 1 else 0)
  {
    hide IsSequential, C.Touched, AbsOf, Inv, H.Sequential, X.AtRest, X.Roomy;
    var s := W.Last(run);
    X.Starts(s, a, e, k);
    NotFresh(s, a, StartInsert(e, k));
    var t := Next(s, a, StartInsert(e, k));
    if s.erasures != [] {
      r := s.erasures[0];
      GivenIsSequential(t, r, a, e);
      more := Step(run, limit, a, StartInsert(e, k));
    } else {
      LookingIsSequential(t, k, a, e);
      EntersEmpty(s, a, e, k);
      more := Step(run, limit, a, StartInsert(e, k));
      more, r := Looks(more, limit, k, a, e);
    }
  }

  lemma EntersEmpty(s: Store, a: P.CallId, e: P.Element, k: nat)
    requires Enabled(s, a, StartInsert(e, k)) && s.erasures == []
    ensures var t := Next(s, a, StartInsert(e, k));
      k < |t.buckets| && a in t.buckets[k].calls && !Carrying(t.buckets[k].calls[a])
  {
  }

  /** `insert`. */
  lemma Inserts(run: Run, limit: nat, a: P.CallId, e: P.Element, k: nat) returns (more: Run, id: Id)
    requires Resting(run, limit, a) && e.token == a && k < BUCKET_COUNT
    requires W.Last(run).erasures == [] ==> k < |W.Last(run).buckets| && W.Last(run).buckets[k].blocks <= MAX_BLOCK
    ensures Resting(more, limit, a + 1) && GoesOn(run, more)
    ensures SpecStep(AbsOf(W.Last(run)), AbsOf(W.Last(more)), a, EvInsert(id, e))
    ensures W.Last(run).erasures != [] ==> id.slot == W.Last(run).erasures[0]
    ensures |C.Touched(W.Last(more))| == |C.Touched(W.Last(run))| + (if W.Last(run).erasures == [] then 1 else 0)
  {
    hide IsSequential, C.Touched, AbsOf, Inv, I.Inv, X.AtRest, X.Given, SpecStep;
    var half, r := InsertStarts(run, limit, a, e, k);
    var start := W.Last(half);
    X.GivenWorks(start, r, a, e);
    var c, ev;
    more, c, ev := Works(half, limit, start, r, a, Tau);
    X.ReleaseEnds(start, W.Last(more), r, a, c, ev);
    id := Id(r, c.pc.outcome.ord);
  }

  /** `remove` of a live element without guards. */
  lemma Removes(run: Run, limit: nat, a: P.CallId, id: Id) returns (more: Run, e: P.Element)
    requires Resting(run, limit, a) && id in AbsOf(W.Last(run)).live && AbsOf(W.Last(run)).live[id].Free()
    ensures Resting(more, limit, a + 1) && GoesOn(run, more)
    ensures SpecStep(AbsOf(W.Last(run)), AbsOf(W.Last(more)), a, EvRemove(id, e))
    ensures |C.Touched(W.Last(more))| == |C.Touched(W.Last(run))|
  {
    hide IsSequential, C.Touched, AbsOf, Inv, I.Inv, SpecStep, H.Sequential;
    hide X.AtRest, X.Working, X.Ends, X.Tells, X.Answers;
    var start := W.Last(run);
    X.KnownIsIssued(start, id);
    X.CallBegins(start, id.slot, a, P.Remove(id.ord), P.DontBlock);
    var m := AtSlot(id.slot, P.Begin(P.Remove(id.ord), P.DontBlock));
    WorkingIsSequential(start, Next(start, a, m), id.slot, a, Tau);
    more := Step(run, limit, a, m);
    NotFresh(start, a, m);
    var c, ev;
    more, c, ev := Works(more, limit, start, id.slot, a, Tau);
    X.Finished(start, W.Last(more), id, a, c, ev);
    X.RemoveAnswers(AbsOf(start), AbsOf(W.Last(more)), id, a, c, ev);
    FreeIsFound(X.RemoveResponse(c), AbsOf(start), AbsOf(W.Last(more)), id, a, c, ev);
    e := X.RemoveResponse(c).value;
  }

  lemma FreeIsFound(result: X.Response<P.Element>, pre: Spec<Id>, post: Spec<Id>, id: Id, a: P.CallId, c: P.Call,
                    ev: Event<nat>)
    requires X.Tells(pre, post, id, a, c, ev) && id in pre.live && pre.live[id].Free()
    requires X.Answers(result, pre, post, id, id in pre.live && !pre.live[id].Free(), c.timeout) && !result.Panic?
    ensures result.Found?
  {
  }

  // ----- one slot through all its identifiers

  /** Only slot `r` was ever touched, it is empty, and its next ordinal is `n`. */
  predicate Single(s: Store, r: SlotRef, n: nat) {
    C.Touched(s) == {r} && AbsOf(s).live == map[] && r in s.slots && s.slots[r].word.id == n
  }

  /** Where the slot is then. */
  lemma SingleIsPooled(s: Store, r: SlotRef, n: nat)
    requires Inv(s) && X.AtRest(s) && Single(s, r, n)
    ensures n <= HeaderWord.RESERVED_ID
    ensures n < HeaderWord.RESERVED_ID ==> s.erasures != [] && s.erasures[0] == r
    ensures n == HeaderWord.RESERVED_ID ==> s.erasures == [] && H.Count(s, H.Retired) == 1
  {
    hide AbsOf, FreshInv, BucketsInv, CallsInv, ErasuresInv, C.Touched;
    EmptySlot(s, r, n);
    PoolSlot(s.slots[r]);
    SingleQueue(s, r);
    SingleRetired(s, r);
  }

  /** The queue has the slot or nothing. */
  lemma SingleQueue(s: Store, r: SlotRef)
    requires ErasuresInv(s) && C.Touched(s) == {r} && r in s.slots
    ensures s.erasures != [] <==> s.slots[r].home.Queued?
    ensures s.erasures != [] ==> s.erasures[0] == r
  {
    if s.erasures != [] {
      assert s.erasures[0] in s.erasures;
      assert s.erasures[0] in C.Touched(s);
    }
  }

  lemma SingleRetired(s: Store, r: SlotRef)
    requires C.Touched(s) == {r} && r in s.slots
    ensures s.slots[r].home.Retired? ==> H.Count(s, H.Retired) == 1
  {
    if s.slots[r].home.Retired? {
      forall q | q in H.OfKind(s.slots, H.Retired) ensures q == r { assert q in C.Touched(s); }
      assert H.OfKind(s.slots, H.Retired) == {r};
    }
  }

  /** At rest an empty slot is in the pool or retired, as its ordinal says. */
  lemma PoolSlot(c: P.Slot)
    requires I.Inv(c) && Solo.AllRest(c) && !c.word.Occupied() && !c.home.Fresh?
    ensures c.word.id <= HeaderWord.RESERVED_ID
    ensures if c.word.id == HeaderWord.RESERVED_ID then c.home.Retired? else c.home.Queued?
  {
    if c.home.Held? { I.InvMoves(c, c.home.owner); }
  }

  lemma EmptySlot(s: Store, r: SlotRef, n: nat)
    requires SlotsInv(s) && X.AtRest(s) && Single(s, r, n)
    ensures I.Inv(s.slots[r]) && Solo.AllRest(s.slots[r]) && !s.slots[r].word.Occupied() && !s.slots[r].home.Fresh?
  {
    hide AbsOf, Solo.AllRest;
    AbsAt(s, r, n);
    assert r in C.Touched(s);
    LiveWhenOccupied(s.slots[r]);
  }

  lemma LiveWhenOccupied(c: P.Slot)
    requires I.Inv(c)
    ensures c.word.Occupied() <==> c.word.id in L.SpecOf(c).live
    ensures forall o :: o in L.SpecOf(c).live ==> o == c.word.id
    ensures forall o: nat :: o in L.SpecOf(c).gone <==> o < c.word.id
  {
  }

  /** The ordinal of a slot is the number of its removed identifiers. */
  lemma OrdinalAfter(s: Store, t: Store, r: SlotRef, n: nat)
    requires SlotsInv(s) && SlotsInv(t) && r in s.slots && r in t.slots && s.slots[r].word.id == n
    ensures AbsOf(t).gone == AbsOf(s).gone ==> t.slots[r].word.id == n
    ensures AbsOf(t).gone == AbsOf(s).gone + {Id(r, n)} ==> t.slots[r].word.id == n + 1
  {
    hide AbsOf, I.Inv;
    var m := t.slots[r].word.id;
    LiveWhenOccupied(s.slots[r]);
    LiveWhenOccupied(t.slots[r]);
    AbsAt(s, r, n);
    AbsAt(t, r, n);
    AbsAt(s, r, m);
    AbsAt(t, r, m);
    AbsAt(s, r, n + 1);
    AbsAt(t, r, n + 1);
    if m > 0 { AbsAt(s, r, m - 1); AbsAt(t, r, m - 1); }
  }

  /** What an insertion into an empty map gives. */
  lemma OnlyOne(s: Spec<Id>, t: Spec<Id>, a: P.CallId, id: Id, e: P.Element)
    requires SpecStep(s, t, a, EvInsert(id, e)) && s.live == map[]
    ensures t.live == map[id := Entry(e, {}, {})] && t.gone == s.gone
  {
  }

  lemma NoneLeft(s: Spec<Id>, t: Spec<Id>, a: P.CallId, id: Id, e: P.Element)
    requires SpecStep(s, t, a, EvRemove(id, e)) && s.live.Keys == {id}
    ensures t.live == map[] && t.gone == s.gone + {id}
  {
    assert t.live.Keys == {};
  }

  lemma SameSize(s: set<SlotRef>, t: set<SlotRef>, r: SlotRef)
    requires s == {r} && s <= t && |t| == |s|
    ensures t == {r}
  {
    assert |t - s| == 0;
  }

  lemma LaterTouched(run: Run, more: Run, limit: nat)
    requires IsSequential(more, limit) && GoesOn(run, more)
    ensures C.Touched(W.Last(run)) <= C.Touched(W.Last(more))
  {
    hide C.Touched;
    H.TouchedNeverDecreases(more, limit, |run.states| - 1, |more.states| - 1);
  }

  lemma LiveOrdinal(s: Store, id: Id)
    requires SlotsInv(s) && id in AbsOf(s).live
    ensures id.slot in s.slots && id.ord == s.slots[id.slot].word.id && id.slot in C.Touched(s)
  {
    hide AbsOf, I.Inv;
    AbsAt(s, id.slot, id.ord);
    assert id == Id(id.slot, id.ord);
    LiveWhenOccupied(s.slots[id.slot]);
    OccupiedIsTouched(s.slots[id.slot]);
  }

  lemma OccupiedIsTouched(c: P.Slot)
    requires I.Inv(c) && c.word.Occupied()
    ensures !c.home.Fresh?
  {
  }

  /** Slot `r`, the only one touched, has the only element, under its ordinal `n`. */
  predicate Filled(s: Store, r: SlotRef, n: nat, e: P.Element) {
    && C.Touched(s) == {r} && r in s.slots && s.slots[r].word.id == n
    && AbsOf(s).live == map[Id(r, n) := Entry(e, {}, {})]
  }

  lemma RestingParts(run: Run, limit: nat, free: P.CallId)
    requires Resting(run, limit, free)
    ensures Inv(W.Last(run)) && SlotsInv(W.Last(run)) && X.AtRest(W.Last(run))
  {
  }

  /** The slot is used once more. */
  lemma Refills(run: Run, limit: nat, a: P.CallId, r: SlotRef, n: nat, e: P.Element) returns (more: Run)
    requires Resting(run, limit, a) && Single(W.Last(run), r, n) && n < HeaderWord.RESERVED_ID && e.token == a
    ensures Resting(more, limit, a + 1) && GoesOn(run, more) && Filled(W.Last(more), r, n, e)
  {
    hide Resting, AbsOf, C.Touched, Inv, SpecStep, SlotsInv, X.AtRest;
    RestingRun(run, limit, a);
    RestingParts(run, limit, a);
    SingleIsPooled(W.Last(run), r, n);
    var id;
    more, id := Inserts(run, limit, a, e, 0);
    OnlyOne(AbsOf(W.Last(run)), AbsOf(W.Last(more)), a, id, e);
    RestingParts(more, limit, a + 1);
    LiveOrdinal(W.Last(more), id);
    RestingRun(more, limit, a + 1);
    LaterTouched(run, more, limit);
    SameSize(C.Touched(W.Last(run)), C.Touched(W.Last(more)), r);
    OrdinalAfter(W.Last(run), W.Last(more), r, n);
    assert id == Id(r, n);
  }

  lemma RestingRun(run: Run, limit: nat, free: P.CallId)
    requires Resting(run, limit, free)
    ensures IsSequential(run, limit) && run.states != []
  {
  }

  /** And emptied again: the ordinal is one higher. */
  lemma Empties(run: Run, limit: nat, a: P.CallId, r: SlotRef, n: nat, e: P.Element) returns (more: Run)
    requires Resting(run, limit, a) && Filled(W.Last(run), r, n, e)
    ensures Resting(more, limit, a + 1) && GoesOn(run, more) && Single(W.Last(more), r, n + 1)
  {
    hide Resting, AbsOf, C.Touched, Inv, SpecStep, SlotsInv, X.AtRest;
    RestingParts(run, limit, a);
    RestingRun(run, limit, a);
    var removed;
    more, removed := Removes(run, limit, a, Id(r, n));
    NoneLeft(AbsOf(W.Last(run)), AbsOf(W.Last(more)), a, Id(r, n), removed);
    RestingParts(more, limit, a + 1);
    RestingRun(more, limit, a + 1);
    LaterTouched(run, more, limit);
    SameSize(C.Touched(W.Last(run)), C.Touched(W.Last(more)), r);
    TouchedExists(W.Last(more), r);
    OrdinalAfter(W.Last(run), W.Last(more), r, n);
  }

  lemma TouchedExists(s: Store, r: SlotRef)
    requires C.Touched(s) == {r}
    ensures r in s.slots
  {
    assert r in C.Touched(s);
  }

  /** One insertion and removal after the other, until the slot is retired. */
  lemma {:induction false} Exhausts(run: Run, limit: nat, a: P.CallId, r: SlotRef, n: nat)
      returns (more: Run, free: P.CallId)
    requires Resting(run, limit, a) && Single(W.Last(run), r, n) && n <= HeaderWord.RESERVED_ID
    ensures Resting(more, limit, free) && GoesOn(run, more) && Single(W.Last(more), r, HeaderWord.RESERVED_ID)
    decreases HeaderWord.RESERVED_ID - n
  {
    hide Resting, Single;
    RestingRun(run, limit, a);
    if n == HeaderWord.RESERVED_ID {
      more, free := run, a;
    } else {
      var e := P.Element(a, 0);
      more := Refills(run, limit, a, r, n, e);
      more := Empties(more, limit, a + 1, r, n, e);
      more, free := Exhausts(more, limit, a + 2, r, n + 1);
    }
  }

  // ----- the run

  /** The run in which nothing has happened. */
  lemma Starts(limit: nat) returns (run: Run)
    requires 0 < limit <= TWO31
    ensures Resting(run, limit, 0) && AbsOf(W.Last(run)) == Spec(map[], {}) && C.Touched(W.Last(run)) == {}
  {
    hide Inv, AbsOf, X.AtRest, X.Roomy, H.Sequential, NewStore, C.Touched;
    run := Run([NewStore(limit)], []);
    X.EmptyStore(limit);
    RestIsIdle(NewStore(limit));
    NothingTouched(limit);
  }

  lemma NothingTouched(limit: nat)
    ensures C.Touched(NewStore(limit)) == {}
  {
  }

  /** With at most one slot touched every bucket can still grow. */
  lemma FewBlocks(s: Store, k: nat)
    requires Inv(s) && |C.Touched(s)| <= 1 && k < BUCKET_COUNT
    ensures k < |s.buckets| && s.buckets[k].blocks <= MAX_BLOCK
  {
    C.TouchedInBucket(s, k);
    assert C.TouchedIn(s, k) <= C.Touched(s);
    SmallerSet(C.TouchedIn(s, k), C.Touched(s));
    FewHanded(s.buckets[k]);
  }

  lemma SmallerSet(s: set<SlotRef>, t: set<SlotRef>)
    requires s <= t
    ensures |s| <= |t|
  {
    assert |t - s| == |t| - |s|;
  }

  lemma FewHanded(b: B.Bucket)
    requires C.HandedNumber(b) <= 1
    ensures b.blocks <= 2
  {
  }

  /** The first insertion touches the slot, and the removal empties it. */
  lemma FirstUse(limit: nat) returns (run: Run, r: SlotRef)
    requires 0 < limit <= TWO31
    ensures Resting(run, limit, 2) && Single(W.Last(run), r, 1)
  {
    hide Resting, AbsOf, C.Touched, Inv, SpecStep, SlotsInv, X.AtRest;
    var start := Starts(limit);
    var e := P.Element(0, 0);
    RestingRun(start, limit, 0);
    RestingParts(start, limit, 0);
    FewBlocks(W.Last(start), 0);
    var id;
    run, id := Inserts(start, limit, 0, e, 0);
    OnlyOne(AbsOf(W.Last(start)), AbsOf(W.Last(run)), 0, id, e);
    RestingRun(run, limit, 1);
    RestingParts(run, limit, 1);
    LiveOrdinal(W.Last(run), id);
    NothingRemoved(W.Last(run), id.slot);
    r := id.slot;
    OneTouched(W.Last(run), r);
    assert id == Id(r, 0);
    run := Empties(run, limit, 1, r, 0, e);
  }

  lemma NothingRemoved(s: Store, r: SlotRef)
    requires SlotsInv(s) && r in s.slots && AbsOf(s).gone == {}
    ensures s.slots[r].word.id == 0
  {
    hide AbsOf, I.Inv;
    LiveWhenOccupied(s.slots[r]);
    AbsAt(s, r, 0);
  }

  lemma OneTouched(s: Store, r: SlotRef)
    requires |C.Touched(s)| == 1 && r in C.Touched(s)
    ensures C.Touched(s) == {r}
  {
    hide C.Touched;
    assert |C.Touched(s) - {r}| == 0;
  }

  /** Before state `m` one slot is touched; after it one of two is retired. */
  lemma LiveAtMostOne(run: Run, limit: nat, m: nat, i: nat)
    requires IsRun(run, limit) && m < |run.states| && i < |run.states|
    requires |C.Touched(run.states[m])| == 1 && H.Count(run.states[m], H.Retired) == 1
    requires |C.Touched(run.states[|run.states| - 1])| == 2
    ensures H.LiveNumber(run.states[i]) <= 1
  {
    hide IsRun, C.Touched, H.LiveNumber, H.Count, H.InUse;
    if i <= m {
      H.UseNeverAboveTouched(run, limit, i, m);
    } else {
      H.UseNeverAboveTouched(run, limit, i, |run.states| - 1);
      H.UseBelowTouched(run, limit, i);
      H.RetiredNeverDecreases(run, limit, m, i);
    }
  }

  lemma PeakIsOne(run: Run, limit: nat, m: nat)
    requires IsRun(run, limit) && m < |run.states|
    requires |C.Touched(run.states[m])| == 1 && H.Count(run.states[m], H.Retired) == 1
    requires |C.Touched(W.Last(run))| == 2 && H.LiveNumber(W.Last(run)) == 1
    ensures H.Peak(run, |run.states| - 1) == 1
  {
    hide IsRun, C.Touched, H.Count, H.LiveNumber;
    var n := |run.states| - 1;
    var xs := H.LiveNumbers(run, n);
    forall i | 0 <= i < |xs| ensures xs[i] <= 1 {
      LiveAtMostOne(run, limit, m, i);
    }
    H.LargestWithin(xs, 1);
    H.InLargest(xs, n);
  }

  /** Slot `r` is retired, and everything rests. */
  lemma RetiresOne(limit: nat) returns (run: Run, free: P.CallId)
    requires 0 < limit <= TWO31
    ensures Resting(run, limit, free) && AbsOf(W.Last(run)).live == map[] && W.Last(run).erasures == []
    ensures |C.Touched(W.Last(run))| == 1 && H.Count(W.Last(run), H.Retired) == 1
  {
    hide Resting, AbsOf, Inv, SlotsInv, X.AtRest, H.Count, C.Touched;
    var r;
    run, r := FirstUse(limit);
    run, free := Exhausts(run, limit, 2, r, 1);
    RestingRun(run, limit, free);
    RestingParts(run, limit, free);
    SingleIsPooled(W.Last(run), r, HeaderWord.RESERVED_ID);
  }

  /**
   A sequential run that ends at rest with two slots touched, although there never was more
   than one element: the first slot went through all its identifiers and is retired.
   */
  lemma SequentialTouchedExceedsPeak() returns (run: Run)
    ensures IsRun(run, 1) && H.SequentialRun(run) && H.Idle(W.Last(run))
    ensures |C.Touched(W.Last(run))| == 2 && H.Peak(run, |run.states| - 1) == 1
    ensures !DocumentedPeak.TakenUnretired(run, |run.states| - 1)
  {
    hide Resting, AbsOf, Inv, SlotsInv, SpecStep, X.AtRest, H.Count, C.Touched, H.Idle, H.Peak, H.LiveNumber;
    var half, free := RetiresOne(1);
    RestingRun(half, 1, free);
    RestingParts(half, 1, free);
    FewBlocks(W.Last(half), 0);
    var e := P.Element(free, 0);
    var id;
    run, id := Inserts(half, 1, free, e, 0);
    OnlyOne(AbsOf(W.Last(half)), AbsOf(W.Last(run)), free, id, e);
    RestingRun(run, 1, free + 1);
    RestingParts(run, 1, free + 1);
    RestIsIdle(W.Last(run));
    OneLive(W.Last(run), id, e);
    PeakIsOne(run, 1, |half.states| - 1);
    DocumentedPeak.TouchedIsPeakExactly(run, 1, |run.states| - 1);
  }

  lemma OneLive(s: Store, id: Id, e: P.Element)
    requires AbsOf(s).live == map[id := Entry(e, {}, {})]
    ensures H.LiveNumber(s) == 1
  {
    hide AbsOf;
  }
}
