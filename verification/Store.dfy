/**
 The whole store (src/lib.rs): sixteen buckets, the slots of all their blocks, and the
 queue of erasures, under any interleaving of any number of calls.

 A step of the store is a step of one slot or of one bucket, together with what the
 program does in the same access: an insertion that gets a location reserves the slot,
 an expansion brings new slots, and `push_erasure` queues the slot.  A call inside the
 allocator does not touch its slot before it has left.
 */
module Store {
  import opened Bits
  import opened Blocks
  import opened SlotProtocol
  import I = SlotInvariant
  import B = Bucket
  import F = SlotFacts

  const BUCKET_COUNT: nat := 16

  /** The address of a slot: `index` is the physical position in the block. */
  datatype SlotRef = SlotRef(bucket: nat, block: nat, index: nat)

  datatype Store = Store(
    slots: map<SlotRef, Slot>,
    erasures: seq<SlotRef>,
    buckets: seq<B.Bucket>,
    elements: map<CallId, Element>,     // what the calls inside the allocator are inserting
    used: set<CallId>                   // calls that have begun
  )

  function NewStore(limit: nat): Store {
    Store(map[], [], seq(BUCKET_COUNT, _ => B.NewBucket(limit)), map[], {})
  }

  datatype StoreMove =
    | StartInsert(element: Element, bucket: nat)  // pop an erasure, or go to the bucket
    | Allocate(bucket: nat)
    | AtSlot(slot: SlotRef, move: Move)

  function RefOf(bucket: nat, l: B.Location): SlotRef {
    SlotRef(bucket, l.block, ScrambleSlot(Pow2(l.block), l.slot))
  }

  function LogicalOf(r: SlotRef): B.Location {
    B.Location(r.block, UnscrambleSlot(Pow2(r.block), r.index))
  }

  /** The call is between entering and leaving a bucket. */
  predicate InAllocator(s: Store, a: CallId) {
    exists k :: 0 <= k < |s.buckets| && a in s.buckets[k].calls
  }

  /** The step of the call pushes its slot to the erasures. */
  predicate Pushes(s: Slot, a: CallId, m: Move) {
    m.Go? && a in s.calls && s.calls[a].pc.PushErasure?
  }

  predicate Enabled(s: Store, a: CallId, m: StoreMove) {
    match m
    case StartInsert(e, k) =>
      && a !in s.used && e.token == a
      && if s.erasures != [] then s.erasures[0] in s.slots
         else k < |s.buckets| && B.CanBegin(s.buckets[k], a)
    case Allocate(k) =>
      && k < |s.buckets| && B.Enabled(s.buckets[k], a)
      && (B.FetchesNow(s.buckets[k], a) ==>
            a in s.elements && RefOf(k, B.Offered(s.buckets[k])) in s.slots)
    case AtSlot(r, mv) =>
      && r in s.slots && SlotProtocol.Enabled(s.slots[r], a, mv)
      && !mv.BeginInsert?
      && (mv.Begin? ==> a !in s.used)
      && !InAllocator(s, a)
  }

  function Next(s: Store, a: CallId, m: StoreMove): Store
    requires Enabled(s, a, m)
  {
    match m
    case StartInsert(e, k) =>
      if s.erasures != [] then
        var r := s.erasures[0];
        s.(slots := s.slots[r := Reserve(s.slots[r], a, e)], erasures := s.erasures[1..], used := s.used + {a})
      else
        s.(buckets := s.buckets[k := B.Begin(s.buckets[k], a)],
           elements := s.elements[a := e], used := s.used + {a})
    case Allocate(k) =>
      var b := s.buckets[k];
      var t := s.(buckets := s.buckets[k := B.Next(b, a)]);
      if B.FetchesNow(b, a) then
        var r := RefOf(k, B.Offered(b));
        t.(slots := s.slots[r := Reserve(s.slots[r], a, s.elements[a])])
      else if b.calls[a].SlowExpand? then
        t.(slots := s.slots + NewBlock(k, b.blocks))
      else t
    case AtSlot(r, mv) =>
      s.(slots := s.slots[r := SlotProtocol.Next(s.slots[r], a, mv)],
         erasures := if Pushes(s.slots[r], a, mv) then s.erasures + [r] else s.erasures,
         used := s.used + {a})
  }

  /** `Block::new`: every slot of the block, unoccupied with ID 0. */
  function NewBlock(bucket: nat, block: nat): map<SlotRef, Slot> {
    map i: nat | 0 <= i < Pow2(block) :: SlotRef(bucket, block, i) := NEW_SLOT
  }

  // ----- the invariant

  predicate InRange(s: Store, r: SlotRef)
    requires |s.buckets| == BUCKET_COUNT
  {
    r.bucket < BUCKET_COUNT && r.block < s.buckets[r.bucket].blocks && r.index < Pow2(r.block)
  }

  ghost predicate BucketsInv(s: Store) {
    && |s.buckets| == BUCKET_COUNT
    && (forall k :: 0 <= k < BUCKET_COUNT ==> B.Inv(s.buckets[k]))
    && (forall r :: r in s.slots <==> InRange(s, r))
  }

  ghost predicate SlotsInv(s: Store) {
    forall r :: r in s.slots ==> I.Inv(s.slots[r])
  }

  /** Exactly the slots that were never handed out are fresh. */
  predicate FreshInv(s: Store)
    requires |s.buckets| == BUCKET_COUNT
  {
    forall r :: r in s.slots && InRange(s, r) ==>
      (s.slots[r].home.Fresh? <==> !B.HandedOut(s.buckets[r.bucket], LogicalOf(r)))
  }

  /** The erasures are the queued slots, each once. */
  predicate ErasuresInv(s: Store) {
    && (forall r :: r in s.erasures ==> r in s.slots && s.slots[r].home.Queued?)
    && (forall r :: r in s.slots && s.slots[r].home.Queued? ==> r in s.erasures)
    && (forall i, j :: 0 <= i < j < |s.erasures| ==> s.erasures[i] != s.erasures[j])
  }

  predicate Carrying(pc: B.Pc) {
    pc.FastHit? || pc.SlowHit?
  }

  predicate SlotCallsInv(s: Store) {
    && (forall r, a :: r in s.slots && a in s.slots[r].calls ==> a in s.used)
    && (forall q, r, a :: q in s.slots && r in s.slots && a in s.slots[q].calls && a in s.slots[r].calls ==> q == r)
  }

  predicate BucketCallsInv(s: Store) {
    && (forall k, a :: 0 <= k < |s.buckets| && a in s.buckets[k].calls ==>
          a in s.used && a in s.elements && s.elements[a].token == a)
    && (forall j, k, a :: (0 <= j < |s.buckets| && 0 <= k < |s.buckets|
                           && a in s.buckets[j].calls && a in s.buckets[k].calls) ==> j == k)
  }

  /** The slot that a call in a bucket was given, if any, is the only one that knows the call. */
  predicate Placed(s: Store, k: nat, a: CallId)
    requires k < |s.buckets| && a in s.buckets[k].calls
  {
    var pc := s.buckets[k].calls[a];
    if Carrying(pc) then
      var r := RefOf(k, pc.location);
      r in s.slots && a in s.slots[r].calls && s.slots[r].calls[a].pc.InsertWrite?
    else
      forall r :: r in s.slots ==> a !in s.slots[r].calls
  }

  predicate PlacedInv(s: Store) {
    forall k, a :: 0 <= k < |s.buckets| && a in s.buckets[k].calls ==> Placed(s, k, a)
  }

  /** A call is at one slot or in one bucket, or brings the slot it was given. */
  predicate CallsInv(s: Store) {
    SlotCallsInv(s) && BucketCallsInv(s) && PlacedInv(s)
  }

  ghost predicate Inv(s: Store) {
    BucketsInv(s) && SlotsInv(s) && FreshInv(s) && ErasuresInv(s) && CallsInv(s)
  }

  lemma InvInit(limit: nat)
    requires limit <= TWO31
    ensures Inv(NewStore(limit))
  {
    B.InvInit(limit);
  }

  // ----- the two numberings of a block

  lemma RefRoundTrip(k: nat, l: B.Location)
    requires l.block <= MAX_BLOCK && l.slot < Pow2(l.block)
    ensures LogicalOf(RefOf(k, l)) == l && RefOf(k, l).index < Pow2(l.block)
  {
    ScramblePermutes(l.block, l.slot);
  }

  lemma LogicalRoundTrip(r: SlotRef)
    requires r.block <= MAX_BLOCK && r.index < Pow2(r.block)
    ensures RefOf(r.bucket, LogicalOf(r)) == r && LogicalOf(r).slot < Pow2(r.block)
  {
    ScramblePermutes(r.block, r.index);
  }

  // ----- a step at a slot

  lemma SlotStep(s: Store, r: SlotRef, a: CallId, mv: Move)
    requires Inv(s) && Enabled(s, a, AtSlot(r, mv))
    ensures Inv(Next(s, a, AtSlot(r, mv)))
  {
    SlotStepFacts(s.slots[r], a, mv);
    SlotChange(s, Next(s, a, AtSlot(r, mv)), r, a, Pushes(s.slots[r], a, mv));
  }

  lemma SlotStepFacts(c: Slot, a: CallId, mv: Move)
    requires I.Inv(c) && SlotProtocol.Enabled(c, a, mv) && !mv.BeginInsert?
    ensures
      var d := SlotProtocol.Next(c, a, mv);
      && I.Inv(d) && OneCallMoved(c, d, a)
      && HomeMoved(c, d, Pushes(c, a, mv))
  {
    I.StepKeepsInv(c, a, mv);
    F.StepTouchesOneCall(c, a, mv);
    F.StepHome(c, a, mv);
  }

  predicate OneCallMoved(c: Slot, d: Slot, a: CallId) {
    && a in d.calls && d.calls.Keys == c.calls.Keys + {a}
    && d.calls == c.calls[a := d.calls[a]]
  }

  predicate HomeMoved(c: Slot, d: Slot, push: bool) {
    && (d.home.Fresh? <==> c.home.Fresh?)
    && if push then !c.home.Queued? && d.home.Queued? else c.home.Queued? == d.home.Queued?
  }

  lemma SlotChange(s: Store, t: Store, r: SlotRef, a: CallId, push: bool)
    requires Inv(s) && r in s.slots && r in t.slots && t.slots == s.slots[r := t.slots[r]]
    requires I.Inv(t.slots[r]) && OneCallMoved(s.slots[r], t.slots[r], a) && HomeMoved(s.slots[r], t.slots[r], push)
    requires t.buckets == s.buckets && t.elements == s.elements && t.used == s.used + {a}
    requires t.erasures == if push then s.erasures + [r] else s.erasures
    requires a in s.slots[r].calls || a !in s.used
    requires !InAllocator(s, a)
    ensures Inv(t)
  {
    SlotStepSlots(s, t, r);
    SlotStepFresh(s, t, r);
    SlotStepErasures(s, t, r, push);
    SlotStepCalls(s, t, r, a);
  }

  lemma SlotStepSlots(s: Store, t: Store, r: SlotRef)
    requires BucketsInv(s) && SlotsInv(s)
    requires r in s.slots && r in t.slots && t.slots == s.slots[r := t.slots[r]] && t.buckets == s.buckets
    requires I.Inv(t.slots[r])
    ensures BucketsInv(t) && SlotsInv(t)
  {
  }

  lemma SlotStepFresh(s: Store, t: Store, r: SlotRef)
    requires |s.buckets| == BUCKET_COUNT && FreshInv(s)
    requires r in s.slots && r in t.slots && t.slots == s.slots[r := t.slots[r]] && t.buckets == s.buckets
    requires t.slots[r].home.Fresh? == s.slots[r].home.Fresh?
    ensures FreshInv(t)
  {
  }

  lemma SlotStepErasures(s: Store, t: Store, r: SlotRef, push: bool)
    requires ErasuresInv(s) && r in s.slots && r in t.slots && t.slots == s.slots[r := t.slots[r]]
    requires t.erasures == if push then s.erasures + [r] else s.erasures
    requires if push then !s.slots[r].home.Queued? && t.slots[r].home.Queued?
             else s.slots[r].home.Queued? == t.slots[r].home.Queued?
    ensures ErasuresInv(t)
  {
    if push { assert r !in s.erasures; }
    forall q | q in t.slots && t.slots[q].home.Queued? ensures q in t.erasures {
      if push && q == r { assert t.erasures[|s.erasures|] == r; } else { assert q in s.erasures; }
    }
  }

  lemma SlotStepCalls(s: Store, t: Store, r: SlotRef, a: CallId)
    requires CallsInv(s) && r in s.slots && r in t.slots && t.slots == s.slots[r := t.slots[r]]
    requires t.buckets == s.buckets && t.elements == s.elements && t.used == s.used + {a}
    requires t.slots[r].calls.Keys == s.slots[r].calls.Keys + {a} && a in t.slots[r].calls
    requires t.slots[r].calls == s.slots[r].calls[a := t.slots[r].calls[a]]
    requires a in s.slots[r].calls || a !in s.used
    requires !InAllocator(s, a)
    ensures CallsInv(t)
  {
    forall q, b | q in t.slots && b in t.slots[q].calls
      ensures (b == a && q == r) || (q in s.slots && b in s.slots[q].calls)
    {
    }
    forall k, b | 0 <= k < |t.buckets| && b in t.buckets[k].calls ensures Placed(t, k, b) {
      assert b != a;
      assert Placed(s, k, b);
    }
  }

  // ----- an insertion begins

  lemma PopStep(s: Store, a: CallId, e: Element, k: nat)
    requires Inv(s) && Enabled(s, a, StartInsert(e, k)) && s.erasures != []
    ensures Inv(Next(s, a, StartInsert(e, k)))
  {
    var t := Next(s, a, StartInsert(e, k));
    var r := s.erasures[0];
    ReserveFacts(s, r, a, e);
    SlotStepSlots(s, t, r);
    SlotStepFresh(s, t, r);
    PopErasures(s, t, r);
    NewCallNotInAllocator(s, a);
    SlotStepCalls(s, t, r, a);
  }

  lemma ReserveFacts(s: Store, r: SlotRef, a: CallId, e: Element)
    requires SlotsInv(s) && SlotCallsInv(s) && r in s.slots && e.token == a
    requires a !in s.slots[r].calls && (s.slots[r].home.Queued? || s.slots[r].home.Fresh?)
    ensures
      var d := Reserve(s.slots[r], a, e);
      && I.Inv(d) && OneCallMoved(s.slots[r], d, a) && d.home == Held(a) && d.calls[a].pc.InsertWrite?
  {
    I.StepKeepsInv(s.slots[r], a, BeginInsert(e));
  }

  lemma PopErasures(s: Store, t: Store, r: SlotRef)
    requires ErasuresInv(s) && s.erasures != [] && r == s.erasures[0] && t.erasures == s.erasures[1..]
    requires r in s.slots && r in t.slots && t.slots == s.slots[r := t.slots[r]] && !t.slots[r].home.Queued?
    ensures ErasuresInv(t)
  {
    forall q | q in t.erasures ensures q in t.slots && t.slots[q].home.Queued? {
      var i :| 0 <= i < |t.erasures| && t.erasures[i] == q;
      assert q == s.erasures[i + 1];
    }
    forall q | q in t.slots && t.slots[q].home.Queued? ensures q in t.erasures {
      assert q in s.erasures;
      var i :| 0 <= i < |s.erasures| && s.erasures[i] == q;
      assert t.erasures[i - 1] == q;
    }
  }

  lemma NewCallNotInAllocator(s: Store, a: CallId)
    requires BucketCallsInv(s) && a !in s.used
    ensures !InAllocator(s, a)
  {
  }

  lemma EnterStep(s: Store, a: CallId, e: Element, k: nat)
    requires Inv(s) && Enabled(s, a, StartInsert(e, k)) && s.erasures == []
    ensures Inv(Next(s, a, StartInsert(e, k)))
  {
    var t := Next(s, a, StartInsert(e, k));
    B.BeginKeepsInv(s.buckets[k], a);
    BucketStepFresh(s, t, k);
    EnterCalls(s, t, k, a);
  }

  /** A bucket step that neither hands out nor brings slots. */
  lemma BucketStepFresh(s: Store, t: Store, k: nat)
    requires BucketsInv(s) && SlotsInv(s) && FreshInv(s) && k < BUCKET_COUNT
    requires t.slots == s.slots && |t.buckets| == BUCKET_COUNT && t.buckets == s.buckets[k := t.buckets[k]]
    requires B.Inv(t.buckets[k]) && t.buckets[k].blocks == s.buckets[k].blocks
    requires forall l :: B.HandedOut(t.buckets[k], l) <==> B.HandedOut(s.buckets[k], l)
    ensures BucketsInv(t) && SlotsInv(t) && FreshInv(t)
  {
    hide I.Inv, B.Inv, B.HandedOut;
  }

  lemma EnterBucketCalls(s: Store, t: Store, k: nat, a: CallId)
    requires BucketCallsInv(s) && k < |s.buckets| && a !in s.used && a in t.elements && t.elements[a].token == a
    requires t.buckets == s.buckets[k := B.Begin(s.buckets[k], a)]
    requires t.elements == s.elements[a := t.elements[a]] && t.used == s.used + {a}
    ensures BucketCallsInv(t)
  {
  }

  lemma EnterCalls(s: Store, t: Store, k: nat, a: CallId)
    requires CallsInv(s) && k < |s.buckets| && a !in s.used && a in t.elements && t.elements[a].token == a
    requires t.slots == s.slots && t.buckets == s.buckets[k := B.Begin(s.buckets[k], a)]
    requires t.elements == s.elements[a := t.elements[a]] && t.used == s.used + {a}
    ensures CallsInv(t)
  {
    EnterBucketCalls(s, t, k, a);
    hide BucketCallsInv;
    forall j, c | 0 <= j < |t.buckets| && c in t.buckets[j].calls ensures Placed(t, j, c) {
      if c != a { assert Placed(s, j, c); }
    }
  }

  // ----- a step inside the allocator

  lemma BucketStepTouchesOneCall(b: B.Bucket, a: CallId)
    requires B.Enabled(b, a)
    ensures var t := B.Next(b, a);
      && (forall c :: c in t.calls && c != a ==> c in b.calls && t.calls[c] == b.calls[c])
      && (a in t.calls ==> (Carrying(t.calls[a]) <==> B.FetchesNow(b, a)))
      && (Carrying(b.calls[a]) ==> a !in t.calls)
      && (!b.calls[a].SlowExpand? ==> t.blocks == b.blocks)
  {
  }

  /** An allocator step always finds the slot it is about to hand out, and the element to put there. */
  lemma AllocateReady(s: Store, a: CallId, k: nat)
    requires Inv(s) && k < BUCKET_COUNT && B.Enabled(s.buckets[k], a)
    ensures Enabled(s, a, Allocate(k))
    ensures B.FetchesNow(s.buckets[k], a) ==>
              var r := RefOf(k, B.Offered(s.buckets[k]));
              && r in s.slots && LogicalOf(r) == B.Offered(s.buckets[k])
              && s.slots[r].home.Fresh? && a !in s.slots[r].calls && s.elements[a].token == a
  {
    if B.FetchesNow(s.buckets[k], a) {
      OfferedIsFresh(s, a, k);
      FetcherIsNew(s, a, k);
    }
  }

  /** A call that is about to fetch has an element and is not at any slot yet. */
  lemma FetcherIsNew(s: Store, a: CallId, k: nat)
    requires CallsInv(s) && k < |s.buckets| && B.FetchesNow(s.buckets[k], a)
    ensures a in s.elements && s.elements[a].token == a
    ensures forall r :: r in s.slots ==> a !in s.slots[r].calls
  {
    assert Placed(s, k, a);
  }

  lemma OfferedIsFresh(s: Store, a: CallId, k: nat)
    requires BucketsInv(s) && FreshInv(s) && k < BUCKET_COUNT
    requires B.Enabled(s.buckets[k], a) && B.FetchesNow(s.buckets[k], a)
    ensures
      var r := RefOf(k, B.Offered(s.buckets[k]));
      r in s.slots && LogicalOf(r) == B.Offered(s.buckets[k]) && s.slots[r].home.Fresh?
  {
    var b := s.buckets[k];
    var l := B.Offered(b);
    B.HandOut(b, a, l);
    RefRoundTrip(k, l);
    assert InRange(s, RefOf(k, l));
  }

  lemma AllocateQuietStep(s: Store, a: CallId, k: nat)
    requires Inv(s) && Enabled(s, a, Allocate(k))
    requires !B.FetchesNow(s.buckets[k], a) && !s.buckets[k].calls[a].SlowExpand?
    ensures Inv(Next(s, a, Allocate(k)))
  {
    var t := Next(s, a, Allocate(k));
    var b := s.buckets[k];
    B.StepKeepsInv(b, a);
    BucketStepTouchesOneCall(b, a);
    forall l ensures B.HandedOut(t.buckets[k], l) <==> B.HandedOut(b, l) { B.HandOut(b, a, l); }
    BucketStepFresh(s, t, k);
    QuietCalls(s, t, k, a);
  }

  lemma QuietCalls(s: Store, t: Store, k: nat, a: CallId)
    requires CallsInv(s) && k < |s.buckets| && B.Enabled(s.buckets[k], a) && !B.FetchesNow(s.buckets[k], a)
    requires t.buckets == s.buckets[k := B.Next(s.buckets[k], a)]
    requires t.slots.Keys >= s.slots.Keys && t.elements == s.elements && t.used == s.used
    requires forall r :: r in t.slots ==> if r in s.slots then t.slots[r] == s.slots[r] else t.slots[r].calls == map[]
    ensures CallsInv(t)
  {
    QuietBucketCalls(s, t, k, a);
    QuietSlotCalls(s, t);
    forall j, c | 0 <= j < |t.buckets| && c in t.buckets[j].calls ensures Placed(t, j, c) {
      QuietPlaced(s, t, k, a, j, c);
    }
  }

  lemma QuietBucketCalls(s: Store, t: Store, k: nat, a: CallId)
    requires BucketCallsInv(s) && k < |s.buckets| && B.Enabled(s.buckets[k], a)
    requires t.buckets == s.buckets[k := B.Next(s.buckets[k], a)] && t.elements == s.elements && t.used == s.used
    ensures BucketCallsInv(t)
  {
    BucketStepTouchesOneCall(s.buckets[k], a);
  }

  lemma QuietSlotCalls(s: Store, t: Store)
    requires SlotCallsInv(s) && t.used == s.used
    requires forall r :: r in t.slots ==> if r in s.slots then t.slots[r] == s.slots[r] else t.slots[r].calls == map[]
    ensures SlotCallsInv(t)
  {
  }

  lemma QuietPlaced(s: Store, t: Store, k: nat, a: CallId, j: nat, c: CallId)
    requires PlacedInv(s) && k < |s.buckets| && B.Enabled(s.buckets[k], a) && !B.FetchesNow(s.buckets[k], a)
    requires t.buckets == s.buckets[k := B.Next(s.buckets[k], a)] && t.slots.Keys >= s.slots.Keys
    requires forall r :: r in t.slots ==> if r in s.slots then t.slots[r] == s.slots[r] else t.slots[r].calls == map[]
    requires j < |t.buckets| && c in t.buckets[j].calls
    ensures Placed(t, j, c)
  {
    BucketStepTouchesOneCall(s.buckets[k], a);
    assert Placed(s, j, c);
  }

  lemma ExpandStep(s: Store, a: CallId, k: nat)
    requires Inv(s) && Enabled(s, a, Allocate(k)) && s.buckets[k].calls[a].SlowExpand?
    ensures Inv(Next(s, a, Allocate(k)))
  {
    var t := Next(s, a, Allocate(k));
    B.StepKeepsInv(s.buckets[k], a);
    ExpandSlots(s, t, k);
    ExpandFresh(s, t, a, k);
    ExpandErasures(s, t, k);
    QuietCalls(s, t, k, a);
  }

  predicate Expands(s: Store, t: Store, k: nat) {
    && |s.buckets| == |t.buckets| == BUCKET_COUNT && k < BUCKET_COUNT
    && t.buckets == s.buckets[k := t.buckets[k]]
    && t.buckets[k].blocks == s.buckets[k].blocks + 1
    && t.slots == s.slots + NewBlock(k, s.buckets[k].blocks)
  }

  lemma ExpandSlots(s: Store, t: Store, k: nat)
    requires BucketsInv(s) && SlotsInv(s) && Expands(s, t, k) && B.Inv(t.buckets[k])
    ensures BucketsInv(t) && SlotsInv(t)
    ensures forall r :: r in t.slots ==> if r in s.slots then t.slots[r] == s.slots[r] else t.slots[r] == NEW_SLOT
    ensures t.slots.Keys >= s.slots.Keys
  {
    I.InvInit();
    ExpandDomain(s, t, k);
  }

  lemma ExpandDomain(s: Store, t: Store, k: nat)
    requires Expands(s, t, k) && forall r :: r in s.slots <==> InRange(s, r)
    ensures forall r :: r in t.slots <==> InRange(t, r)
    ensures forall r :: r in t.slots ==> if r in s.slots then t.slots[r] == s.slots[r] else t.slots[r] == NEW_SLOT
    ensures t.slots.Keys >= s.slots.Keys
  {
    var n := s.buckets[k].blocks;
    forall r | r in NewBlock(k, n) ensures r !in s.slots && InRange(t, r) && NewBlock(k, n)[r] == NEW_SLOT {
    }
    forall r ensures r in t.slots <==> InRange(t, r) {
      if InRange(t, r) && r.bucket == k && r.block == n { assert r == SlotRef(k, n, r.index); }
    }
  }

  lemma ExpandFresh(s: Store, t: Store, a: CallId, k: nat)
    requires BucketsInv(s) && FreshInv(s) && Expands(s, t, k) && BucketsInv(t)
    requires B.Enabled(s.buckets[k], a) && s.buckets[k].calls[a].SlowExpand? && t.buckets[k] == B.Next(s.buckets[k], a)
    requires forall r :: r in t.slots ==> if r in s.slots then t.slots[r] == s.slots[r] else t.slots[r] == NEW_SLOT
    ensures FreshInv(t)
  {
    forall r | r in t.slots && InRange(t, r)
      ensures t.slots[r].home.Fresh? <==> !B.HandedOut(t.buckets[r.bucket], LogicalOf(r))
    {
      LogicalRoundTrip(r);
      if r.bucket == k {
        B.HandOut(s.buckets[k], a, LogicalOf(r));
        B.ExpandsOnlyWhenFull(s.buckets[k], a, LogicalOf(r));
      }
      assert r in s.slots <==> InRange(s, r);
    }
  }

  lemma ExpandErasures(s: Store, t: Store, k: nat)
    requires ErasuresInv(s) && t.erasures == s.erasures && t.slots.Keys >= s.slots.Keys
    requires forall r :: r in t.slots ==> if r in s.slots then t.slots[r] == s.slots[r] else t.slots[r] == NEW_SLOT
    ensures ErasuresInv(t)
  {
  }

  lemma HandOutStep(s: Store, a: CallId, k: nat)
    requires Inv(s) && Enabled(s, a, Allocate(k)) && B.FetchesNow(s.buckets[k], a)
    ensures Inv(Next(s, a, Allocate(k)))
  {
    var t := Next(s, a, Allocate(k));
    var b := s.buckets[k];
    var r := RefOf(k, B.Offered(b));
    AllocateReady(s, a, k);
    ReserveFacts(s, r, a, s.elements[a]);
    B.StepKeepsInv(b, a);
    HandOutSlots(s, t, a, k);
    HandOutFresh(s, t, a, k);
    SlotStepErasures(s.(buckets := t.buckets), t, r, false);
    HandOutCalls(s, t, a, k);
  }

  lemma HandOutSlots(s: Store, t: Store, a: CallId, k: nat)
    requires BucketsInv(s) && SlotsInv(s) && k < BUCKET_COUNT && B.Enabled(s.buckets[k], a)
    requires B.FetchesNow(s.buckets[k], a)
    requires t.buckets == s.buckets[k := B.Next(s.buckets[k], a)] && B.Inv(t.buckets[k])
    requires
      var r := RefOf(k, B.Offered(s.buckets[k]));
      r in s.slots && r in t.slots && t.slots == s.slots[r := t.slots[r]] && I.Inv(t.slots[r])
    ensures BucketsInv(t) && SlotsInv(t)
  {
    hide B.Inv, I.Inv, B.Next, B.Enabled, B.FetchesNow;
    FetchKeepsBlocks(s.buckets[k], a);
    SameBlocks(s, t, k);
  }

  lemma FetchKeepsBlocks(b: B.Bucket, a: CallId)
    requires B.Enabled(b, a) && B.FetchesNow(b, a)
    ensures B.Next(b, a).blocks == b.blocks
  {
  }

  lemma SameBlocks(s: Store, t: Store, k: nat)
    requires |s.buckets| == |t.buckets| == BUCKET_COUNT && k < BUCKET_COUNT
    requires t.buckets == s.buckets[k := t.buckets[k]] && t.buckets[k].blocks == s.buckets[k].blocks
    ensures forall r :: InRange(t, r) <==> InRange(s, r)
  {
  }

  lemma HandOutFresh(s: Store, t: Store, a: CallId, k: nat)
    requires BucketsInv(s) && FreshInv(s) && BucketsInv(t) && k < BUCKET_COUNT
    requires B.Enabled(s.buckets[k], a) && B.FetchesNow(s.buckets[k], a)
    requires t.buckets == s.buckets[k := B.Next(s.buckets[k], a)]
    requires
      var r := RefOf(k, B.Offered(s.buckets[k]));
      && r in s.slots && LogicalOf(r) == B.Offered(s.buckets[k])
      && r in t.slots && t.slots == s.slots[r := t.slots[r]] && t.slots[r].home.Held?
    ensures FreshInv(t)
  {
    forall q | q in t.slots && InRange(t, q)
      ensures t.slots[q].home.Fresh? <==> !B.HandedOut(t.buckets[q.bucket], LogicalOf(q))
    {
      LogicalRoundTrip(q);
      if q.bucket == k { B.HandOut(s.buckets[k], a, LogicalOf(q)); }
      assert q in s.slots && InRange(s, q);
    }
  }

  predicate HandsOut(s: Store, t: Store, a: CallId, k: nat) {
    && k < |s.buckets| && B.Enabled(s.buckets[k], a) && B.FetchesNow(s.buckets[k], a)
    && t.buckets == s.buckets[k := B.Next(s.buckets[k], a)] && t.elements == s.elements && t.used == s.used
    && var r := RefOf(k, B.Offered(s.buckets[k]));
    && r in t.slots && r in s.slots && t.slots == s.slots[r := t.slots[r]]
    && OneCallMoved(s.slots[r], t.slots[r], a) && t.slots[r].calls[a].pc.InsertWrite?
  }

  lemma HandOutCalls(s: Store, t: Store, a: CallId, k: nat)
    requires CallsInv(s) && HandsOut(s, t, a, k)
    ensures CallsInv(t)
  {
    BucketStepTouchesOneCall(s.buckets[k], a);
    assert Placed(s, k, a);
    assert BucketCallsInv(t);
    HandOutSlotCalls(s, t, a, k);
    forall j, c | 0 <= j < |t.buckets| && c in t.buckets[j].calls ensures Placed(t, j, c) {
      if c == a { HandOutMover(s, t, a, k); assert j == k; } else { HandOutOther(s, t, a, k, j, c); }
    }
  }

  lemma HandOutSlotCalls(s: Store, t: Store, a: CallId, k: nat)
    requires SlotCallsInv(s) && HandsOut(s, t, a, k) && a in s.used && Placed(s, k, a)
    ensures SlotCallsInv(t)
  {
  }

  lemma HandOutMover(s: Store, t: Store, a: CallId, k: nat)
    requires HandsOut(s, t, a, k)
    ensures a in t.buckets[k].calls && Placed(t, k, a)
  {
  }

  lemma HandOutOther(s: Store, t: Store, a: CallId, k: nat, j: nat, c: CallId)
    requires HandsOut(s, t, a, k) && PlacedInv(s) && j < |t.buckets| && c in t.buckets[j].calls && c != a
    ensures Placed(t, j, c)
  {
    BucketStepTouchesOneCall(s.buckets[k], a);
    assert Placed(s, j, c);
  }

  /** Every step of the store keeps its invariant. */
  lemma StepKeepsInv(s: Store, a: CallId, m: StoreMove)
    requires Inv(s) && Enabled(s, a, m)
    ensures Inv(Next(s, a, m))
  {
    match m
    case StartInsert(e, k) => if s.erasures != [] { PopStep(s, a, e, k); } else { EnterStep(s, a, e, k); }
    case Allocate(k) =>
      if B.FetchesNow(s.buckets[k], a) { HandOutStep(s, a, k); }
      else if s.buckets[k].calls[a].SlowExpand? { ExpandStep(s, a, k); }
      else { AllocateQuietStep(s, a, k); }
    case AtSlot(r, mv) => SlotStep(s, r, a, mv);
  }
}
