/**
 The bucket allocator under races (src/bucket.rs): a fast path under a read lock, a
 double-checked slow path under the write lock, and a counter that overshoots.

 A bucket with `blocks` blocks has heads of length 1, 2, 4, ...; `nextUnused` is the
 `u32` counter of the head.  `limit` bounds the calls that are inside the allocator at
 once.  The epoch that a program point carries is history: the number of blocks when
 the call's fast path missed.
 */
module Bucket {
  import opened Bits
  import opened Blocks
  import P = SlotProtocol

  datatype Location = Location(block: nat, slot: nat)

  datatype Pc =
    | WantRead
    | FastFetch                     // read locked, about to look at the head
    | FastHit(location: Location)   // read locked, about to release and return
    | FastMiss(epoch: nat)          // read locked, about to release
    | WantWrite(epoch: nat)
    | SlowFetch(epoch: nat)         // write locked
    | SlowExpand(epoch: nat)        // the second look missed too
    | SlowRefetch                   // expanded
    | SlowHit(location: Location)   // write locked, about to release and return

  datatype Bucket = Bucket(
    blocks: nat,
    nextUnused: nat,
    writer: set<P.CallId>,
    calls: map<P.CallId, Pc>,
    limit: nat
  )

  function NewBucket(limit: nat): Bucket {
    Bucket(0, 0, {}, map[], limit)
  }

  predicate Reading(pc: Pc) {
    pc.FastFetch? || pc.FastHit? || pc.FastMiss?
  }

  predicate Writing(pc: Pc) {
    pc.SlowFetch? || pc.SlowExpand? || pc.SlowRefetch? || pc.SlowHit?
  }

  function Readers(b: Bucket): set<P.CallId> {
    set a | a in b.calls && Reading(b.calls[a])
  }

  function SetPc(b: Bucket, a: P.CallId, pc: Pc): Bucket {
    b.(calls := b.calls[a := pc])
  }

  /** `fetch_add` on the counter wraps. */
  function Bumped(b: Bucket): nat {
    (b.nextUnused + 1) % TWO32
  }

  /** `BucketInner::next_insert_location` gets a slot. */
  predicate Hits(b: Bucket) {
    b.blocks > 0 && b.nextUnused < HeadLen(b.blocks)
  }

  function Offered(b: Bucket): Location
    requires b.blocks > 0
  {
    Location(b.blocks - 1, b.nextUnused)
  }

  /** The counter after `next_insert_location`; without a head it is left alone. */
  function Fetched(b: Bucket): Bucket {
    if b.blocks > 0 then b.(nextUnused := Bumped(b)) else b
  }

  /** `expand`. */
  function Expanded(b: Bucket): Bucket {
    b.(blocks := b.blocks + 1, nextUnused := 0)
  }

  predicate CanBegin(b: Bucket, a: P.CallId) {
    a !in b.calls && |b.calls| < b.limit
  }

  predicate Enabled(b: Bucket, a: P.CallId) {
    && a in b.calls
    && match b.calls[a]
       case WantRead => b.writer == {}
       case WantWrite(_) => b.writer == {} && Readers(b) == {}
       case SlowExpand(_) => b.blocks <= MAX_BLOCK     // lengths up to 2^30
       case SlowRefetch => Hits(b)                     // the `unwrap`; see RefetchHits
       case _ => true
  }

  function Next(b: Bucket, a: P.CallId): Bucket
    requires Enabled(b, a)
  {
    match b.calls[a]
    case WantRead => SetPc(b, a, FastFetch)
    case FastFetch => SetPc(Fetched(b), a, if Hits(b) then FastHit(Offered(b)) else FastMiss(b.blocks))
    case FastHit(_) => Leave(b, a)
    case FastMiss(e) => SetPc(b, a, WantWrite(e))
    case WantWrite(e) => SetPc(b, a, SlowFetch(e)).(writer := {a})
    case SlowFetch(e) => SetPc(Fetched(b), a, if Hits(b) then SlowHit(Offered(b)) else SlowExpand(e))
    case SlowExpand(_) => SetPc(Expanded(b), a, SlowRefetch)
    case SlowRefetch => SetPc(Fetched(b), a, SlowHit(Offered(b)))
    case SlowHit(_) => Leave(b, a).(writer := {})
  }

  /** Returning the location to the caller. */
  function Leave(b: Bucket, a: P.CallId): Bucket {
    b.(calls := map c | c in b.calls && c != a :: b.calls[c])
  }

  function Begin(b: Bucket, a: P.CallId): Bucket {
    SetPc(b, a, WantRead)
  }

  // ----- the invariant

  /** Calls whose fast path overshot the counter of the present head. */
  function Missers(b: Bucket): set<P.CallId> {
    set a | a in b.calls && MissedIn(b.calls[a], b.blocks)
  }

  predicate MissedIn(pc: Pc, epoch: nat) {
    match pc
    case FastMiss(e) => e == epoch && epoch > 0
    case WantWrite(e) => e == epoch && epoch > 0
    case SlowFetch(e) => e == epoch && epoch > 0
    case SlowExpand(e) => e == epoch && epoch > 0
    case _ => false
  }

  /** The writer, while its own second look has overshot as well. */
  function SlowMissers(b: Bucket): set<P.CallId> {
    set a | a in b.calls && b.calls[a].SlowExpand? && b.blocks > 0
  }

  predicate PcInv(b: Bucket, pc: Pc) {
    match pc
    case FastMiss(e) => e <= b.blocks
    case WantWrite(e) => e <= b.blocks
    case SlowFetch(e) => e <= b.blocks
    case SlowExpand(e) => e <= b.blocks && !Hits(b)
    case SlowRefetch => b.blocks > 0 && b.nextUnused == 0
    case _ => true
  }

  /** How far the counter is past the head. */
  function Overshoot(b: Bucket): nat {
    if b.nextUnused <= HeadLen(b.blocks) then 0 else b.nextUnused - HeadLen(b.blocks)
  }

  predicate LockInv(b: Bucket) {
    && b.writer == (set a | a in b.calls && Writing(b.calls[a]))
    && |b.writer| <= 1
    && (b.writer != {} ==> Readers(b) == {})
  }

  /** Every unit of overshoot is a call that missed and has not been through the slow path yet. */
  predicate CounterInv(b: Bucket) {
    && b.blocks <= MAX_BLOCK + 1
    && |b.calls| <= b.limit <= TWO31
    && (b.blocks == 0 ==> b.nextUnused == 0)
    && Overshoot(b) == |Missers(b)| + |SlowMissers(b)|
  }

  predicate Inv(b: Bucket) {
    && CounterInv(b)
    && LockInv(b)
    && forall a :: a in b.calls ==> PcInv(b, b.calls[a])
  }

  lemma InvInit(limit: nat)
    requires limit <= TWO31
    ensures Inv(NewBucket(limit))
  {
    var b := NewBucket(limit);
    assert Missers(b) == {} && SlowMissers(b) == {} && Readers(b) == {};
  }

  lemma SmallSubset(s: set<P.CallId>, t: set<P.CallId>)
    requires s <= t
    ensures |s| <= |t|
  {
    assert |t - s| == |t| - |s|;
  }

  lemma OnlyWriter(b: Bucket, a: P.CallId)
    requires LockInv(b) && a in b.calls && Writing(b.calls[a])
    ensures b.writer == {a} && Readers(b) == {}
    ensures forall c :: c in b.calls && c != a ==> !Writing(b.calls[c]) && !Reading(b.calls[c])
  {
    assert a in b.writer;
    assert |b.writer - {a}| == 0;
    assert b.writer == {a};
    forall c | c in b.calls && c != a ensures !Writing(b.calls[c]) && !Reading(b.calls[c]) {
      assert c !in b.writer && c !in Readers(b);
    }
  }

  /**
   Overshoot bound: with at most `limit` calls in the allocator the counter stays within
   the head length plus `limit` plus one, so `fetch_add` never wraps.
   */
  lemma OvershootBound(b: Bucket)
    requires Inv(b)
    ensures b.nextUnused <= HeadLen(b.blocks) + b.limit + 1 < TWO32
    ensures Bumped(b) == b.nextUnused + 1
  {
    SmallSubset(Missers(b), b.calls.Keys);
    SmallSubset(SlowMissers(b), b.writer);
    if b.blocks > 0 { SmallPower(b.blocks - 1); }
  }

  // ----- every step keeps the invariant

  lemma SetsUpdate(b: Bucket, a: P.CallId, pc: Pc)
    ensures
      var t := SetPc(b, a, pc);
      && Missers(t) == (if MissedIn(pc, b.blocks) then Missers(b) + {a} else Missers(b) - {a})
      && SlowMissers(t) == (if pc.SlowExpand? && b.blocks > 0 then SlowMissers(b) + {a} else SlowMissers(b) - {a})
      && Readers(t) == (if Reading(pc) then Readers(b) + {a} else Readers(b) - {a})
      && (set c | c in t.calls && Writing(t.calls[c])) ==
           (if Writing(pc) then (set c | c in b.calls && Writing(b.calls[c])) + {a}
            else (set c | c in b.calls && Writing(b.calls[c])) - {a})
  {
  }

  predicate SameSets(b: Bucket, t: Bucket) {
    && Missers(t) == Missers(b) && SlowMissers(t) == SlowMissers(b)
    && (set c | c in t.calls && Writing(t.calls[c])) == (set c | c in b.calls && Writing(b.calls[c]))
  }

  lemma BeginSets(b: Bucket, a: P.CallId)
    requires a !in b.calls
    ensures SameSets(b, Begin(b, a)) && Readers(Begin(b, a)) == Readers(b)
    ensures Begin(b, a).calls.Keys == b.calls.Keys + {a}
  {
    SetsUpdate(b, a, WantRead);
  }

  lemma BeginKeepsInv(b: Bucket, a: P.CallId)
    requires Inv(b) && CanBegin(b, a)
    ensures Inv(Begin(b, a))
  {
    BeginSets(b, a);
  }

  lemma MoveSets(b: Bucket, a: P.CallId, pc: Pc)
    requires a in b.calls
    requires MissedIn(pc, b.blocks) == MissedIn(b.calls[a], b.blocks)
    requires pc.SlowExpand? == b.calls[a].SlowExpand?
    requires Writing(pc) == Writing(b.calls[a])
    ensures SameSets(b, SetPc(b, a, pc))
    ensures Readers(SetPc(b, a, pc)) <= Readers(b) + (if Reading(pc) then {a} else {})
    ensures SetPc(b, a, pc).calls.Keys == b.calls.Keys
  {
    SetsUpdate(b, a, pc);
  }

  /** A step that only moves the program point of one call. */
  lemma MoveKeepsInv(b: Bucket, a: P.CallId, pc: Pc)
    requires Inv(b) && a in b.calls && PcInv(b, pc)
    requires MissedIn(pc, b.blocks) == MissedIn(b.calls[a], b.blocks)
    requires pc.SlowExpand? == b.calls[a].SlowExpand?
    requires Writing(pc) == Writing(b.calls[a])
    requires Reading(pc) ==> b.writer == {}
    ensures Inv(SetPc(b, a, pc))
  {
    hide LockInv, CounterInv, MissedIn, Writing, Reading;
    MoveLock(b, a, pc);
    MoveCounter(b, a, pc);
    forall c | c in b.calls && c != a ensures PcInv(SetPc(b, a, pc), b.calls[c]) {
      assert PcInv(b, b.calls[c]);
    }
  }

  lemma MoveLock(b: Bucket, a: P.CallId, pc: Pc)
    requires LockInv(b) && a in b.calls && Writing(pc) == Writing(b.calls[a])
    requires Reading(pc) ==> b.writer == {}
    ensures LockInv(SetPc(b, a, pc))
  {
    SetsUpdate(b, a, pc);
  }

  lemma MoveCounter(b: Bucket, a: P.CallId, pc: Pc)
    requires CounterInv(b) && a in b.calls && pc.SlowExpand? == b.calls[a].SlowExpand?
    requires MissedIn(pc, b.blocks) == MissedIn(b.calls[a], b.blocks)
    requires Writing(pc) == Writing(b.calls[a])
    ensures CounterInv(SetPc(b, a, pc))
  {
    MoveSets(b, a, pc);
  }

  lemma AcquireWriteKeepsInv(b: Bucket, a: P.CallId, e: nat)
    requires Inv(b) && a in b.calls && b.calls[a] == WantWrite(e) && b.writer == {} && Readers(b) == {}
    ensures Inv(SetPc(b, a, SlowFetch(e)).(writer := {a}))
  {
    AcquireWriteSets(b, a, e);
    assert PcInv(b, b.calls[a]);
  }

  lemma AcquireWriteSets(b: Bucket, a: P.CallId, e: nat)
    requires LockInv(b) && a in b.calls && b.calls[a] == WantWrite(e) && b.writer == {} && Readers(b) == {}
    ensures
      var u := SetPc(b, a, SlowFetch(e)).(writer := {a});
      && Missers(u) == Missers(b) && SlowMissers(u) == SlowMissers(b) && Readers(u) == {}
      && u.writer == (set c | c in u.calls && Writing(u.calls[c])) && u.calls.Keys == b.calls.Keys
  {
    var t := SetPc(b, a, SlowFetch(e));
    SetsUpdate(b, a, SlowFetch(e));
    assert Missers(t) == Missers(b);
    assert SlowMissers(t) == SlowMissers(b);
    var u := t.(writer := {a});
    assert Missers(u) == Missers(t) && SlowMissers(u) == SlowMissers(t) && Readers(u) == Readers(t);
  }

  /** `fetch_add` on an existing head. */
  lemma FetchKeepsInv(b: Bucket, a: P.CallId, pc: Pc)
    requires Inv(b) && a in b.calls && b.blocks > 0
    requires FetchMove(b, b.calls[a], pc)
    ensures Inv(SetPc(Fetched(b), a, pc))
  {
    hide LockInv, CounterInv;
    OvershootBound(b);
    FetchCounter(b, a, pc);
    FetchLock(b, a, pc);
    var u := SetPc(Fetched(b), a, pc);
    forall c | c in u.calls ensures PcInv(u, u.calls[c]) {
      FetchPc(b, a, pc, c);
    }
  }

  lemma FetchPc(b: Bucket, a: P.CallId, pc: Pc, c: P.CallId)
    requires Inv(b) && a in b.calls && c in b.calls && b.blocks > 0 && Bumped(b) == b.nextUnused + 1
    requires FetchMove(b, b.calls[a], pc)
    ensures PcInv(SetPc(Fetched(b), a, pc), if c == a then pc else b.calls[c])
  {
    hide LockInv, CounterInv;
    assert PcInv(b, b.calls[a]);
    assert PcInv(b, b.calls[c]);
    if c != a && Writing(b.calls[c]) { OnlyWriter(b, c); }
  }

  predicate FetchMove(b: Bucket, from: Pc, to: Pc) {
    || (from.FastFetch? && to == if Hits(b) then FastHit(Offered(b)) else FastMiss(b.blocks))
    || (from.SlowFetch? && to == if Hits(b) then SlowHit(Offered(b)) else SlowExpand(from.epoch))
    || (from.SlowRefetch? && Hits(b) && to == SlowHit(Offered(b)))
  }

  lemma FetchCounter(b: Bucket, a: P.CallId, pc: Pc)
    requires CounterInv(b) && a in b.calls && b.blocks > 0 && b.nextUnused + 1 < TWO32
    requires FetchMove(b, b.calls[a], pc)
    ensures CounterInv(SetPc(Fetched(b), a, pc))
  {
    var u := SetPc(Fetched(b), a, pc);
    assert u.calls.Keys == b.calls.Keys;
    if Hits(b) { HitSets(b, a, pc); } else { MissSets(b, a, pc); }
  }

  lemma HitSets(b: Bucket, a: P.CallId, pc: Pc)
    requires CounterInv(b) && a in b.calls && Hits(b) && FetchMove(b, b.calls[a], pc)
    ensures Missers(SetPc(Fetched(b), a, pc)) == {} && SlowMissers(SetPc(Fetched(b), a, pc)) == {}
  {
    var u := SetPc(Fetched(b), a, pc);
    SetsUpdate(b, a, pc);
    assert Missers(b) == {} && SlowMissers(b) == {};
    assert Missers(u) == Missers(SetPc(b, a, pc));
    assert SlowMissers(u) == SlowMissers(SetPc(b, a, pc));
  }

  /** A miss adds its call to one of the two sets. */
  lemma MissSets(b: Bucket, a: P.CallId, pc: Pc)
    requires a in b.calls && b.blocks > 0 && !Hits(b) && FetchMove(b, b.calls[a], pc)
    ensures
      var u := SetPc(Fetched(b), a, pc);
      |Missers(u)| + |SlowMissers(u)| == |Missers(b)| + |SlowMissers(b)| + 1
  {
    var u := SetPc(Fetched(b), a, pc);
    SetsUpdate(b, a, pc);
    assert Missers(u) == Missers(SetPc(b, a, pc));
    assert SlowMissers(u) == SlowMissers(SetPc(b, a, pc));
    if b.calls[a].FastFetch? { FastMissSets(b, a); } else { SlowMissSets(b, a); }
  }

  lemma FastMissSets(b: Bucket, a: P.CallId)
    requires a in b.calls && b.calls[a].FastFetch?
    ensures a !in Missers(b) && SlowMissers(b) - {a} == SlowMissers(b)
  {
  }

  lemma SlowMissSets(b: Bucket, a: P.CallId)
    requires a in b.calls && b.calls[a].SlowFetch?
    ensures a !in SlowMissers(b)
    ensures MissedIn(b.calls[a], b.blocks) ==> Missers(b) + {a} == Missers(b)
    ensures !MissedIn(b.calls[a], b.blocks) ==> Missers(b) - {a} == Missers(b)
  {
  }

  lemma FetchLock(b: Bucket, a: P.CallId, pc: Pc)
    requires LockInv(b) && a in b.calls
    requires Reading(pc) == Reading(b.calls[a]) && Writing(pc) == Writing(b.calls[a])
    ensures LockInv(SetPc(Fetched(b), a, pc))
  {
    var u := SetPc(Fetched(b), a, pc);
    SetsUpdate(b, a, pc);
    assert Readers(u) == Readers(SetPc(b, a, pc));
    assert Readers(u) == Readers(b);
  }

  lemma ExpandKeepsInv(b: Bucket, a: P.CallId)
    requires Inv(b) && a in b.calls && b.calls[a].SlowExpand? && b.blocks <= MAX_BLOCK
    ensures Inv(SetPc(Expanded(b), a, SlowRefetch))
  {
    var t := SetPc(b, a, SlowRefetch);
    var u := SetPc(Expanded(b), a, SlowRefetch);
    SetsUpdate(b, a, SlowRefetch);
    OnlyWriter(b, a);
    assert u.calls.Keys == b.calls.Keys;
    forall c | c in u.calls ensures PcInv(u, u.calls[c]) && !MissedIn(u.calls[c], u.blocks) && !u.calls[c].SlowExpand? {
      if c != a { assert PcInv(b, b.calls[c]); }
    }
    assert Missers(u) == {} && SlowMissers(u) == {};
    assert Readers(u) == Readers(t);
  }

  lemma LeaveKeepsInv(b: Bucket, a: P.CallId)
    requires Inv(b) && a in b.calls
    requires b.calls[a].FastHit? || b.calls[a].SlowHit?
    ensures Inv(Leave(b, a).(writer := if b.calls[a].SlowHit? then {} else b.writer))
  {
    var u := Leave(b, a).(writer := if b.calls[a].SlowHit? then {} else b.writer);
    assert u.calls.Keys == b.calls.Keys - {a};
    assert Missers(u) == Missers(b);
    assert SlowMissers(u) == SlowMissers(b);
    assert Readers(u) <= Readers(b);
    if b.calls[a].SlowHit? { OnlyWriter(b, a); }
    assert u.writer == (set c | c in u.calls && Writing(u.calls[c]));
    forall c | c in u.calls ensures PcInv(u, u.calls[c]) {
      assert PcInv(b, b.calls[c]);
    }
  }

  /** Every step keeps the invariant. */
  lemma StepKeepsInv(b: Bucket, a: P.CallId)
    requires Inv(b) && Enabled(b, a)
    ensures Inv(Next(b, a))
  {
    assert PcInv(b, b.calls[a]);
    match b.calls[a]
    case WantRead => MoveKeepsInv(b, a, FastFetch);
    case FastFetch =>
      if b.blocks > 0 {
        FetchKeepsInv(b, a, if Hits(b) then FastHit(Offered(b)) else FastMiss(b.blocks));
      } else {
        ReaderExcludesWriter(b, a);
        MoveKeepsInv(b, a, FastMiss(0));
      }
    case FastHit(_) => LeaveKeepsInv(b, a);
    case FastMiss(e) => MoveKeepsInv(b, a, WantWrite(e));
    case WantWrite(e) => AcquireWriteKeepsInv(b, a, e);
    case SlowFetch(e) =>
      if b.blocks > 0 {
        FetchKeepsInv(b, a, if Hits(b) then SlowHit(Offered(b)) else SlowExpand(e));
      } else {
        EmptyMissKeepsInv(b, a, e);
      }
    case SlowExpand(_) => ExpandKeepsInv(b, a);
    case SlowRefetch => FetchKeepsInv(b, a, SlowHit(Offered(b)));
    case SlowHit(_) => LeaveKeepsInv(b, a);
  }

  lemma ReaderExcludesWriter(b: Bucket, a: P.CallId)
    requires LockInv(b) && a in b.calls && Reading(b.calls[a])
    ensures b.writer == {}
  {
    assert a in Readers(b);
  }

  /** The second look at a bucket without a head. */
  lemma EmptyMissKeepsInv(b: Bucket, a: P.CallId, e: nat)
    requires Inv(b) && a in b.calls && b.calls[a] == SlowFetch(e) && b.blocks == 0
    ensures Inv(SetPc(b, a, SlowExpand(e)))
  {
    var t := SetPc(b, a, SlowExpand(e));
    SetsUpdate(b, a, SlowExpand(e));
    assert PcInv(b, b.calls[a]);
    assert Missers(t) == Missers(b);
    assert SlowMissers(t) == SlowMissers(b);
    assert t.calls.Keys == b.calls.Keys;
  }

  // ----- what is handed out

  predicate Allocated(b: Bucket, l: Location) {
    l.block < b.blocks && l.slot < Pow2(l.block)
  }

  /** The location has been returned, or is on its way back to a caller. */
  predicate HandedOut(b: Bucket, l: Location) {
    Allocated(b, l) && (l.block + 1 < b.blocks || l.slot < b.nextUnused)
  }

  predicate FetchesNow(b: Bucket, a: P.CallId) {
    && a in b.calls
    && (b.calls[a].FastFetch? || b.calls[a].SlowFetch? || b.calls[a].SlowRefetch?)
    && Hits(b)
  }

  /** The `unwrap` after `expand` does not fail. */
  lemma RefetchHits(b: Bucket, a: P.CallId)
    requires Inv(b) && a in b.calls && b.calls[a].SlowRefetch?
    ensures Hits(b)
  {
    assert PcInv(b, b.calls[a]);
  }

  /**
   A step that gets a slot hands out one location that was not handed out before and
   keeps every other; all other steps hand out nothing and take nothing back.
   */
  lemma HandOut(b: Bucket, a: P.CallId, l: Location)
    requires Inv(b) && Enabled(b, a)
    ensures
      var t := Next(b, a);
      if FetchesNow(b, a) then
        && Allocated(b, Offered(b)) && !HandedOut(b, Offered(b))
        && (t.calls[a] == FastHit(Offered(b)) || t.calls[a] == SlowHit(Offered(b)))
        && (HandedOut(t, l) <==> HandedOut(b, l) || l == Offered(b))
      else
        HandedOut(t, l) <==> HandedOut(b, l)
  {
    OvershootBound(b);
    assert PcInv(b, b.calls[a]);
    if b.blocks > 0 { PowerMonotone(0, b.blocks - 1); }
  }

  /** A block is only added when every slot of every existing block has been handed out. */
  lemma ExpandsOnlyWhenFull(b: Bucket, a: P.CallId, l: Location)
    requires Inv(b) && Enabled(b, a) && Next(b, a).blocks != b.blocks
    ensures Next(b, a).blocks == b.blocks + 1
    ensures Allocated(b, l) ==> HandedOut(b, l)
    ensures l.block == b.blocks && l.slot < Pow2(b.blocks) ==>
              Allocated(Next(b, a), l) && !HandedOut(Next(b, a), l)
  {
    assert PcInv(b, b.calls[a]);
  }
}
