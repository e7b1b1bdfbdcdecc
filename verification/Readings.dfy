/**
 The numbers that `capacity` returns, one call after the other.  The allocated number never
 goes down; the touched number of a bucket goes down exactly when two or more calls were
 between a miss and the slow path at the earlier reading.
 */
module Readings {
  import opened Bits
  import opened Blocks
  import P = SlotProtocol
  import B = Bucket
  import C = Capacity

  /** The touched number that is read off a bucket (`Capacity.BucketCapacity`). */
  function Reading(b: B.Bucket): nat {
    C.HandedNumber(b) + |B.Missers(b)|
  }

  // ----- one bucket over time

  /** The counter is only back at zero while the call that expanded is about to take its slot. */
  predicate Grounded(b: B.Bucket) {
    b.blocks > 0 && b.nextUnused == 0 ==> exists a :: a in b.calls && b.calls[a].SlowRefetch?
  }

  predicate Sound(b: B.Bucket) {
    B.Inv(b) && Grounded(b)
  }

  predicate BucketStep(b: B.Bucket, c: B.Bucket, a: P.CallId) {
    (B.CanBegin(b, a) && c == B.Begin(b, a)) || (B.Enabled(b, a) && c == B.Next(b, a))
  }

  /** The bucket is in a later epoch, or its counter is further on. */
  predicate Later(b: B.Bucket, c: B.Bucket) {
    b.blocks < c.blocks || (b.blocks == c.blocks && b.nextUnused <= c.nextUnused)
  }

  lemma SoundInit(limit: nat)
    requires limit <= TWO31
    ensures Sound(B.NewBucket(limit))
  {
    B.InvInit(limit);
  }

  lemma StepSound(b: B.Bucket, c: B.Bucket, a: P.CallId)
    requires Sound(b) && BucketStep(b, c, a)
    ensures Sound(c) && Later(b, c)
  {
    hide B.Inv;
    if B.Enabled(b, a) && c == B.Next(b, a) {
      B.StepKeepsInv(b, a);
      StepGrounded(b, a);
    } else {
      B.BeginKeepsInv(b, a);
      BeginGrounded(b, a);
    }
  }

  lemma BeginGrounded(b: B.Bucket, a: P.CallId)
    requires Grounded(b) && a !in b.calls
    ensures Grounded(B.Begin(b, a))
  {
    if b.blocks > 0 && b.nextUnused == 0 {
      var d :| d in b.calls && b.calls[d].SlowRefetch?;
      assert B.Begin(b, a).calls[d].SlowRefetch?;
    }
  }

  lemma StepGrounded(b: B.Bucket, a: P.CallId)
    requires B.Inv(b) && Grounded(b) && B.Enabled(b, a)
    ensures Grounded(B.Next(b, a)) && Later(b, B.Next(b, a))
  {
    var t := B.Next(b, a);
    B.OvershootBound(b);
    if t.blocks > 0 && t.nextUnused == 0 {
      if b.calls[a].SlowExpand? {
        assert t.calls[a].SlowRefetch?;
      } else {
        var d :| d in b.calls && b.calls[d].SlowRefetch?;
        assert t.calls[d].SlowRefetch?;
      }
    }
  }

  /** Where no writer is, the reading is the counter on top of the earlier blocks. */
  lemma ReadingIsCounter(b: B.Bucket)
    requires Sound(b) && b.writer == {}
    ensures Reading(b) == if b.blocks == 0 then 0 else SlotsOf(b.blocks - 1) + b.nextUnused
    ensures b.blocks > 0 ==> b.nextUnused > 0
  {
    hide B.Inv;
    C.MissersAreOvershoot(b);
    CounterOnGround(b);
  }

  lemma CounterOnGround(b: B.Bucket)
    requires Sound(b) && b.writer == {}
    ensures b.blocks > 0 ==> b.nextUnused > 0
    ensures b.blocks == 0 ==> b.nextUnused == 0
  {
    forall a | a in b.calls ensures !b.calls[a].SlowRefetch? {
      assert B.Writing(b.calls[a]) ==> a in b.writer;
    }
  }

  /** With at most one call pending at the first reading no later reading is smaller. */
  lemma ReadingKeepsUp(b: B.Bucket, c: B.Bucket)
    requires Sound(b) && Sound(c) && b.writer == {} && c.writer == {} && Later(b, c)
    requires |B.Missers(b)| <= 1
    ensures Reading(b) <= Reading(c)
  {
    hide B.Inv, Reading, B.Missers;
    ReadingIsCounter(b);
    ReadingIsCounter(c);
    C.MissersAreOvershoot(b);
    if 0 < b.blocks < c.blocks {
      PowerMonotone(b.blocks, c.blocks - 1);
    }
  }

  // ----- what may happen to a bucket

  datatype Path = Path(buckets: seq<B.Bucket>, calls: seq<P.CallId>)

  /** Each bucket follows from the one before by a step of the call. */
  predicate IsPath(p: Path) {
    && |p.buckets| == |p.calls| + 1
    && forall i :: 0 <= i < |p.calls| ==> BucketStep(p.buckets[i], p.buckets[i + 1], p.calls[i])
  }

  function Last(p: Path): B.Bucket
    requires p.buckets != []
  {
    p.buckets[|p.buckets| - 1]
  }

  /** A path from bucket `b`. */
  predicate From(p: Path, b: B.Bucket) {
    IsPath(p) && p.buckets[0] == b
  }

  lemma {:induction false} PathSound(p: Path, i: nat)
    requires IsPath(p) && Sound(p.buckets[0]) && i < |p.buckets|
    ensures Sound(p.buckets[i]) && Later(p.buckets[0], p.buckets[i])
  {
    hide Sound;
    if i > 0 {
      PathSound(p, i - 1);
      StepSound(p.buckets[i - 1], p.buckets[i], p.calls[i - 1]);
    }
  }

  lemma Then(p: Path, b: B.Bucket, a: P.CallId) returns (q: Path)
    requires From(p, b) && Sound(b) && B.Enabled(Last(p), a)
    ensures From(q, b) && Last(q) == B.Next(Last(p), a) && Sound(Last(q))
  {
    hide Sound;
    q := Path(p.buckets + [B.Next(Last(p), a)], p.calls + [a]);
    forall i | 0 <= i < |q.calls| ensures BucketStep(q.buckets[i], q.buckets[i + 1], q.calls[i]) {
      if i < |p.calls| { assert BucketStep(p.buckets[i], p.buckets[i + 1], p.calls[i]); }
    }
    PathSound(q, |q.buckets| - 1);
  }

  /** The head is full, nobody writes, and another block fits. */
  predicate Full(b: B.Bucket) {
    b.writer == {} && 0 < b.blocks <= MAX_BLOCK && !B.Hits(b)
  }

  /** A reader of a full bucket leaves it or joins the calls that wait for the write lock. */
  lemma ReaderLeaves(p: Path, b: B.Bucket, a: P.CallId) returns (q: Path)
    requires From(p, b) && Sound(b) && Sound(Last(p)) && Full(Last(p)) && a in B.Readers(Last(p))
    ensures From(q, b) && Sound(Last(q)) && Full(Last(q)) && Last(q).blocks == Last(p).blocks
    ensures B.Readers(Last(q)) == B.Readers(Last(p)) - {a} && B.Missers(Last(p)) <= B.Missers(Last(q))
  {
    hide B.Inv, Grounded;
    q := p;
    if Last(p).calls[a].FastFetch? {
      FetchMisses(Last(p), a);
      q := Then(p, b, a);
    }
    ReaderGoes(Last(q), a);
    q := Then(q, b, a);
  }

  lemma FetchMisses(b: B.Bucket, a: P.CallId)
    requires Sound(b) && Full(b) && a in b.calls && b.calls[a].FastFetch?
    ensures B.Enabled(b, a)
    ensures var t := B.Next(b, a);
      && Full(t) && t.blocks == b.blocks && a in t.calls && t.calls[a].FastMiss?
      && B.Readers(t) == B.Readers(b) && B.Missers(b) <= B.Missers(t)
  {
    B.OvershootBound(b);
  }

  lemma ReaderGoes(b: B.Bucket, a: P.CallId)
    requires Full(b) && a in b.calls && (b.calls[a].FastMiss? || b.calls[a].FastHit?)
    ensures B.Enabled(b, a)
    ensures var t := B.Next(b, a);
      && Full(t) && t.blocks == b.blocks && B.Readers(t) == B.Readers(b) - {a} && B.Missers(b) <= B.Missers(t)
  {
  }

  lemma {:induction false} ReadersLeave(p: Path, b: B.Bucket) returns (q: Path)
    requires From(p, b) && Sound(b) && Sound(Last(p)) && Full(Last(p))
    ensures From(q, b) && Sound(Last(q)) && Full(Last(q)) && Last(q).blocks == Last(p).blocks
    ensures B.Readers(Last(q)) == {} && B.Missers(Last(p)) <= B.Missers(Last(q))
    decreases |B.Readers(Last(p))|
  {
    hide Sound, Full, B.Missers;
    if B.Readers(Last(p)) == {} {
      q := p;
    } else {
      var a :| a in B.Readers(Last(p));
      q := ReaderLeaves(p, b, a);
      q := ReadersLeave(q, b);
    }
  }

  /** A call that has missed takes the slow path alone: the next block is there, and one slot of it is taken. */
  lemma Expands(p: Path, b: B.Bucket, a: P.CallId) returns (q: Path)
    requires From(p, b) && Sound(b) && Sound(Last(p)) && Full(Last(p)) && B.Readers(Last(p)) == {}
    requires a in Last(p).calls && Last(p).calls[a].WantWrite?
    ensures From(q, b) && Last(q).writer == {} && Last(q).blocks == Last(p).blocks + 1 && Last(q).nextUnused == 1
  {
    hide Sound;
    q := Then(p, b, a);
    SlowMisses(Last(q), a);
    q := Then(q, b, a);
    q := Then(q, b, a);
    GroundHits(Last(q));
    q := Then(q, b, a);
    q := Then(q, b, a);
  }

  lemma SlowMisses(b: B.Bucket, a: P.CallId)
    requires Sound(b) && a in b.calls && b.calls[a].SlowFetch? && 0 < b.blocks <= MAX_BLOCK && !B.Hits(b)
    ensures B.Enabled(b, a) && B.Next(b, a).blocks == b.blocks && a in B.Next(b, a).calls
    ensures B.Next(b, a).calls[a].SlowExpand? && B.Next(b, a).writer == b.writer
  {
  }

  lemma GroundHits(b: B.Bucket)
    requires b.blocks > 0 && b.nextUnused == 0
    ensures B.Hits(b) && B.Bumped(b) == 1
  {
  }

  /** With two or more calls pending there is a way to a smaller reading. */
  lemma ReadingMayDrop(b: B.Bucket) returns (p: Path)
    requires Sound(b) && b.writer == {} && b.blocks <= MAX_BLOCK && |B.Missers(b)| >= 2
    ensures From(p, b) && Last(p).writer == {} && Reading(Last(p)) < Reading(b)
  {
    hide Reading, B.Missers, B.Inv, Grounded;
    p := Path([b], []);
    PendingIsFull(b);
    var a: P.CallId :| a in B.Missers(b);
    p := ReadersLeave(p, b);
    WaitsToWrite(Last(p), a);
    p := Expands(p, b, a);
    PathSound(p, |p.buckets| - 1);
    ReadingIsCounter(b);
    ReadingIsCounter(Last(p));
    C.MissersAreOvershoot(b);
  }

  lemma PendingIsFull(b: B.Bucket)
    requires Sound(b) && b.writer == {} && b.blocks <= MAX_BLOCK && B.Missers(b) != {}
    ensures Full(b)
  {
    C.MissersAreOvershoot(b);
    var a :| a in B.Missers(b);
  }

  lemma WaitsToWrite(b: B.Bucket, a: P.CallId)
    requires Sound(b) && b.writer == {} && B.Readers(b) == {} && a in B.Missers(b)
    ensures a in b.calls && b.calls[a].WantWrite?
  {
    assert a !in B.Readers(b) && a !in b.writer;
  }

  /** Every later reading of the bucket is at least this one. */
  ghost predicate NeverDrops(b: B.Bucket) {
    forall p: Path :: From(p, b) && Last(p).writer == {} ==> Reading(b) <= Reading(Last(p))
  }

  /** Exactly when the touched number of a bucket cannot go down. */
  lemma NeverDropsExactly(b: B.Bucket)
    requires Sound(b) && b.writer == {} && b.blocks <= MAX_BLOCK
    ensures NeverDrops(b) <==> |B.Missers(b)| <= 1
  {
    hide Reading, B.Missers, Sound;
    if |B.Missers(b)| <= 1 {
      forall p: Path | From(p, b) && Last(p).writer == {} ensures Reading(b) <= Reading(Last(p)) {
        PathSound(p, |p.buckets| - 1);
        ReadingKeepsUp(b, Last(p));
      }
    } else {
      var p := ReadingMayDrop(b);
    }
  }
}
