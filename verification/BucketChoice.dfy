/**
 The choice of a bucket (src/lib.rs): a linear congruential generator over a thread's own
 `u32`, of which only the low four bits are used.  They run through one cycle of length 16.
 */
module BucketChoice {
  import opened Bits
  import S = Store

  const MULTIPLIER: nat := 1103515245
  const CONSTANT: nat := 12345

  /** `wrapping_mul` and `wrapping_add`. */
  function Advance(x: nat): (y: nat)
    ensures y < TWO32
  {
    ((x * MULTIPLIER) % TWO32 + CONSTANT) % TWO32
  }

  /** The next `n` choices of a thread in state `x`. */
  function Choices(x: nat, n: nat): (ks: seq<nat>)
    ensures |ks| == n
    decreases n
  {
    if n == 0 then [] else [Advance(x) % S.BUCKET_COUNT] + Choices(Advance(x), n - 1)
  }

  function Times(ks: seq<nat>, k: nat): nat {
    if ks == [] then 0 else (if ks[0] == k then 1 else 0) + Times(ks[1..], k)
  }

  /** Where a residue stands on the cycle. */
  function Place(y: nat): (p: nat)
    requires y < S.BUCKET_COUNT
    ensures p < S.BUCKET_COUNT
  {
    [0, 9, 14, 15, 12, 5, 10, 11, 8, 1, 6, 7, 4, 13, 2, 3][y]
  }

  lemma PlacesDiffer(y: nat, z: nat)
    requires y < S.BUCKET_COUNT && z < S.BUCKET_COUNT
    ensures Place(y) == Place(z) <==> y == z
  {
  }

  lemma Truncated(x: nat)
    ensures (x % TWO32) % 16 == x % 16
  {
  }

  lemma Multiplied(x: nat)
    ensures (x * MULTIPLIER) % 16 == (13 * (x % 16)) % 16
  {
    var q, r := x / 16, x % 16;
    SameLowBits(x * MULTIPLIER, 13 * r, q * 1103515245 + r * 68969702);
  }

  /** The low bits depend on the low bits only. */
  lemma LowBits(x: nat)
    ensures Advance(x) % 16 == (13 * (x % 16) + 9) % 16
  {
    var product := x * MULTIPLIER;
    var kept := product % TWO32;
    Multiplied(x);
    Truncated(product);
    Truncated(kept + CONSTANT);
    Added(kept, x % 16);
  }

  lemma Added(kept: nat, r: nat)
    requires kept % 16 == (13 * r) % 16
    ensures (kept + CONSTANT) % 16 == (13 * r + 9) % 16
  {
    SameLowBits(kept + CONSTANT, 13 * r + 9, kept / 16 - (13 * r) / 16 + 771);
  }

  lemma SameLowBits(x: nat, y: nat, n: int)
    requires x == y + 16 * n
    ensures x % 16 == y % 16
  {
  }

  /** One step along the cycle. */
  lemma NextPlace(x: nat)
    ensures Place(Advance(x) % 16) == (Place(x % 16) + 1) % 16
  {
    LowBits(x);
    CycleStep(x % 16);
  }

  lemma CycleStep(y: nat)
    requires y < 16
    ensures Place((13 * y + 9) % 16) == (Place(y) + 1) % 16
  {
    if y < 4 {
      assert y == 0 || y == 1 || y == 2 || y == 3;
    } else if y < 8 {
      assert y == 4 || y == 5 || y == 6 || y == 7;
    } else if y < 12 {
      assert y == 8 || y == 9 || y == 10 || y == 11;
    } else {
      assert y == 12 || y == 13 || y == 14 || y == 15;
    }
  }

  /** After how many choices, between 1 and 16, bucket `k` comes next. */
  function Distance(x: nat, k: nat): (d: nat)
    requires k < S.BUCKET_COUNT
    ensures 1 <= d <= 16
  {
    (Place(k) + 31 - Place(x % 16)) % 16 + 1
  }

  lemma CloserByOne(x: nat, k: nat)
    requires k < S.BUCKET_COUNT
    ensures Advance(x) % 16 == k <==> Distance(x, k) == 1
    ensures Distance(Advance(x), k) == if Distance(x, k) == 1 then 16 else Distance(x, k) - 1
  {
    NextPlace(x);
    PlacesDiffer(Advance(x) % 16, k);
    OneStep(Place(x % 16), Place(Advance(x) % 16), Place(k));
  }

  lemma OneStep(p: nat, q: nat, k: nat)
    requires p < 16 && q < 16 && k < 16 && q == (p + 1) % 16
    ensures q == k <==> (k + 31 - p) % 16 == 0
    ensures (k + 31 - q) % 16 == if q == k then 15 else (k + 31 - p) % 16 - 1
  {
  }

  /** Bucket `k` comes after `Distance` choices and then at every sixteenth. */
  lemma {:induction false} ChosenEverySixteenth(x: nat, k: nat, n: nat)
    requires k < S.BUCKET_COUNT
    ensures Times(Choices(x, n), k) == (n + 16 - Distance(x, k)) / 16
    decreases n
  {
    if n > 0 {
      CloserByOne(x, k);
      ChosenEverySixteenth(Advance(x), k, n - 1);
      assert Choices(x, n)[1..] == Choices(Advance(x), n - 1);
    }
  }

  /** Balance: whatever the seed, after `n` choices every bucket was chosen n/16 times, rounded down or up. */
  lemma Balanced(x: nat, k: nat, n: nat)
    requires k < S.BUCKET_COUNT
    ensures n / 16 <= Times(Choices(x, n), k) <= (n + 15) / 16
  {
    ChosenEverySixteenth(x, k, n);
  }

  /** The buckets in the order in which every thread comes by them. */
  const CYCLE: seq<nat> := [0, 9, 14, 15, 12, 5, 10, 11, 8, 1, 6, 7, 4, 13, 2, 3]

  lemma CycleAt(y: nat)
    requires y < S.BUCKET_COUNT
    ensures CYCLE[Place(y)] == y
  {
  }

  /** The choices of a thread go round the cycle, from the place of its seed. */
  lemma {:induction false} ChoiceAt(x: nat, n: nat, i: nat)
    requires i < n
    ensures Choices(x, n)[i] == CYCLE[(Place(x % 16) + 1 + i) % 16]
    decreases n
  {
    NextPlace(x);
    if i == 0 {
      CycleAt(Advance(x) % 16);
    } else {
      ChoiceAt(Advance(x), n - 1, i - 1);
      PlaceSum(Place(x % 16), Place(Advance(x) % 16), i);
    }
  }

  lemma PlaceSum(p: nat, q: nat, i: nat)
    requires q == (p + 1) % 16
    ensures (q + i) % 16 == (p + 1 + i) % 16
  {
  }

  // ----- the generator of a thread

  function After(x: nat, n: nat): nat
    decreases n
  {
    if n == 0 then x else After(Advance(x), n - 1)
  }

  lemma {:induction false} OneMore(x: nat, n: nat)
    ensures After(x, n + 1) == Advance(After(x, n))
    ensures Choices(x, n + 1) == Choices(x, n) + [Advance(After(x, n)) % S.BUCKET_COUNT]
    decreases n
  {
    if n > 0 { OneMore(Advance(x), n - 1); }
  }

  class Chooser {
    const seed: nat
    var state: nat
    ghost var made: seq<nat>    // the choices so far

    ghost predicate Valid()
      reads this
    {
      state == After(seed, |made|) && made == Choices(seed, |made|)
    }

    constructor (seed: nat)
      ensures Valid() && this.seed == seed && made == []
    {
      this.seed := seed;
      state := seed;
      made := [];
    }

    function NextBucket(): (k: nat)
      reads this
      ensures k < S.BUCKET_COUNT
    {
      Advance(state) % S.BUCKET_COUNT
    }

    /** `arbitrary_bucket_id`: all choices of the thread so far are balanced. */
    method ArbitraryBucketId() returns (bucket: nat)
      requires Valid()
      modifies this
      ensures Valid() && made == old(made) + [bucket] && bucket == old(NextBucket()) < S.BUCKET_COUNT
      ensures forall k :: 0 <= k < S.BUCKET_COUNT ==> |made| / 16 <= Times(made, k) <= (|made| + 15) / 16
    {
      OneMore(seed, |made|);
      state := Advance(state);
      bucket := state % S.BUCKET_COUNT;
      made := made + [bucket];
      forall k | 0 <= k < S.BUCKET_COUNT ensures |made| / 16 <= Times(made, k) <= (|made| + 15) / 16 {
        Balanced(seed, k, |made|);
      }
    }
  }
}
