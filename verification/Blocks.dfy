/**
 Block lengths and the scrambling of slots (src/block.rs, src/bucket.rs).

 Block number `i` of a bucket has `2^i` slots; number 0 was allocated first.
 */
module Blocks {
  import opened Bits

  /** The largest block number of the model: its block has 2^30 slots. */
  const MAX_BLOCK: nat := 30

  lemma {:induction false} PowerNotTriple(k: nat)
    ensures Pow2(k) % 3 != 0
  {
    if k > 0 {
      PowerNotTriple(k - 1);
      DoubleNotTriple(Pow2(k - 1));
    }
  }

  lemma DoubleNotTriple(x: nat)
    requires x % 3 != 0
    ensures (2 * x) % 3 != 0
  {
  }

  lemma SmallPower(k: nat)
    requires k <= MAX_BLOCK
    ensures Pow2(k) <= 0x4000_0000
  {
    PowerMonotone(k, 30);
    Powers();
  }

  // ----- scrambling

  /** Truncate the 64-bit product to 32 bits, then mask with the length less one. */
  function ScrambleSlot(len: nat, slot: nat): (i: nat)
    requires len > 0
    ensures i < len
  {
    And((slot * 3) % TWO32, len - 1)
  }

  /** The inverse: whichever of `i`, `i + len`, `i + 2 * len` is a multiple of three, divided by three. */
  function UnscrambleSlot(len: nat, i: nat): nat {
    if i % 3 == 0 then i / 3
    else if (i + len) % 3 == 0 then (i + len) / 3
    else (i + 2 * len) / 3
  }

  /** Truncating first does not matter, because the length divides 2^32. */
  lemma ScrambleIsTripleModulo(k: nat, slot: nat)
    requires k <= 32
    ensures ScrambleSlot(Pow2(k), slot) == (3 * slot) % Pow2(k)
  {
    MaskIsModulo((slot * 3) % TWO32, k);
    Divides32(k);
    ModuloOfModulo(slot * 3, Pow2(k), Pow2(32 - k));
  }

  lemma MaskIsModulo(x: nat, k: nat)
    ensures And(x, Pow2(k) - 1) == x % Pow2(k)
  {
    var q, r := Divide(x, Pow2(k));
    AndLowMask(q, r, k);
  }

  lemma Divide(x: nat, p: nat) returns (q: nat, r: nat)
    requires p > 0
    ensures q == x / p && r == x % p && q * p + r == x && r < p
  {
    q, r := x / p, x % p;
  }

  lemma Divides32(k: nat)
    requires k <= 32
    ensures Pow2(k) * Pow2(32 - k) == TWO32
  {
    PowerOfSum(k, 32 - k);
    Powers();
  }

  lemma ModuloOfModulo(x: nat, a: nat, b: nat)
    requires a > 0 && b > 0
    ensures a * b > 0 && (x % (a * b)) % a == x % a
  {
    var m := a * b;
    var q, r := x / m, x % m;
    assert x == q * m + r;
    assert q * m == (q * b) * a;
    ModuloShift(r, a, q * b);
  }

  lemma {:induction false} ModuloShift(r: nat, a: nat, n: nat)
    requires a > 0
    ensures (r + n * a) % a == r % a
  {
    if n > 0 {
      ModuloShift(r, a, n - 1);
      var y := r + (n - 1) * a;
      assert r + n * a == y + a;
      assert (y + a) % a == y % a by { ModuloStep(y, a); }
    }
  }

  lemma ModuloStep(y: nat, a: nat)
    requires a > 0
    ensures (y + a) % a == y % a
  {
    var q, r := y / a, y % a;
    assert y + a == (q + 1) * a + r;
    QuotientUnique(y + a, a, q + 1, r);
  }

  lemma QuotientUnique(x: nat, a: nat, q: nat, r: nat)
    requires a > 0 && r < a && x == q * a + r
    ensures x % a == r
  {
    var q', r' := x / a, x % a;
    assert x == q' * a + r';
    SmallMultiple(q - q', a, r' - r);
  }

  lemma SmallMultiple(d: int, a: int, e: int)
    requires d * a == e && -a < e < a
    ensures d == 0
  {
    assert d > 0 ==> d * a >= a;
    assert d < 0 ==> d * a <= -a;
  }

  /** Scrambling is a permutation of the slots of a block, with `UnscrambleSlot` as its inverse. */
  lemma ScramblePermutes(k: nat, i: nat)
    requires k <= 32 && i < Pow2(k)
    ensures ScrambleSlot(Pow2(k), i) < Pow2(k)
    ensures UnscrambleSlot(Pow2(k), i) < Pow2(k)
    ensures UnscrambleSlot(Pow2(k), ScrambleSlot(Pow2(k), i)) == i
    ensures ScrambleSlot(Pow2(k), UnscrambleSlot(Pow2(k), i)) == i
  {
    var len := Pow2(k);
    PowerNotTriple(k);
    TripleInverse(len, i);
    ScrambleForm(k, i);
    ScrambleForm(k, UnscrambleSlot(len, i));
  }

  /** `3 * i` reduced below `len`. */
  function Triple(len: nat, i: nat): int {
    if 3 * i < len then 3 * i else if 3 * i < 2 * len then 3 * i - len else 3 * i - 2 * len
  }

  lemma TripleInverse(len: nat, i: nat)
    requires i < len && len % 3 != 0
    ensures 0 <= Triple(len, i) < len
    ensures UnscrambleSlot(len, i) < len
    ensures UnscrambleSlot(len, Triple(len, i)) == i
    ensures Triple(len, UnscrambleSlot(len, i)) == i
  {
    TripleRange(len, i);
    UnscrambleRange(len, i);
    UnscrambleRange(len, Triple(len, i));
    TripleOfUnscrambled(len, i, UnscrambleSlot(len, i));
    UnscrambledTriple(len, i, UnscrambleSlot(len, Triple(len, i)));
  }

  lemma TripleRange(len: nat, i: nat)
    requires i < len
    ensures 0 <= Triple(len, i) < len
  {
  }

  lemma TripleOfUnscrambled(len: nat, i: nat, u: nat)
    requires i < len && u < len && (3 * u == i || 3 * u == i + len || 3 * u == i + 2 * len)
    ensures Triple(len, u) == i
  {
  }

  /** Two slots whose triples agree up to a multiple of the length are the same. */
  lemma UnscrambledTriple(len: nat, i: nat, u: nat)
    requires i < len && u < len && len % 3 != 0
    requires var t := Triple(len, i); 3 * u == t || 3 * u == t + len || 3 * u == t + 2 * len
    ensures u == i
  {
  }

  lemma UnscrambleRange(len: nat, i: nat)
    requires i < len && len % 3 != 0
    ensures var u := UnscrambleSlot(len, i); u < len && (3 * u == i || 3 * u == i + len || 3 * u == i + 2 * len)
  {
    var p, q, rest := i / 3, len / 3, i % 3;
    if rest + len % 3 == 3 {
      QuotientUnique(i + len, 3, p + q + 1, 0);
    } else if rest == 1 {
      QuotientUnique(i + len, 3, p + q, 2);
      QuotientUnique(i + 2 * len, 3, p + 2 * q + 1, 0);
    } else if rest == 2 {
      QuotientUnique(i + len, 3, p + q + 1, 1);
      QuotientUnique(i + 2 * len, 3, p + 2 * q + 2, 0);
    }
  }

  lemma ScrambleForm(k: nat, i: nat)
    requires k <= 32 && i < Pow2(k)
    ensures ScrambleSlot(Pow2(k), i) == Triple(Pow2(k), i)
  {
    ScrambleIsTripleModulo(k, i);
    TripleModulo(Pow2(k), i);
  }

  lemma TripleModulo(len: nat, i: nat)
    requires i < len
    ensures (3 * i) % len == Triple(len, i)
  {
    if 3 * i < len {
      QuotientUnique(3 * i, len, 0, 3 * i);
    } else if 3 * i < 2 * len {
      QuotientUnique(3 * i, len, 1, 3 * i - len);
    } else {
      QuotientUnique(3 * i, len, 2, 3 * i - 2 * len);
    }
  }

  // ----- the total size of a chain

  /** The slots of the first `n` blocks, added up block by block. */
  function SlotsOf(n: nat): (total: nat)
    ensures total == Pow2(n) - 1
  {
    if n == 0 then 0 else SlotsOf(n - 1) + Pow2(n - 1)
  }

  /** The length of the head of a bucket with `n` blocks. */
  function HeadLen(n: nat): nat {
    if n == 0 then 0 else Pow2(n - 1)
  }

  /**
   `head_size_to_total_size`.  `fits` says that no intermediate value left `u32`; for
   the lengths blocks can have, that is so exactly below 2^31.
   */
  method HeadSizeToTotalSize(headSize: nat, ghost n: nat) returns (total: nat, fits: bool)
    requires n <= 32 && headSize == HeadLen(n)
    ensures total == SlotsOf(n)
    ensures fits <==> n <= 31
  {
    hide Pow2, SlotsOf, HeadLen;
    total, fits := 0, true;
    ChainStart();
    var considered := 1;
    ghost var i := 0;
    while considered <= headSize
      invariant i <= n && considered == Pow2(i) && total == SlotsOf(i)
      invariant fits <==> i <= 31
      decreases n - i
    {
      BelowHead(i, n);
      ChainStep(i);
      total := total + considered;
      considered := considered * 2;
      i := i + 1;
      fits := fits && total < TWO32 && considered < TWO32;
    }
    BelowHead(i, n);
  }

  lemma ChainStart()
    ensures Pow2(0) == 1 && SlotsOf(0) == 0
  {
  }

  /** The first `i + 1` blocks: what is added, and when all of it is in range. */
  lemma ChainStep(i: nat)
    requires i < 32
    ensures Pow2(i + 1) == 2 * Pow2(i) && SlotsOf(i + 1) == SlotsOf(i) + Pow2(i)
    ensures SlotsOf(i + 1) < TWO32 && Pow2(i + 1) < TWO32 <==> i + 1 <= 31
  {
    U32Range(i + 1);
  }

  /** Block `i` of `n` is at most as long as the head exactly when it exists. */
  lemma BelowHead(i: nat, n: nat)
    requires i <= n <= 32
    ensures Pow2(i) <= HeadLen(n) <==> i < n
  {
    if i < n { PowerMonotone(i, n - 1); }
  }

  lemma U32Range(i: nat)
    requires i <= 32
    ensures Pow2(i) < TWO32 <==> i <= 31
    ensures Pow2(i) <= TWO32
  {
    Powers();
    PowerMonotone(i, 32);
    if i <= 31 { PowerMonotone(i, 31); }
  }
}
