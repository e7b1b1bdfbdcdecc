/**
 Bitwise operators on natural numbers, and the arithmetic meaning of the masks
 used by the header word and by the slot scrambling.
 */
module Bits {

  const TWO31: nat := 0x8000_0000
  const TWO32: nat := 0x1_0000_0000
  const TWO63: nat := 0x8000_0000_0000_0000
  const TWO64: nat := 0x1_0000_0000_0000_0000

  function Pow2(k: nat): (p: nat)
    ensures p > 0
  {
    if k == 0 then 1 else 2 * Pow2(k - 1)
  }

  /** The machine `&`. */
  function And(x: nat, y: nat): (r: nat)
    ensures r <= y
    decreases x
  {
    if x == 0 || y == 0 then 0
    else 2 * And(x / 2, y / 2) + (if x % 2 == 1 && y % 2 == 1 then 1 else 0)
  }

  /** The machine `|`. */
  function Or(x: nat, y: nat): nat
    decreases x
  {
    if x == 0 then y
    else 2 * Or(x / 2, y / 2) + (if x % 2 == 1 || y % 2 == 1 then 1 else 0)
  }

  lemma Powers()
    ensures Pow2(31) == TWO31 && Pow2(32) == TWO32 && Pow2(63) == TWO63
  {
    assert Pow2(8) == 256;
    assert Pow2(16) == 65536;
    assert Pow2(24) == 0x100_0000;
    assert Pow2(31) == TWO31;
    assert Pow2(40) == 0x100_0000_0000;
    assert Pow2(48) == 0x1_0000_0000_0000;
    assert Pow2(56) == 0x100_0000_0000_0000;
  }

  lemma {:induction false} PowerMonotone(i: nat, j: nat)
    requires i <= j
    ensures Pow2(i) <= Pow2(j)
  {
    if i < j { PowerMonotone(i, j - 1); }
  }

  lemma {:induction false} PowerOfSum(i: nat, j: nat)
    ensures Pow2(i + j) == Pow2(i) * Pow2(j)
  {
    if i > 0 {
      PowerOfSum(i - 1, j);
      assert Pow2(i) * Pow2(j) == 2 * (Pow2(i - 1) * Pow2(j));
    }
  }

  /** Splits `q * 2^k + r` into its lowest bit and the rest. */
  lemma Halve(q: nat, r: nat, k: nat)
    requires k > 0
    ensures (q * Pow2(k) + r) / 2 == q * Pow2(k - 1) + r / 2
    ensures (q * Pow2(k) + r) % 2 == r % 2
  {
    assert q * Pow2(k) == 2 * (q * Pow2(k - 1));
  }

  /** Masking with `2^k - 1` keeps the `k` low bits. */
  lemma {:induction false} AndLowMask(q: nat, r: nat, k: nat)
    requires r < Pow2(k)
    ensures And(q * Pow2(k) + r, Pow2(k) - 1) == r
  {
    if k > 0 {
      Halve(q, r, k);
      AndLowMask(q, r / 2, k - 1);
      assert (Pow2(k) - 1) / 2 == Pow2(k - 1) - 1;
    }
  }

  /** A word is zero only when both its parts are. */
  lemma ZeroParts(q: nat, r: nat, k: nat)
    requires q * Pow2(k) + r == 0
    ensures q == 0 && r == 0
  {
    var p := Pow2(k);
    assert q * p == 0 && p > 0;
  }

  /** Masking with `2^k` tests bit `k`. */
  lemma {:induction false} AndBit(q: nat, r: nat, k: nat)
    requires r < Pow2(k)
    ensures And(q * Pow2(k) + r, Pow2(k)) == if q % 2 == 1 then Pow2(k) else 0
  {
    var x := q * Pow2(k) + r;
    if x == 0 {
      ZeroParts(q, r, k);
    } else if k == 0 {
      assert x == q;
      assert And(x / 2, 0) == 0;
    } else {
      Halve(q, r, k);
      AndBit(q, r / 2, k - 1);
      assert Pow2(k) / 2 == Pow2(k - 1) && Pow2(k) % 2 == 0;
    }
  }

  /** Or-ing with `2^k` sets bit `k`. */
  lemma {:induction false} OrBit(q: nat, r: nat, k: nat)
    requires r < Pow2(k)
    ensures var x := q * Pow2(k) + r; Or(x, Pow2(k)) == if q % 2 == 1 then x else x + Pow2(k)
  {
    var x := q * Pow2(k) + r;
    if x == 0 {
      ZeroParts(q, r, k);
    } else if k == 0 {
      assert x == q;
      OrZero(x / 2);
    } else {
      Halve(q, r, k);
      OrBit(q, r / 2, k - 1);
      assert Pow2(k) / 2 == Pow2(k - 1) && Pow2(k) % 2 == 0;
    }
  }

  lemma {:induction false} OrZero(x: nat)
    ensures Or(x, 0) == x
  {
    if x > 0 { OrZero(x / 2); }
  }

  /** Or-ing a low part with a shifted high part adds them. */
  lemma {:induction false} OrDisjoint(lo: nat, hi: nat, k: nat)
    requires lo < Pow2(k)
    ensures Or(lo, hi * Pow2(k)) == lo + hi * Pow2(k)
  {
    if k == 0 {
      assert lo == 0;
    } else {
      Halve(hi, 0, k);
      OrDisjoint(lo / 2, hi, k - 1);
      assert hi * Pow2(k) == 2 * (hi * Pow2(k - 1));
    }
  }
}
