/** Powers of two, masks and modular arithmetic for the ring's 64-bit counters. */
module Bits {

  function Pow2(k: nat): (p: nat)
    ensures p > 0
  {
    if k == 0 then 1 else 2 * Pow2(k - 1)
  }

  /** The bitwise & of two unsigned numbers. */
  function And(a: nat, b: nat): nat {
    if a == 0 || b == 0 then 0 else (if a % 2 == 1 && b % 2 == 1 then 1 else 0) + 2 * And(a / 2, b / 2)
  }

  // ---------------------------------------------------------------- modular arithmetic

  /** v mod m, never negative; a name for the solver to hold on to. */
  function Mod(v: int, m: nat): (r: nat)
    requires m > 0
    ensures r < m
  {
    v % m
  }

  lemma MulBound(m: nat, d: int)
    requires m > 0
    ensures d >= 1 ==> m * d >= m
    ensures d <= -1 ==> m * d + m <= 0
  {
  }

  /** Quotient and remainder are unique. */
  lemma ModIs(v: int, m: nat, q: int, r: nat)
    requires m > 0 && v == m * q + r && r < m
    ensures Mod(v, m) == r
  {
    MulBound(m, v / m - q);
    assert m * (v / m - q) == m * (v / m) - m * q;
  }

  lemma Decompose(v: int, m: nat) returns (q: int)
    requires m > 0
    ensures v == m * q + Mod(v, m)
  {
    q := v / m;
  }

  lemma ModSmall(v: nat, m: nat)
    requires v < m
    ensures Mod(v, m) == v
  {
  }

  lemma ModShift(v: int, m: nat, q: int)
    requires m > 0
    ensures Mod(v + m * q, m) == Mod(v, m)
  {
    hide Mod;
    var p := Decompose(v, m);
    assert m * (p + q) == m * p + m * q;
    ModIs(v + m * q, m, p + q, Mod(v, m));
  }

  /** Congruent modulo a multiple, congruent modulo the number. */
  lemma ModOfMultiple(v: int, m: nat, n: nat)
    requires m > 0 && n > 0
    ensures m * n > 0 && Mod(Mod(v, m * n), m) == Mod(v, m)
  {
    hide Mod;
    MulBound(m, n);
    var q := Decompose(v, m * n);
    assert (m * n) * q == m * (n * q);
    ModShift(Mod(v, m * n), m, n * q);
  }

  /** Remainders may be taken early. */
  lemma ModDifference(x: int, y: int, m: nat)
    requires m > 0
    ensures Mod(Mod(x, m) - y, m) == Mod(x - y, m)
    ensures Mod(x - Mod(y, m), m) == Mod(x - y, m)
  {
    hide Mod;
    var a := Decompose(x, m);
    ModShift(Mod(x, m) - y, m, a);
    var b := Decompose(y, m);
    ModShift(x - y, m, b);
  }

  lemma ModSum(x: int, i: int, m: nat)
    requires m > 0
    ensures Mod(Mod(x, m) + i, m) == Mod(x + i, m)
  {
    hide Mod;
    var a := Decompose(x, m);
    ModShift(Mod(x, m) + i, m, a);
  }

  lemma ModDouble(x: nat, m: nat)
    requires m > 0
    ensures Mod(x, 2 * m) == x % 2 + 2 * Mod(x / 2, m)
  {
    hide Mod;
    var q := Decompose(x / 2, m);
    var r := Mod(x / 2, m);
    assert (2 * m) * q == 2 * (m * q);
    ModIs(x, 2 * m, q, x % 2 + 2 * r);
  }

  lemma {:induction false} Pow2Sum(a: nat, b: nat)
    ensures Pow2(a + b) == Pow2(a) * Pow2(b)
  {
    if a > 0 {
      Pow2Sum(a - 1, b);
      assert Pow2(a + b) == 2 * Pow2(a - 1 + b);
      assert 2 * (Pow2(a - 1) * Pow2(b)) == (2 * Pow2(a - 1)) * Pow2(b);
    }
  }

  lemma {:induction false} Pow2Monotone(a: nat, b: nat)
    ensures a <= b ==> Pow2(a) <= Pow2(b)
    ensures a < b ==> Pow2(a) < Pow2(b)
    decreases b
  {
    if a < b { Pow2Monotone(a, b - 1); }
  }

  /** The mask of a power of two takes the remainder. */
  lemma {:induction false} MaskIsMod(x: nat, k: nat)
    ensures And(x, Pow2(k) - 1) == Mod(x, Pow2(k))
  {
    if k > 0 {
      var m := Pow2(k - 1);
      MaskIsMod(x / 2, k - 1);
      ModDouble(x, m);
      assert (2 * m - 1) / 2 == m - 1 && (2 * m - 1) % 2 == 1;
    }
  }
}
