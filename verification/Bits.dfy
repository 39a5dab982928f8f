/** Bit masks on natural numbers. */
module Bits {
  function Pow2(k: nat): (r: nat)
    ensures r > 0
  {
    if k == 0 then 1 else 2 * Pow2(k - 1)
  }

  /** The bitwise conjunction. */
  function And(x: nat, y: nat): nat {
    if x == 0 || y == 0 then 0 else 2 * And(x / 2, y / 2) + (x % 2) * (y % 2)
  }

  lemma HalveModulo(v: nat, m: nat)
    requires m > 0
    ensures v % (2 * m) == 2 * ((v / 2) % m) + v % 2
  {
    var q, r := (v / 2) / m, (v / 2) % m;
    assert v == (2 * m) * q + (2 * r + v % 2) by { assert v / 2 == m * q + r; }
    QuotientIsUnique(v, 2 * m, q, 2 * r + v % 2);
  }

  lemma SameQuotient(m: nat, d: int, e: int)
    requires m * d == e && -(m as int) < e < m
    ensures d == 0
  {
  }

  lemma QuotientIsUnique(v: nat, m: nat, q: nat, r: nat)
    requires m > 0 && v == m * q + r && r < m
    ensures v / m == q && v % m == r
  {
    var q', r' := v / m, v % m;
    assert m * (q' - q) == r - r' by { assert v == m * q' + r'; }
    SameQuotient(m, q' - q, r - r');
  }

  lemma {:induction false} AndOnes(v: nat, k: nat)
    ensures And(v, Pow2(k) - 1) == v % Pow2(k)
    decreases k
  {
    if k > 0 {
      AndOnes(v / 2, k - 1);
      HalveModulo(v, Pow2(k - 1));
      assert (Pow2(k) - 1) / 2 == Pow2(k - 1) - 1 && (Pow2(k) - 1) % 2 == 1;
    }
  }

  lemma {:induction false} Pow2Grows(i: nat, j: nat)
    requires i <= j
    ensures Pow2(i) <= Pow2(j)
    decreases j
  {
    if i < j { Pow2Grows(i, j - 1); }
  }

  lemma {:induction false} AndDouble(v: nat, half: nat)
    ensures And(v, 2 * half) == 2 * And(v / 2, half)
  {
    assert (2 * half) / 2 == half && (2 * half) % 2 == 0;
  }

  lemma {:induction false} PrefixStep(v: nat, half: nat, m: nat)
    requires m > 0 && And(v / 2, half) == v / 2 - (v / 2) % m
    ensures And(v, 2 * half) == v - v % (2 * m)
  {
    AndDouble(v, half);
    HalveModulo(v, m);
  }

  lemma {:induction false} AndWhole(v: nat, width: nat)
    requires v < Pow2(width)
    ensures And(v, Pow2(width) - 1) == v
  {
    AndOnes(v, width);
    QuotientIsUnique(v, Pow2(width), 0, v);
  }

  /** A prefix mask clears the low bits. */
  lemma {:induction false} AndPrefix(v: nat, width: nat, k: nat)
    requires v < Pow2(width) && k <= width
    ensures Pow2(k) <= Pow2(width)
    ensures And(v, Pow2(width) - Pow2(k)) == v - v % Pow2(k)
    decreases k
  {
    Pow2Grows(k, width);
    if k == 0 {
      AndWhole(v, width);
    } else {
      var half, m := Pow2(width - 1) - Pow2(k - 1), Pow2(k - 1);
      AndPrefix(v / 2, width - 1, k - 1);
      PrefixStep(v, half, m);
      assert Pow2(width) - Pow2(k) == 2 * half && Pow2(k) == 2 * m;
    }
  }
}
