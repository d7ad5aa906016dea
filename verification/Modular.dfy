/** Division with remainder, for counters that wrap at `M`. */
module Modular {

  /** Unsigned addition and subtraction of values below `m`, wrapping at `m`. */
  function WrapAdd(a: nat, b: nat, m: nat): (r: nat)
    requires a < m && b < m
    ensures r < m && (r == a + b || r + m == a + b)
  {
    if a + b < m then a + b else a + b - m
  }

  function WrapSub(a: nat, b: nat, m: nat): (r: nat)
    requires a < m && b < m
    ensures r < m && (a == b + r || a + m == b + r)
  {
    if b <= a then a - b else a + m - b
  }

  /** `x` as a counter that wraps at `m` shows it. */
  function Wrapped(x: nat, m: nat): (r: nat)
    requires m > 0
    ensures r < m
  {
    x % m
  }

  lemma MulMono(m: nat, a: nat, b: nat)
    requires a <= b
    ensures m * a <= m * b
  {
  }

  /** Quotient and remainder are unique. */
  lemma DivUnique(x: nat, q: nat, r: nat, m: nat)
    requires r < m && x == m * q + r
    ensures x / m == q && x % m == r
  {
    var p, t := x / m, x % m;
    assert x == m * p + t;
    assert m * (q + 1) == m * q + m && m * (p + 1) == m * p + m;
    if q < p {
      MulMono(m, q + 1, p);
    } else if p < q {
      MulMono(m, p + 1, q);
    }
  }

  /** Adding whole turns changes only the quotient. */
  lemma AddTurns(x: nat, k: nat, m: nat)
    requires m > 0
    ensures (x + m * k) % m == x % m && (x + m * k) / m == x / m + k
  {
    assert m * (x / m + k) == m * (x / m) + m * k;
    DivUnique(x + m * k, x / m + k, x % m, m);
  }

  /** Adding less than a turn either stays in the epoch or wraps into the next one. */
  lemma AddWithin(x: nat, d: nat, m: nat)
    requires d < m
    ensures x % m + d < m ==> (x + d) % m == x % m + d && (x + d) / m == x / m
    ensures x % m + d >= m ==> (x + d) % m == x % m + d - m && (x + d) / m == x / m + 1
  {
    AddRemainder(x, x / m, x % m, d, m);
  }

  lemma AddRemainder(x: nat, q: nat, r: nat, d: nat, m: nat)
    requires d < m && r < m && x == m * q + r
    ensures r + d < m ==> (x + d) % m == r + d && (x + d) / m == q
    ensures r + d >= m ==> (x + d) % m == r + d - m && (x + d) / m == q + 1
  {
    if r + d < m {
      DivUnique(x + d, q, r + d, m);
    } else {
      assert m * (q + 1) == m * q + m;
      DivUnique(x + d, q + 1, r + d - m, m);
    }
  }

  /** Equal remainders stay equal. */
  lemma AddBoth(x: nat, y: nat, d: nat, m: nat)
    requires m > 0 && x % m == y % m
    ensures (x + d) % m == (y + d) % m
  {
    var e := d % m;
    assert d == m * (d / m) + e;
    AddTurns(x + e, d / m, m);
    AddTurns(y + e, d / m, m);
    AddWithin(x, e, m);
    AddWithin(y, e, m);
  }
}
