/**
 Congruence modulo a positive number, and the powers of two.
 */
module Modular {

  function Times(m: int, k: int): int { m * k }

  ghost predicate Cong(a: int, b: int, m: int) { m > 0 && exists k :: a - b == Times(m, k) }

  lemma AtLeastOnce(m: int, d: int)
    requires m > 0
    ensures d >= 1 ==> m * d >= m
    ensures d <= -1 ==> m * d <= -m
  {}

  // Quotient and remainder are determined by x == m * k + r.
  lemma DivModUnique(x: int, m: int, k: int, r: int)
    requires m > 0 && 0 <= r < m && x == m * k + r
    ensures x / m == k && x % m == r
  {
    var q := x / m;
    assert m * (q - k) == m * q - m * k;
    AtLeastOnce(m, q - k);
  }

  lemma CongIntro(a: int, b: int, m: int, k: int)
    requires m > 0 && a - b == m * k
    ensures Cong(a, b, m)
  {
    assert a - b == Times(m, k);
  }

  lemma CongElim(a: int, b: int, m: int) returns (k: int)
    requires Cong(a, b, m)
    ensures a - b == m * k
  {
    k :| a - b == Times(m, k);
  }

  lemma CongSum(a: int, b: int, c: int, d: int, m: int)
    requires Cong(a, b, m) && Cong(c, d, m)
    ensures Cong(a + c, b + d, m) && Cong(a - c, b - d, m)
  {
    var k := CongElim(a, b, m);
    var l := CongElim(c, d, m);
    CongIntro(a + c, b + d, m, k + l);
    CongIntro(a - c, b - d, m, k - l);
  }

  lemma CongTrans(a: int, b: int, c: int, m: int)
    requires Cong(a, b, m) && Cong(b, c, m)
    ensures Cong(a, c, m)
  {
    var k := CongElim(a, b, m);
    var l := CongElim(b, c, m);
    CongIntro(a, c, m, k + l);
  }

  lemma CongSym(a: int, b: int, m: int)
    requires Cong(a, b, m)
    ensures Cong(b, a, m)
  {
    var k := CongElim(a, b, m);
    CongIntro(b, a, m, -k);
  }

  lemma CongMod(a: int, m: int)
    requires m > 0
    ensures Cong(a % m, a, m)
  {
    CongIntro(a % m, a, m, -(a / m));
  }

  // Congruent numbers in a window of length m are equal.
  lemma CongWindow(a: int, b: int, m: int, w: int)
    requires Cong(a, b, m) && w < a <= w + m && w < b <= w + m
    ensures a == b
  {
    var k := CongElim(a, b, m);
    AtLeastOnce(m, k);
  }

  // Congruence modulo a multiple is congruence.
  lemma CongCoarser(a: int, b: int, m: int, f: int)
    requires m > 0 && f > 0 && Cong(a, b, m * f)
    ensures Cong(a, b, m)
  {
    var k := CongElim(a, b, m * f);
    CongIntro(a, b, m, f * k);
  }

  function Pow2(n: nat): (r: nat)
    ensures r >= 1
  {
    if n == 0 then 1 else 2 * Pow2(n - 1)
  }

  lemma {:induction false} Pow2Sum(a: nat, b: nat)
    ensures Pow2(a + b) == Pow2(a) * Pow2(b)
    decreases b
  {
    if b > 0 {
      Pow2Sum(a, b - 1);
    }
  }
}
