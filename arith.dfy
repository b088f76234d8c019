/** Small facts about multiplication and floor division on naturals, the
    building blocks of the monotonicity proofs about the rate formulas. */
module Arith {

  /** A product of naturals is a natural, and zero when a factor is. */
  lemma MulNat(a: nat, b: nat)
    ensures a * b >= 0
    ensures a == 0 || b == 0 ==> a * b == 0
  {
  }

  /** Floor division of a natural by a positive number is a natural, and
      zero for a dividend below the divisor. */
  lemma DivNat(a: nat, c: nat)
    requires c > 0
    ensures a / c >= 0
    ensures a < c ==> a / c == 0
  {
  }

  lemma MulLe(a: nat, b: nat, c: nat)
    requires a <= b
    ensures a * c <= b * c
  {
  }

  lemma MulLe2(a: nat, b: nat, c: nat, d: nat)
    requires a <= b && c <= d
    ensures a * c <= b * d
  {
    MulLe(a, b, c);
    assert b * c <= b * d by { MulLe(c, d, b); }
  }

  /** Floor division is monotone in the dividend. */
  lemma DivLe(a: nat, b: nat, c: nat)
    requires a <= b && c > 0
    ensures a / c <= b / c
  {
    var qa, qb := a / c, b / c;
    assert a == qa * c + a % c;
    assert b == qb * c + b % c;
    if qa > qb {
      assert qa >= qb + 1;
      MulLe(qb + 1, qa, c);
    }
  }

  /** Floor division is anti-monotone in the divisor. */
  lemma DivLeDivisor(a: nat, c1: nat, c2: nat)
    requires 0 < c1 <= c2
    ensures a / c2 <= a / c1
  {
    var q := a / c2;
    assert q * c2 <= a;
    MulLe(c1, c2, q);
    assert q * c1 <= a;
    DivLe(q * c1, a, c1);
    MulDivCancel(q, c1);
  }

  /** The quotient is the unique q with n == q * c + r and 0 <= r < c. */
  lemma DivUnique(n: nat, c: nat, q: nat, r: nat)
    requires c > 0 && n == q * c + r && r < c
    ensures n / c == q
  {
    var q', r' := n / c, n % c;
    assert n == q' * c + r';
    if q < q' {
      MulLe(q + 1, q', c);
    } else if q' < q {
      MulLe(q' + 1, q, c);
    }
  }

  lemma MulDivCancel(a: nat, c: nat)
    requires c > 0
    ensures (a * c) / c == a
    ensures (c * a) / c == a
  {
    DivUnique(a * c, c, a, 0);
    assert c * a == a * c;
  }

  /** Dividing never gives more than the dividend. */
  lemma DivLeSelf(a: nat, c: nat)
    requires c > 0
    ensures a / c <= a
  {
    DivLeDivisor(a, 1, c);
  }

  /** value * part / total is at most value when part <= total. */
  lemma ScaleLe(v: nat, part: nat, total: nat)
    requires 0 < total && part <= total
    ensures v * part / total <= v
  {
    MulLe(part, total, v);
    assert v * part <= v * total;
    DivLe(v * part, v * total, total);
    MulDivCancel(v, total);
  }

  /** part * v / total is at most v when part <= total (the factor order of a curve segment). */
  lemma ShareLe(part: nat, v: nat, total: nat)
    requires 0 < total && part <= total
    ensures part * v / total <= v
  {
    ScaleLe(v, part, total);
    assert part * v == v * part;
  }
}
