/** Quotients of natural numbers. */
module Division {

  lemma QuotientIs(v: nat, d: nat, q: nat, r: nat)
    requires d > 0 && v == q * d + r && r < d
    ensures v / d == q
  {
    var e := q - v / d;
    assert q * d == (v / d) * d + e * d;
    if e > 0 {
      ProductAtLeast(e, d);
    } else if e < 0 {
      ProductAtLeast(-e, d);
    }
  }

  lemma ProductAtLeast(e: nat, d: nat)
    requires e > 0
    ensures e * d >= d
  {
    assert e * d == d + (e - 1) * d;
  }

  lemma DividesInTurn(v: nat, b: nat, d: nat)
    requires b > 0 && d > 0
    ensures b * d > 0 && v / b / d == v / (b * d)
  {
    ProductAtLeast(b, d);
    TwoSteps(v, b, d, v / b, v % b, v / b / d, (v / b) % d);
  }

  lemma TwoSteps(v: nat, b: nat, d: nat, h: nat, s: nat, q: nat, r: nat)
    requires v == h * b + s && s < b && h == q * d + r && r < d && b * d > 0
    ensures v / (b * d) == q
  {
    Regroups(b, q, d, r);
    Within(b, r, s, d);
    QuotientIs(v, b * d, q, r * b + s);
  }

  lemma Within(b: nat, r: nat, s: nat, d: nat)
    requires s < b && r < d
    ensures r * b + s < b * d
  {
    assert b * d == r * b + (d - r) * b;
    ProductAtLeast(d - r, b);
  }

  lemma Regroups(b: nat, q: nat, d: nat, r: nat)
    ensures (q * d + r) * b == q * (b * d) + r * b
  {
  }
}
