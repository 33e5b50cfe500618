/** Division with remainder on natural numbers, one small step at a time. */
module Division {
  function Div(a: nat, d: nat): nat
    requires d > 0
  {
    a / d
  }

  function Mod(a: nat, d: nat): nat
    requires d > 0
  {
    a % d
  }

  lemma Grows(a: nat, b: nat, d: nat)
    ensures a < b ==> a * d + d <= b * d
  {
    if a < b {
      var k: nat := b - a - 1;
      assert (a + 1 + k) * d == a * d + d + k * d;
      assert k * d >= 0;
    }
  }

  lemma Divided(a: nat, d: nat)
    requires d > 0
    ensures a == Div(a, d) * d + Mod(a, d) && Mod(a, d) < d
  {
  }

  lemma QuotientUnique(a: nat, d: nat, q: nat, r: nat)
    requires d > 0 && r < d && a == q * d + r
    ensures Div(a, d) == q && Mod(a, d) == r
  {
    Divided(a, d);
    Grows(Div(a, d), q, d);
    Grows(q, Div(a, d), d);
  }

  lemma QuotientMonotone(a: nat, b: nat, d: nat)
    requires a <= b && d > 0
    ensures Div(a, d) <= Div(b, d)
  {
    Divided(a, d);
    Divided(b, d);
    Grows(Div(b, d), Div(a, d), d);
  }

  lemma QuotientAtMost(a: nat, d: nat)
    requires d > 0
    ensures Div(a, d) <= a
  {
    Divided(a, d);
    Grows(0, Div(a, d), d);
    Grows(1, d, Div(a, d));
  }
}
