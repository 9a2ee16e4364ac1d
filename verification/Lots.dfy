/** Exact lots: the least common multiple splits an offer into the finest units that trade at its exact price. */
module Lots {

  function Gcd(a: nat, b: nat): (g: nat)
    requires a > 0 && b > 0
    ensures g > 0
    decreases a + b
  {
    if a == b then a else if a < b then Gcd(a, b - a) else Gcd(a - b, b)
  }

  function Div(n: nat, d: nat): nat
    requires d > 0
  {
    n / d
  }

  function Lcm(a: nat, b: nat): nat
    requires a > 0 && b > 0
  {
    Div(a * b, Gcd(a, b))
  }

  ghost predicate Coprime(a: nat, b: nat)
    requires a > 0 && b > 0
  {
    Gcd(a, b) == 1
  }

  // ---- arithmetic ----

  lemma Distribute(c: int, a: int, b: int)
    ensures c * (a + b) == c * a + c * b
    ensures c * (a - b) == c * a - c * b
  {
  }

  lemma Positive(c: int, d: int)
    requires c > 0 && d > 0
    ensures c * d > 0
  {
  }

  lemma CancelLeft(c: nat, a: int, b: int)
    requires c > 0
    ensures c * a == c * b <==> a == b
    ensures c * a < c * b <==> a < b
  {
    Distribute(c, a, b);
    Distribute(c, b, a);
    if a < b {
      Positive(c, b - a);
    } else if b < a {
      Positive(c, a - b);
    }
  }

  lemma DivideProduct(c: nat, q: nat)
    requires c > 0
    ensures c * q / c == q
  {
    var r := c * q / c;
    assert c * r <= c * q < c * r + c;
    Distribute(c, r, 1);
    CancelLeft(c, q, r + 1);
    CancelLeft(c, r, q);
    CancelLeft(c, q, r);
  }

  lemma Swap3(a: int, b: int, c: int)
    ensures a * b * c == a * (b * c) == b * (a * c) == c * (a * b)
  {
  }

  // ---- the greatest common divisor ----

  /** The gcd divides both numbers. */
  lemma {:induction false} Quotients(a: nat, b: nat) returns (x: nat, y: nat)
    requires a > 0 && b > 0
    ensures a == Gcd(a, b) * x && b == Gcd(a, b) * y && x > 0 && y > 0
    decreases a + b
  {
    if a == b {
      x, y := 1, 1;
    } else if a < b {
      var y';
      x, y' := Quotients(a, b - a);
      y := x + y';
      Distribute(Gcd(a, b), x, y');
    } else {
      var x';
      x', y := Quotients(a - b, b);
      x := x' + y;
      Distribute(Gcd(a, b), x', y);
    }
  }

  /** Whatever divides both numbers divides their gcd. */
  lemma {:induction false} CommonDivisor(a: nat, b: nat, d: nat, p: nat, q: nat) returns (r: nat)
    requires a > 0 && b > 0 && a == d * p && b == d * q
    ensures Gcd(a, b) == d * r
    decreases a + b
  {
    Distribute(d, q, p);
    Distribute(d, p, q);
    if a == b {
      r := p;
    } else if a < b {
      if q < p { CancelLeft(d, q, p); }
      r := CommonDivisor(a, b - a, d, p, q - p);
    } else {
      if p < q { CancelLeft(d, p, q); }
      r := CommonDivisor(a - b, b, d, p - q, q);
    }
  }

  lemma {:induction false} GcdScales(g: nat, x: nat, y: nat)
    requires g > 0 && x > 0 && y > 0
    ensures g * x > 0 && g * y > 0
    ensures Gcd(g * x, g * y) == g * Gcd(x, y)
    decreases x + y
  {
    CancelLeft(g, 0, x);
    CancelLeft(g, 0, y);
    CancelLeft(g, x, y);
    CancelLeft(g, y, x);
    Distribute(g, y, x);
    Distribute(g, x, y);
    if x < y {
      GcdScales(g, x, y - x);
    } else if y < x {
      GcdScales(g, x - y, y);
    }
  }

  lemma SubtractPart(g: nat, x: nat, y: nat)
    requires g > 0 && g * x < g * y
    ensures x < y && g * y - g * x == g * (y - x)
  {
    CancelLeft(g, x, y);
    Distribute(g, y, x);
  }

  lemma SubtractRatio(a: nat, b: nat, p: nat, q: nat)
    requires 0 < a < b && p * b == q * a
    ensures p <= q && p * (b - a) == (q - p) * a
  {
    Distribute(p, b, a);
    Distribute(a, q, p);
    if q < p {
      CancelLeft(a, q, p);
      CancelRight(p, a, b);
    }
  }

  lemma CancelRight(p: nat, a: nat, b: nat)
    requires a < b && p > 0
    ensures p * a < p * b
  {
    CancelLeft(p, a, b);
  }

  /** Numbers in the ratio of a to b are one multiple of the quotients of a and b by their gcd. */
  lemma {:induction false} SameRatioIsMultiple(a: nat, b: nat, x: nat, y: nat, p: nat, q: nat) returns (n: nat)
    requires a > 0 && b > 0 && a == Gcd(a, b) * x && b == Gcd(a, b) * y
    requires p * b == q * a
    ensures p == n * x && q == n * y
    decreases a + b
  {
    var g := Gcd(a, b);
    if a == b {
      CancelLeft(g, x, 1);
      CancelLeft(g, y, 1);
      CancelLeft(a, p, q);
      n := p;
    } else if a < b {
      SubtractPart(g, x, y);
      SubtractRatio(a, b, p, q);
      n := SameRatioIsMultiple(a, b - a, x, y - x, p, q - p);
      Distribute(n, y, x);
    } else {
      SubtractPart(g, y, x);
      SubtractRatio(b, a, q, p);
      n := SameRatioIsMultiple(a - b, b, x - y, y, p - q, q);
      Distribute(n, x, y);
    }
  }

  // ---- lots ----

  datatype Lot = Lot(unitHave: nat, unitWant: nat, units: nat)

  /** The unit amounts and the number of units of an offer, as the code computes them from the lcm. */
  function Split(have: nat, want: nat): Lot
    requires have > 0 && want > 0
  {
    var lcm := Lcm(have, want);
    var unitHave := Div(lcm, want);
    Lot(unitHave, Div(lcm, have), if unitHave == 0 then 0 else Div(have, unitHave))
  }

  /** In terms of the gcd g: the unit amounts are have/g and want/g, and there are g units. */
  lemma SplitByGcd(have: nat, want: nat)
    requires have > 0 && want > 0
    ensures var lot := Split(have, want);
      && lot.unitHave > 0 && lot.unitWant > 0 && lot.units == Gcd(have, want)
      && have == Gcd(have, want) * lot.unitHave && want == Gcd(have, want) * lot.unitWant
  {
    hide Gcd;
    var x, y := Quotients(have, want);
    LcmByGcd(have, want, x, y);
    hide Lcm;
    DivideProduct(want, x);
    DivideProduct(have, y);
    DivideByQuotient(have, Gcd(have, want), x);
  }

  lemma DivideByQuotient(n: nat, g: nat, x: nat)
    requires x > 0 && n == g * x
    ensures n / x == g
  {
    DivideProduct(x, g);
  }

  lemma LcmByGcd(a: nat, b: nat, x: nat, y: nat)
    requires a > 0 && b > 0 && a == Gcd(a, b) * x && b == Gcd(a, b) * y
    ensures Lcm(a, b) == a * y == b * x
  {
    hide Gcd;
    var g := Gcd(a, b);
    Swap3(g, x, y);
    Swap3(a, g, y);
    DivideProduct(g, a * y);
  }

  /** The lots of an offer are exact and finest: units times unit amounts give exactly the offered and wanted amounts,
      and the unit amounts are coprime. */
  lemma FinestLots(have: nat, want: nat)
    requires have > 0 && want > 0
    ensures var lot := Split(have, want);
      && lot.unitHave > 0 && lot.unitWant > 0 && lot.units > 0
      && lot.units * lot.unitHave == have && lot.units * lot.unitWant == want
      && Coprime(lot.unitHave, lot.unitWant)
  {
    SplitByGcd(have, want);
    hide Split, Gcd;
    var lot := Split(have, want);
    GcdScales(lot.units, lot.unitHave, lot.unitWant);
    CancelLeft(lot.units, Gcd(lot.unitHave, lot.unitWant), 1);
  }

  /** Every fill at the offer's exact price is a whole number of its units. */
  lemma ExactFillIsWhole(have: nat, want: nat, give: nat, get: nat) returns (units: nat)
    requires have > 0 && want > 0 && give * want == get * have
    ensures give == units * Split(have, want).unitHave && get == units * Split(have, want).unitWant
  {
    SplitByGcd(have, want);
    hide Split, Gcd;
    var lot := Split(have, want);
    units := SameRatioIsMultiple(have, want, lot.unitHave, lot.unitWant, give, get);
  }
}
