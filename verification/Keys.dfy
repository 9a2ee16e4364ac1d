/** Storage keys: zero-padded decimals, fixed-point prices, and the lexicographic order in which storage lists keys. */
module Keys {

  function Digit(d: nat): char
    requires d < 10
  {
    '0' + d as char
  }

  function Pow10(w: nat): (p: nat)
    ensures p > 0
  {
    if w == 0 then 1 else 10 * Pow10(w - 1)
  }

  /** The decimal digits of n. */
  function Decimal(n: nat): (s: string)
    ensures s != ""
  {
    if n < 10 then [Digit(n)] else Decimal(n / 10) + [Digit(n % 10)]
  }

  function Zeros(w: nat): (s: string)
    ensures |s| == w
  {
    if w == 0 then "" else ['0'] + Zeros(w - 1)
  }

  /** n in decimal, filled with zeros on the left up to a least width; longer numbers are not cut. */
  function Pad(n: nat, w: nat): (s: string)
    ensures |s| >= w
  {
    if |Decimal(n)| >= w then Decimal(n) else Zeros(w - |Decimal(n)|) + Decimal(n)
  }

  /** The last w decimal digits of n. */
  function Fixed(n: nat, w: nat): (s: string)
    ensures |s| == w
  {
    if w == 0 then "" else Fixed(n / 10, w - 1) + [Digit(n % 10)]
  }

  /** The number written in a string of digits. */
  function Number(s: string): nat {
    if s == "" then 0
    else
      var last := s[|s| - 1];
      10 * Number(s[..|s| - 1]) + if '0' <= last <= '9' then (last - '0') as int else 0
  }

  // ---- padded numbers can be read back ----

  lemma {:induction false} DecimalReads(n: nat)
    ensures Number(Decimal(n)) == n
    ensures '|' !in Decimal(n)
  {
    var s := Decimal(n);
    if n < 10 {
      assert s[..0] == "";
      assert Number(s[..0]) == 0;
    } else {
      DecimalReads(n / 10);
      assert s[..|s| - 1] == Decimal(n / 10);
    }
  }

  lemma {:induction false} ZerosRead(w: nat, s: string)
    ensures Number(Zeros(w) + s) == Number(s)
    ensures '|' !in Zeros(w)
    decreases w, |s|
  {
    var t := Zeros(w) + s;
    if s != "" {
      ZerosRead(w, s[..|s| - 1]);
      assert t[..|t| - 1] == Zeros(w) + s[..|s| - 1];
    } else if w > 0 {
      assert t == Zeros(w) == ['0'] + Zeros(w - 1);
      ZerosAppend(w - 1);
      assert t[..|t| - 1] == Zeros(w - 1) + "";
      ZerosRead(w - 1, "");
    }
  }

  lemma {:induction false} ZerosAppend(w: nat)
    ensures Zeros(w) + ['0'] == ['0'] + Zeros(w)
  {
    if w > 0 {
      ZerosAppend(w - 1);
      assert ['0'] + Zeros(w - 1) + ['0'] == ['0'] + (Zeros(w - 1) + ['0']);
    }
  }

  /** A padded number is read back, so padding never makes two numbers one. */
  lemma PadReads(n: nat, w: nat)
    ensures Number(Pad(n, w)) == n
    ensures '|' !in Pad(n, w)
  {
    DecimalReads(n);
    hide Number, Decimal, Zeros;
    if |Decimal(n)| < w {
      ZerosRead(w - |Decimal(n)|, Decimal(n));
    }
  }

  lemma {:induction false} DecimalLength(n: nat, w: nat)
    requires n < Pow10(w) && w > 0
    ensures |Decimal(n)| <= w
  {
    if n >= 10 {
      assert w > 1 by { assert Pow10(1) == 10 * Pow10(0); }
      DecimalLength(n / 10, w - 1);
    }
  }

  lemma PadStep(n: nat, w: nat)
    requires |Decimal(n)| <= w && w > 1
    ensures |Decimal(n / 10)| <= w - 1
    ensures Pad(n, w) == Pad(n / 10, w - 1) + [Digit(n % 10)]
  {
    if n >= 10 {
      assert Decimal(n) == Decimal(n / 10) + [Digit(n % 10)];
      hide Decimal, Zeros;
    } else {
      assert n / 10 == 0 && n % 10 == n;
      PadDigit(n, w);
    }
  }

  lemma PadDigit(n: nat, w: nat)
    requires n < 10 && w > 1
    ensures |Decimal(n)| == 1 && |Decimal(0)| == 1
    ensures Pad(n, w) == Pad(0, w - 1) + [Digit(n)]
  {
    assert Decimal(0) == "0" && Decimal(n) == [Digit(n)];
    hide Decimal;
    ZerosAppend(w - 2);
    assert Zeros(w - 2) + "0" == Zeros(w - 1);
    hide Zeros;
  }

  lemma {:induction false} PadIsFixed(n: nat, w: nat)
    requires n < Pow10(w) && w > 0
    ensures Pad(n, w) == Fixed(n, w)
  {
    DecimalLength(n, w);
    if w == 1 {
      assert Pow10(1) == 10 * Pow10(0);
      assert Fixed(n, 1) == Fixed(n / 10, 0) + [Digit(n % 10)] == [Digit(n)];
    } else {
      PadStep(n, w);
      PadIsFixed(n / 10, w - 1);
    }
  }

  // ---- lexicographic order ----

  predicate Less(a: string, b: string) {
    b != "" && (a == "" || a[0] < b[0] || (a[0] == b[0] && Less(a[1..], b[1..])))
  }

  /** Strings with a common-length front are ordered by their fronts first. */
  lemma {:induction false} LessConcat(a: string, b: string, x: string, y: string)
    requires |a| == |b|
    ensures Less(a + x, b + y) <==> Less(a, b) || (a == b && Less(x, y))
  {
    if a == "" {
      assert a + x == x && b + y == y;
    } else {
      LessConcat(a[1..], b[1..], x, y);
      assert (a + x)[1..] == a[1..] + x && (b + y)[1..] == b[1..] + y;
      assert a == b <==> a[0] == b[0] && a[1..] == b[1..] by {
        assert a == [a[0]] + a[1..] && b == [b[0]] + b[1..];
      }
    }
  }

  lemma LessPrefix(p: string, x: string, y: string)
    ensures Less(p + x, p + y) <==> Less(x, y)
  {
    LessConcat(p, p, x, y);
    LessIrreflexive(p);
  }

  lemma {:induction false} LessIrreflexive(a: string)
    ensures !Less(a, a)
  {
    if a != "" { LessIrreflexive(a[1..]); }
  }

  lemma {:induction false} LessTransitive(a: string, b: string, c: string)
    requires Less(a, b) && Less(b, c)
    ensures Less(a, c)
  {
    if a != "" && a[0] == b[0] && b[0] == c[0] {
      LessTransitive(a[1..], b[1..], c[1..]);
    }
  }

  lemma {:induction false} LessTotal(a: string, b: string)
    ensures a == b || Less(a, b) || Less(b, a)
  {
    if a != "" && b != "" && a[0] == b[0] {
      LessTotal(a[1..], b[1..]);
      assert a == [a[0]] + a[1..] && b == [b[0]] + b[1..];
    }
  }

  /** Numbers of w digits are ordered as their digit strings are. */
  lemma {:induction false} FixedOrder(n: nat, m: nat, w: nat)
    requires n < Pow10(w) && m < Pow10(w)
    ensures Less(Fixed(n, w), Fixed(m, w)) <==> n < m
    ensures Fixed(n, w) == Fixed(m, w) <==> n == m
  {
    if w > 0 {
      FixedOrder(n / 10, m / 10, w - 1);
      var x, y := Digit(n % 10), Digit(m % 10);
      LessConcat(Fixed(n / 10, w - 1), Fixed(m / 10, w - 1), [x], [y]);
      assert [x][1..] == "" && [y][1..] == "";
      assert Less([x], [y]) <==> x < y;
      SameEnds(Fixed(n / 10, w - 1), Fixed(m / 10, w - 1), x, y);
    }
  }

  lemma SameEnds(a: string, b: string, x: char, y: char)
    ensures a + [x] == b + [y] <==> a == b && x == y
  {
    if a + [x] == b + [y] {
      assert |a| == |b|;
      assert a == (a + [x])[..|a|] && b == (b + [y])[..|a|];
      assert x == (a + [x])[|a|] && y == (b + [y])[|a|];
    }
  }

  lemma PadOrder(n: nat, m: nat, w: nat)
    requires n < Pow10(w) && m < Pow10(w) && w > 0
    ensures Less(Pad(n, w), Pad(m, w)) <==> n < m
    ensures Pad(n, w) == Pad(m, w) <==> n == m
  {
    PadIsFixed(n, w);
    PadIsFixed(m, w);
    FixedOrder(n, m, w);
  }

  // ---- the last part of a key ----

  /** What follows the last bar of a key. */
  function LastPart(s: string): string {
    if s == "" || s[|s| - 1] == '|' then "" else LastPart(s[..|s| - 1]) + [s[|s| - 1]]
  }

  lemma {:induction false} LastPartOf(pre: string, t: string)
    requires '|' !in t
    ensures LastPart(pre + "|" + t) == t
  {
    var s := pre + "|" + t;
    if t != "" {
      LastPartOf(pre, t[..|t| - 1]);
      assert s[..|s| - 1] == pre + "|" + t[..|t| - 1];
    }
  }

  // ---- prices ----

  const DIGITS := 10
  const INT_WIDTH := 10

  /** n / d to the nearest integer, ties to even. */
  function RoundHalfEven(n: nat, d: nat): nat
    requires d > 0
  {
    var q, r := n / d, n % d;
    if 2 * r > d || (2 * r == d && q % 2 == 1) then q + 1 else q
  }

  /** The price receive / offer in units of 10^-10, rounded. */
  function RoundedPrice(receive: nat, offer: nat): nat
    requires offer > 0
  {
    RoundHalfEven(receive * Pow10(DIGITS), offer)
  }

  /** A price with ten digits after the point and at least ten before it. */
  function PriceText(q: nat): string {
    Pad(q / Pow10(DIGITS), INT_WIDTH) + "." + Fixed(q % Pow10(DIGITS), DIGITS)
  }

  function PriceKey(receive: nat, offer: nat): string
    requires offer > 0
  {
    PriceText(RoundedPrice(receive, offer))
  }

  lemma Quotient(n: nat, d: nat, q: nat)
    requires d > 0 && q * d <= n < q * d + d
    ensures n / d == q
  {
    var p := n / d;
    assert p * d <= n < p * d + d;
    assert (q + 1) * d == q * d + d && (p + 1) * d == p * d + d;
    Cancel(q + 1, p, d);
    Cancel(p + 1, q, d);
  }

  lemma Cancel(a: int, b: int, c: nat)
    requires c > 0
    ensures a * c <= b * c <==> a <= b
    ensures a * c == b * c <==> a == b
  {
  }

  /** Rounding depends on the ratio alone. */
  lemma RoundSameRatio(n1: nat, d1: nat, n2: nat, d2: nat)
    requires d1 > 0 && d2 > 0 && n1 * d2 == n2 * d1
    ensures RoundHalfEven(n1, d1) == RoundHalfEven(n2, d2)
  {
    var q, r1 := n1 / d1, n1 % d1;
    assert n1 == q * d1 + r1;
    var r2 := n2 - q * d2;
    assert r2 * d1 == r1 * d2 by {
      assert r2 * d1 == n2 * d1 - q * d2 * d1;
      assert r1 * d2 == n1 * d2 - q * d1 * d2;
      assert q * d1 * d2 == q * d2 * d1;
    }
    Cancel(0, r2, d1);
    assert r1 * d2 < d1 * d2 by { Cancel(d1, r1, d2); }
    assert r2 * d1 < d2 * d1;
    Cancel(d2, r2, d1);
    Quotient(n2, d2, q);
    assert n2 % d2 == r2;
    assert 2 * r1 * d2 == 2 * r2 * d1;
    Cancel(2 * r1, d1, d2);
    Cancel(2 * r2, d2, d1);
  }

  /** A larger ratio never rounds to a smaller number. */
  lemma RoundMonotone(n1: nat, d1: nat, n2: nat, d2: nat)
    requires d1 > 0 && d2 > 0 && n1 * d2 <= n2 * d1
    ensures RoundHalfEven(n1, d1) <= RoundHalfEven(n2, d2)
  {
    DivisionParts(n1, d1);
    DivisionParts(n2, d2);
    RoundMonotoneParts(n1 / d1, n1 % d1, d1, n2 / d2, n2 % d2, d2);
  }

  lemma DivisionParts(n: nat, d: nat)
    requires d > 0
    ensures n == n / d * d + n % d && n % d < d
  {
  }

  lemma RoundMonotoneParts(q1: nat, r1: nat, d1: nat, q2: nat, r2: nat, d2: nat)
    requires r1 < d1 && r2 < d2 && (q1 * d1 + r1) * d2 <= (q2 * d2 + r2) * d1
    ensures q1 <= q2
    ensures q1 == q2 && 2 * r1 > d1 ==> 2 * r2 > d2
    ensures q1 == q2 && 2 * r1 == d1 ==> 2 * r2 >= d2
  {
    Expand(q1, d1, r1, d2);
    Expand(q2, d2, r2, d1);
    Below(r1, d1, d2);
    Below(r2, d2, d1);
    MixedRadix(q2, r2 * d1, q1, r1 * d2, d1 * d2);
    if q1 == q2 {
      HalfCompare(r1, d1, r2, d2);
    }
  }

  lemma Expand(q: nat, c: nat, r: nat, d: nat)
    ensures (q * c + r) * d == q * (c * d) + r * d
    ensures c * d == d * c
  {
  }

  lemma Below(r: nat, c: nat, d: nat)
    requires r < c && d > 0
    ensures r * d < c * d
  {
  }

  lemma HalfCompare(r1: nat, d1: nat, r2: nat, d2: nat)
    requires d1 > 0 && d2 > 0 && r1 * d2 <= r2 * d1
    ensures 2 * r1 > d1 ==> 2 * r2 > d2
    ensures 2 * r1 == d1 ==> 2 * r2 >= d2
  {
    assert 2 * r1 * d2 <= 2 * r2 * d1;
    if 2 * r1 > d1 {
      Below(d1, 2 * r1, d2);
      if 2 * r2 <= d2 { Cancel(2 * r2, d2, d1); }
    } else if 2 * r1 == d1 {
      Cancel(d2, 2 * r2, d1);
    }
  }

  lemma PriceSameRatio(r1: nat, o1: nat, r2: nat, o2: nat)
    requires o1 > 0 && o2 > 0 && r1 * o2 == r2 * o1
    ensures PriceKey(r1, o1) == PriceKey(r2, o2)
  {
    var p := Pow10(DIGITS);
    assert r1 * p * o2 == r1 * o2 * p;
    assert r2 * p * o1 == r2 * o1 * p;
    RoundSameRatio(r1 * p, o1, r2 * p, o2);
  }

  lemma PriceParts(p: nat) returns (whole: nat, part: nat)
    requires p < Pow10(INT_WIDTH) * Pow10(DIGITS)
    ensures whole < Pow10(INT_WIDTH) && part < Pow10(DIGITS) && p == whole * Pow10(DIGITS) + part
    ensures PriceText(p) == Fixed(whole, INT_WIDTH) + ("." + Fixed(part, DIGITS))
    ensures |PriceText(p)| == INT_WIDTH + 1 + DIGITS
  {
    hide Pow10, Pad, Fixed;
    whole, part := p / Pow10(DIGITS), p % Pow10(DIGITS);
    QuotientBelow(p, Pow10(DIGITS), Pow10(INT_WIDTH));
    PadIsFixed(whole, INT_WIDTH);
  }

  /** Prices whose rounded integer part has at most ten digits are listed in the order of their rounded values. */
  lemma PriceTextOrder(p: nat, q: nat)
    requires p < Pow10(INT_WIDTH) * Pow10(DIGITS) && q < Pow10(INT_WIDTH) * Pow10(DIGITS)
    ensures |PriceText(p)| == |PriceText(q)|
    ensures Less(PriceText(p), PriceText(q)) <==> p < q
    ensures PriceText(p) == PriceText(q) <==> p == q
  {
    hide PriceText, Pow10, Fixed, Less;
    var p1, p0 := PriceParts(p);
    var q1, q0 := PriceParts(q);
    PartsOrder(p1, p0, q1, q0);
    MixedRadix(p1, p0, q1, q0, Pow10(DIGITS));
  }

  lemma PartsOrder(p1: nat, p0: nat, q1: nat, q0: nat)
    requires p1 < Pow10(INT_WIDTH) && q1 < Pow10(INT_WIDTH) && p0 < Pow10(DIGITS) && q0 < Pow10(DIGITS)
    ensures var s, t := Fixed(p1, INT_WIDTH) + ("." + Fixed(p0, DIGITS)), Fixed(q1, INT_WIDTH) + ("." + Fixed(q0, DIGITS));
      && (Less(s, t) <==> p1 < q1 || (p1 == q1 && p0 < q0))
      && (s == t <==> p1 == q1 && p0 == q0)
  {
    hide Pow10, Fixed, Less;
    FixedOrder(p1, q1, INT_WIDTH);
    FixedOrder(p0, q0, DIGITS);
    var a, b, x, y := Fixed(p1, INT_WIDTH), Fixed(q1, INT_WIDTH), Fixed(p0, DIGITS), Fixed(q0, DIGITS);
    LessConcat(a, b, "." + x, "." + y);
    LessPrefix(".", x, y);
    SameParts(a, x, b, y);
  }

  lemma QuotientBelow(p: nat, u: nat, w: nat)
    requires u > 0 && p < w * u
    ensures p / u < w
  {
    Cancel(w, p / u, u);
  }

  lemma MixedRadix(p1: nat, p0: nat, q1: nat, q0: nat, u: nat)
    requires p0 < u && q0 < u
    ensures p1 * u + p0 < q1 * u + q0 <==> p1 < q1 || (p1 == q1 && p0 < q0)
    ensures p1 * u + p0 == q1 * u + q0 <==> p1 == q1 && p0 == q0
  {
    if p1 < q1 {
      assert (p1 + 1) * u <= q1 * u by { Cancel(p1 + 1, q1, u); }
    } else if q1 < p1 {
      assert (q1 + 1) * u <= p1 * u by { Cancel(q1 + 1, p1, u); }
    }
  }

  lemma SameParts(a: string, x: string, b: string, y: string)
    requires |a| == |b|
    ensures a + ("." + x) == b + ("." + y) <==> a == b && x == y
  {
    var s, t := a + ("." + x), b + ("." + y);
    if s == t {
      assert a == s[..|a|] && b == t[..|a|];
      assert x == s[|a| + 1..] && y == t[|a| + 1..];
    }
  }

  // ---- numbers of any length before a separator ----

  /** The number of characters a padded number takes. */
  function Width(n: nat, w: nat): nat {
    |Pad(n, w)|
  }

  /** n lists before m when the texts padded to w are followed by a character below the digits. */
  predicate ListsBefore(n: nat, m: nat, w: nat) {
    if Width(n, w) == Width(m, w) then n < m
    else if Width(n, w) < Width(m, w) then n <= m / Pow10(Width(m, w) - Width(n, w))
    else n / Pow10(Width(n, w) - Width(m, w)) < m
  }

  lemma {:induction false} DecimalIsFixed(n: nat)
    ensures n < Pow10(|Decimal(n)|) && Decimal(n) == Fixed(n, |Decimal(n)|)
  {
    if n < 10 {
      assert Pow10(1) == 10 * Pow10(0);
      assert Fixed(n, 1) == Fixed(n / 10, 0) + [Digit(n % 10)] == [Digit(n)];
    } else {
      DecimalIsFixed(n / 10);
    }
  }

  /** A padded number is the fixed-width text of its own width. */
  lemma PadIsOwnWidth(n: nat, w: nat)
    requires w > 0
    ensures n < Pow10(Width(n, w)) && Pad(n, w) == Fixed(n, Width(n, w))
  {
    DecimalIsFixed(n);
    if |Decimal(n)| < w {
      PowGrows(|Decimal(n)|, w);
      PadIsFixed(n, w);
    }
  }

  lemma {:induction false} PowGrows(v: nat, w: nat)
    requires v <= w
    ensures Pow10(v) <= Pow10(w)
  {
    if v < w { PowGrows(v, w - 1); }
  }

  /** n without its last k digits. */
  function Drop(n: nat, k: nat): nat {
    if k == 0 then n else Drop(n / 10, k - 1)
  }

  lemma DropDigit(m: nat, p: nat)
    requires p > 0
    ensures m / 10 / p == m / (10 * p)
  {
    var t, u := m / 10 / p, m / 10 % p;
    assert m / 10 == t * p + u;
    assert t * (10 * p) == 10 * (t * p);
    Quotient(m, 10 * p, t);
  }

  /** Dropping k digits is dividing by the k-th power of ten. */
  lemma {:induction false} DropDivides(n: nat, k: nat)
    ensures Drop(n, k) == n / Pow10(k)
  {
    if k > 0 {
      DropDivides(n / 10, k - 1);
      DropDigit(n, Pow10(k - 1));
    }
  }

  /** The first digits of a number are those of the number without its last ones. */
  lemma {:induction false} LeadingDigits(m: nat, w: nat, k: nat)
    requires m < Pow10(w + k)
    ensures Drop(m, k) < Pow10(w) && Fixed(m, w + k)[..w] == Fixed(Drop(m, k), w)
    decreases k
  {
    if k > 0 {
      LeadingDigits(m / 10, w, k - 1);
      assert Fixed(m, w + k) == Fixed(m / 10, w + k - 1) + [Digit(m % 10)];
      assert Fixed(m, w + k)[..w] == Fixed(m / 10, w + k - 1)[..w];
    } else {
      assert Fixed(m, w)[..w] == Fixed(m, w);
    }
  }

  lemma {:induction false} FixedDigits(n: nat, w: nat, i: nat)
    requires i < w
    ensures '0' <= Fixed(n, w)[i] <= '9'
  {
    if i < w - 1 { FixedDigits(n / 10, w - 1, i); }
  }

  /** A shorter text followed by a character below the digits, against a longer one. */
  lemma ShorterFirst(n: nat, v: nat, m: nat, k: nat, s: string)
    requires n < Pow10(v) && m < Pow10(v + k) && k > 0 && s != "" && s[0] < '0'
    ensures Less(Fixed(n, v) + s, Fixed(m, v + k) + s) <==> n <= Drop(m, k)
    ensures Less(Fixed(m, v + k) + s, Fixed(n, v) + s) <==> Drop(m, k) < n
  {
    LeadingDigits(m, v, k);
    FixedDigits(m, v + k, v);
    hide Drop, Pow10;
    FixedOrder(n, Drop(m, k), v);
    FixedOrder(Drop(m, k), n, v);
    var text := Fixed(m, v + k);
    BeforeDigits(Fixed(n, v), text[..v], text[v..], s);
    assert text + s == text[..v] + (text[v..] + s);
  }

  /** Texts of one length decide; between equal ones, the one that ends there comes first. */
  lemma BeforeDigits(a: string, front: string, rest: string, s: string)
    requires |a| == |front| && rest != "" && '0' <= rest[0] && s != "" && s[0] < '0'
    ensures Less(a + s, front + (rest + s)) <==> Less(a, front) || a == front
    ensures Less(front + (rest + s), a + s) <==> Less(front, a)
  {
    LessConcat(a, front, s, rest + s);
    LessConcat(front, a, rest + s, s);
    assert (rest + s)[0] == rest[0];
  }

  /** Exactly when one padded number lists before another, whatever their lengths. */
  lemma ListsBeforeExactly(n: nat, m: nat, w: nat, s: string)
    requires w > 0 && s != "" && s[0] < '0'
    ensures Less(Pad(n, w) + s, Pad(m, w) + s) <==> ListsBefore(n, m, w)
  {
    hide Pad, Fixed, Pow10, Less, Drop;
    PadIsOwnWidth(n, w);
    PadIsOwnWidth(m, w);
    var a, b := Width(n, w), Width(m, w);
    hide Width;
    if a == b {
      SameWidth(n, m, a, s);
    } else if a < b {
      ShorterFirst(n, a, m, b - a, s);
      DropDivides(m, b - a);
    } else {
      ShorterFirst(m, b, n, a - b, s);
      DropDivides(n, a - b);
    }
  }

  lemma SameWidth(n: nat, m: nat, w: nat, s: string)
    requires n < Pow10(w) && m < Pow10(w)
    ensures Less(Fixed(n, w) + s, Fixed(m, w) + s) <==> n < m
  {
    FixedOrder(n, m, w);
    hide Fixed, Pow10;
    LessConcat(Fixed(n, w), Fixed(m, w), s, s);
    LessIrreflexive(s);
  }

  /** Numbers of at most w digits take w characters, so they list in their own order. */
  lemma ShortNumbers(n: nat, m: nat, w: nat)
    requires n < Pow10(w) && m < Pow10(w) && w > 0
    ensures ListsBefore(n, m, w) <==> n < m
  {
    PadIsFixed(n, w);
    PadIsFixed(m, w);
  }
}
