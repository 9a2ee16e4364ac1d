/** The codec between solid and liquid denoms: UTF-8, then the URL-safe base 64 of section 5 of RFC 4648 without padding,
    behind a fixed prefix. */
module DenomCodec {
  import opened Options
  import opened Bank
  import opened Wire
  import Backing
  import LB = LiquidBook

  // ---- UTF-8 ----

  function EncodeChar(c: char): Bytes {
    var n := c as int;
    if n < 0x80 then [n as byte]
    else if n < 0x800 then [(0xC0 + n / 64) as byte, (0x80 + n % 64) as byte]
    else if n < 0x1_0000 then [(0xE0 + n / 4096) as byte, (0x80 + n / 64 % 64) as byte, (0x80 + n % 64) as byte]
    else [(0xF0 + n / 0x4_0000) as byte, (0x80 + n / 4096 % 64) as byte, (0x80 + n / 64 % 64) as byte, (0x80 + n % 64) as byte]
  }

  function EncodeUtf8(s: string): Bytes {
    if s == "" then [] else EncodeChar(s[0]) + EncodeUtf8(s[1..])
  }

  predicate Trailing(b: byte) {
    0x80 <= b < 0xC0
  }

  /** The code point of the first n bytes, if they are one well-formed sequence of that length. */
  function PointOf(b: Bytes): Option<int> {
    if |b| >= 1 && b[0] < 0x80 then Some(b[0] as int)
    else if |b| >= 2 && 0xC2 <= b[0] < 0xE0 && Trailing(b[1]) then
      Some((b[0] as int - 0xC0) * 64 + (b[1] as int - 0x80))
    else if |b| >= 3 && 0xE0 <= b[0] < 0xF0 && Trailing(b[1]) && Trailing(b[2]) then
      Some((b[0] as int - 0xE0) * 4096 + (b[1] as int - 0x80) * 64 + (b[2] as int - 0x80))
    else if |b| >= 4 && 0xF0 <= b[0] < 0xF5 && Trailing(b[1]) && Trailing(b[2]) && Trailing(b[3]) then
      Some((b[0] as int - 0xF0) * 0x4_0000 + (b[1] as int - 0x80) * 4096 + (b[2] as int - 0x80) * 64 + (b[3] as int - 0x80))
    else None
  }

  /** A scalar value: no surrogate, nothing beyond the last plane. */
  predicate Scalar(n: int) {
    0 <= n < 0xD800 || 0xE000 <= n < 0x11_0000
  }

  function DecodeUtf8(b: Bytes): Option<string>
    decreases |b|
  {
    if b == [] then Some("")
    else
      var p := PointOf(b);
      if p.None? || !Scalar(p.value) then None
      else
        var c := p.value as char;
        var n := |EncodeChar(c)|;
        // an overlong sequence is longer than its code point needs
        if n > |b| || b[..n] != EncodeChar(c) then None
        else
          match DecodeUtf8(b[n..])
          case None => None
          case Some(s) => Some([c] + s)
  }

  lemma Parts(n: nat)
    ensures n == n / 64 * 64 + n % 64
    ensures n == n / 4096 * 4096 + n / 64 % 64 * 64 + n % 64
    ensures n == n / 0x4_0000 * 0x4_0000 + n / 4096 % 64 * 4096 + n / 64 % 64 * 64 + n % 64
  {
    var m := n / 64;
    assert m / 64 == n / 4096;
    assert n / 4096 / 64 == n / 0x4_0000;
  }

  lemma PointRead(c: char, rest: Bytes)
    ensures PointOf(EncodeChar(c) + rest) == Some(c as int)
  {
    var n := c as int;
    Parts(n);
    var b := EncodeChar(c) + rest;
    if n < 0x80 {
      assert b[0] as int == n;
    } else if n < 0x800 {
      assert b[0] as int == 0xC0 + n / 64 && b[1] as int == 0x80 + n % 64;
    } else if n < 0x1_0000 {
      PointRead3(n, b);
    } else {
      PointRead4(n, b);
    }
  }

  lemma PointRead3(n: int, b: Bytes)
    requires 0x800 <= n < 0x1_0000 && |b| >= 3
    requires b[0] as int == 0xE0 + n / 4096 && b[1] as int == 0x80 + n / 64 % 64 && b[2] as int == 0x80 + n % 64
    ensures PointOf(b) == Some(n)
  {
    Parts(n);
  }

  lemma PointRead4(n: int, b: Bytes)
    requires 0x1_0000 <= n < 0x11_0000 && |b| >= 4
    requires b[0] as int == 0xF0 + n / 0x4_0000 && b[1] as int == 0x80 + n / 4096 % 64
    requires b[2] as int == 0x80 + n / 64 % 64 && b[3] as int == 0x80 + n % 64
    ensures PointOf(b) == Some(n)
  {
    Parts(n);
  }

  lemma {:induction false} Utf8RoundTrip(s: string)
    ensures DecodeUtf8(EncodeUtf8(s)) == Some(s)
  {
    if s != "" {
      var head, rest := EncodeChar(s[0]), EncodeUtf8(s[1..]);
      PointRead(s[0], rest);
      assert (head + rest)[..|head|] == head && (head + rest)[|head|..] == rest;
      Utf8RoundTrip(s[1..]);
      hide EncodeChar, PointOf;
      assert [s[0]] + s[1..] == s;
    }
  }

  // ---- base 64 ----

  function Symbol(v: int): char
    requires 0 <= v < 64
  {
    if v < 26 then ('A' as int + v) as char
    else if v < 52 then ('a' as int + (v - 26)) as char
    else if v < 62 then ('0' as int + (v - 52)) as char
    else if v == 62 then '-' else '_'
  }

  /** The value of a character, in either of the two alphabets: the decoder maps the URL-safe one to the standard one. */
  function ValueOf(c: char): Option<int> {
    if 'A' <= c <= 'Z' then Some(c as int - 'A' as int)
    else if 'a' <= c <= 'z' then Some(c as int - 'a' as int + 26)
    else if '0' <= c <= '9' then Some(c as int - '0' as int + 52)
    else if c == '-' || c == '+' then Some(62)
    else if c == '_' || c == '/' then Some(63)
    else None
  }

  /** The four characters of a full group. */
  function Group(b0: byte, b1: byte, b2: byte): (s: string)
    ensures |s| == 4
  {
    [Symbol(b0 as int / 4), Symbol(b0 as int % 4 * 16 + b1 as int / 16),
     Symbol(b1 as int % 16 * 4 + b2 as int / 64), Symbol(b2 as int % 64)]
  }

  function OneByte(b0: byte): string {
    [Symbol(b0 as int / 4)] + ([Symbol(b0 as int % 4 * 16)] + "==")
  }

  function TwoBytes(b0: byte, b1: byte): string {
    [Symbol(b0 as int / 4)] + ([Symbol(b0 as int % 4 * 16 + b1 as int / 16)] + ([Symbol(b1 as int % 16 * 4)] + "="))
  }

  /** The padded encoding: four characters for three bytes. */
  function Encode64(b: Bytes): string
    decreases |b|
  {
    if |b| == 0 then ""
    else if |b| == 1 then OneByte(b[0])
    else if |b| == 2 then TwoBytes(b[0], b[1])
    else Group(b[0], b[1], b[2]) + Encode64(b[3..])
  }

  /** rstrip("=") */
  function StripPad(s: string): string
    decreases |s|
  {
    if s != "" && s[|s| - 1] == '=' then StripPad(s[..|s| - 1]) else s
  }

  /** -n % 4, what n lacks to a multiple of four. */
  function PadCount(n: nat): (k: int)
    ensures 0 <= k < 4 && (n + k) % 4 == 0
  {
    (-(n as int)) % 4
  }

  function PadFor(n: nat): string {
    seq(PadCount(n), _ => '=')
  }

  /** The decoder's scan: the position in the group of four, the bits left over, the padding characters seen in a row and
      the bytes written. */
  datatype Scan = Scan(quad: nat, left: int, pads: nat, out: Bytes)

  predicate ScanOk(st: Scan) {
    st.quad < 4 && 0 <= st.left < (if st.quad == 1 then 64 else if st.quad == 2 then 16 else if st.quad == 3 then 4 else 1)
  }

  function Take(st: Scan, v: int): (r: Scan)
    requires ScanOk(st) && 0 <= v < 64
    ensures ScanOk(r)
  {
    if st.quad == 0 then Scan(1, v, 0, st.out)
    else if st.quad == 1 then Scan(2, v % 16, 0, st.out + [(st.left * 4 + v / 16) as byte])
    else if st.quad == 2 then Scan(3, v % 4, 0, st.out + [(st.left * 16 + v / 4) as byte])
    else Scan(0, 0, 0, st.out + [(st.left * 64 + v) as byte])
  }

  /** Reads the characters in turn. A character of neither alphabet is skipped; enough padding ends the data; a group left
      open is an error. */
  function Decode64From(st: Scan, s: string): Option<Bytes>
    requires ScanOk(st)
    decreases |s|
  {
    if s == "" then if st.quad == 0 then Some(st.out) else None
    else if s[0] == '=' then
      if st.quad >= 2 && st.quad + st.pads + 1 >= 4 then Some(st.out)
      else Decode64From(if st.quad >= 2 then st.(pads := st.pads + 1) else st, s[1..])
    else
      match ValueOf(s[0])
      case None => Decode64From(st, s[1..])
      case Some(v) => Decode64From(Take(st, v), s[1..])
  }

  predicate Ascii(s: string) {
    forall i :: 0 <= i < |s| ==> s[i] as int < 128
  }

  function Decode64(s: string): Option<Bytes> {
    if Ascii(s) then Decode64From(Scan(0, 0, 0, []), s) else None
  }

  lemma SymbolValue(v: int)
    requires 0 <= v < 64
    ensures ValueOf(Symbol(v)) == Some(v) && Symbol(v) != '=' && Symbol(v) as int < 128
  {
  }

  lemma GroupPlain(b0: byte, b1: byte, b2: byte)
    ensures Ascii(Group(b0, b1, b2)) && forall i :: 0 <= i < 4 ==> Group(b0, b1, b2)[i] != '='
  {
    SymbolValue(b0 as int / 4);
    SymbolValue(b0 as int % 4 * 16 + b1 as int / 16);
    SymbolValue(b1 as int % 16 * 4 + b2 as int / 64);
    SymbolValue(b2 as int % 64);
    hide Symbol, ValueOf;
  }

  lemma PadText()
    ensures forall n: nat :: n % 4 == 2 ==> PadFor(n) == "=="
    ensures forall n: nat :: n % 4 == 3 ==> PadFor(n) == "="
  {
  }

  /** A text of this shape is made of groups of four, and its padding is what the text without it lacks. */
  predicate Shaped(e: string) {
    |e| % 4 == 0 && Ascii(e) && StripPad(e) + PadFor(|StripPad(e)|) == e
  }

  lemma OneByteShape(b0: byte)
    ensures Shaped(OneByte(b0))
  {
    GroupPlain(b0, 0, 0);
    PadText();
    assert "=="[..1] == "=" && "="[..0] == "";
    hide Symbol, PadFor;
    var x := [Symbol(b0 as int / 4)] + [Symbol(b0 as int % 4 * 16)];
    assert x[1] == Group(b0, 0, 0)[1] && x[0] == Group(b0, 0, 0)[0];
    StripAppend(x, "==");
    assert OneByte(b0) == x + "==";
  }

  lemma TwoBytesShape(b0: byte, b1: byte)
    ensures Shaped(TwoBytes(b0, b1))
  {
    GroupPlain(b0, b1, 0);
    PadText();
    assert "="[..0] == "";
    hide Symbol, PadFor;
    var x := Group(b0, b1, 0)[..3];
    StripAppend(x, "=");
    assert TwoBytes(b0, b1) == x + "=";
  }

  lemma GroupThenShaped(g: string, rest: string)
    requires |g| == 4 && Ascii(g) && g[3] != '=' && Shaped(rest)
    ensures Shaped(g + rest)
  {
    StripAppend(g, rest);
    AsciiAppend(g, rest);
    SamePad(|StripPad(rest)|);
    hide StripPad, Ascii, PadFor;
    Associate(g, StripPad(rest), PadFor(|StripPad(rest)|));
  }

  lemma AsciiAppend(a: string, b: string)
    ensures Ascii(a + b) <==> Ascii(a) && Ascii(b)
  {
    if Ascii(a + b) {
      assert forall i :: 0 <= i < |a| ==> (a + b)[i] == a[i];
      assert forall i :: 0 <= i < |b| ==> (a + b)[|a| + i] == b[i];
    }
  }

  /** Four characters more lack as much. */
  lemma SamePad(n: nat)
    ensures PadFor(4 + n) == PadFor(n)
  {
    assert PadCount(4 + n) == PadCount(n);
  }

  lemma Associate<T>(a: seq<T>, b: seq<T>, c: seq<T>)
    ensures a + b + c == a + (b + c)
  {
  }

  lemma {:induction false} EncodedShape(b: Bytes)
    ensures Shaped(Encode64(b))
    decreases |b|
  {
    if |b| == 1 {
      OneByteShape(b[0]);
    } else if |b| == 2 {
      TwoBytesShape(b[0], b[1]);
    } else if |b| > 2 {
      GroupPlain(b[0], b[1], b[2]);
      EncodedShape(b[3..]);
      GroupThenShaped(Group(b[0], b[1], b[2]), Encode64(b[3..]));
      hide Group, Shaped;
    }
  }

  lemma {:induction false} StripAppend(x: string, y: string)
    requires x != "" && x[|x| - 1] != '='
    ensures StripPad(x + y) == x + StripPad(y)
    decreases |y|
  {
    if y != "" && y[|y| - 1] == '=' {
      assert (x + y)[..|x + y| - 1] == x + y[..|y| - 1];
      StripAppend(x, y[..|y| - 1]);
    } else if y == "" {
      assert x + y == x;
    }
  }

  lemma TakeFour(st: Scan, b0: byte, b1: byte, b2: byte)
    requires st.quad == 0 && st.left == 0 && st.pads == 0
    ensures ScanOk(st)
    ensures
      var s1 := Take(st, b0 as int / 4);
      var s2 := Take(s1, b0 as int % 4 * 16 + b1 as int / 16);
      var s3 := Take(s2, b1 as int % 16 * 4 + b2 as int / 64);
      && s1 == Scan(1, b0 as int / 4, 0, st.out)
      && s2 == Scan(2, b1 as int / 16, 0, st.out + [b0])
      && s3.quad == 3 && s3.out == st.out + [b0, b1]
      && Take(s3, b2 as int % 64) == Scan(0, 0, 0, st.out + [b0, b1, b2])
  {
    assert st.out + [b0] + [b1] == st.out + [b0, b1];
    assert st.out + [b0, b1] + [b2] == st.out + [b0, b1, b2];
  }

  lemma ReadSymbol(st: Scan, v: int, rest: string)
    requires ScanOk(st) && 0 <= v < 64
    ensures Decode64From(st, [Symbol(v)] + rest) == Decode64From(Take(st, v), rest)
  {
    SymbolValue(v);
    assert ([Symbol(v)] + rest)[1..] == rest;
  }

  lemma ReadPadding(st: Scan)
    requires ScanOk(st) && st.pads == 0
    ensures st.quad == 3 ==> Decode64From(st, "=") == Some(st.out)
    ensures st.quad == 2 ==> Decode64From(st, "==") == Some(st.out)
  {
    assert "=="[1..] == "=";
  }

  /** Scanning an encoding from a group boundary appends exactly the encoded bytes. */
  lemma {:induction false} ScanEncoded(out: Bytes, b: Bytes)
    ensures Decode64From(Scan(0, 0, 0, out), Encode64(b)) == Some(out + b)
    decreases |b|
  {
    hide Decode64From, Group, OneByte, TwoBytes;
    var st := Scan(0, 0, 0, out);
    if |b| == 0 {
      ScanEnd(st);
      assert out + b == out;
    } else if |b| == 1 {
      ScanOneByte(st, b[0]);
      assert [b[0]] == b;
    } else if |b| == 2 {
      ScanTwoBytes(st, b[0], b[1]);
      assert [b[0], b[1]] == b;
    } else {
      ScanGroup(st, b[0], b[1], b[2], Encode64(b[3..]));
      ScanEncoded(out + [b[0], b[1], b[2]], b[3..]);
      Associate(out, [b[0], b[1], b[2]], b[3..]);
      assert [b[0], b[1], b[2]] + b[3..] == b;
    }
  }

  lemma ScanEnd(st: Scan)
    requires st == Scan(0, 0, 0, st.out)
    ensures Decode64From(st, "") == Some(st.out)
  {
  }

  lemma ReadThree(st: Scan, v0: int, v1: int, v2: int, rest: string)
    requires ScanOk(st) && 0 <= v0 < 64 && 0 <= v1 < 64 && 0 <= v2 < 64
    ensures Decode64From(st, [Symbol(v0)] + ([Symbol(v1)] + ([Symbol(v2)] + rest)))
         == Decode64From(Take(Take(Take(st, v0), v1), v2), rest)
  {
    hide *;
    ReadSymbol(Take(Take(st, v0), v1), v2, rest);
    ReadSymbol(Take(st, v0), v1, [Symbol(v2)] + rest);
    ReadSymbol(st, v0, [Symbol(v1)] + ([Symbol(v2)] + rest));
  }

  lemma ScanGroup(st: Scan, b0: byte, b1: byte, b2: byte, rest: string)
    requires st == Scan(0, 0, 0, st.out)
    ensures Decode64From(st, Group(b0, b1, b2) + rest) == Decode64From(Scan(0, 0, 0, st.out + [b0, b1, b2]), rest)
  {
    TakeFour(st, b0, b1, b2);
    hide Take, Symbol, Decode64From;
    var v0, v1 := b0 as int / 4, b0 as int % 4 * 16 + b1 as int / 16;
    var v2, v3 := b1 as int % 16 * 4 + b2 as int / 64, b2 as int % 64;
    ReadSymbol(Take(Take(Take(st, v0), v1), v2), v3, rest);
    ReadThree(st, v0, v1, v2, [Symbol(v3)] + rest);
    FourThenRest(Symbol(v0), Symbol(v1), Symbol(v2), Symbol(v3), rest);
  }

  lemma FourThenRest(a: char, b: char, c: char, d: char, rest: string)
    ensures [a, b, c, d] + rest == [a] + ([b] + ([c] + ([d] + rest)))
  {
  }

  /** The last group of an encoding: one or two bytes and their padding. */
  lemma ScanOneByte(st: Scan, b0: byte)
    requires st == Scan(0, 0, 0, st.out)
    ensures Decode64From(st, OneByte(b0)) == Some(st.out + [b0])
  {
    TakeFour(st, b0, 0, 0);
    hide Take, Symbol, Decode64From;
    var v0, v1 := b0 as int / 4, b0 as int % 4 * 16;
    var s1 := Take(st, v0);
    ReadPadding(Take(s1, v1));
    ReadSymbol(s1, v1, "==");
    ReadSymbol(st, v0, [Symbol(v1)] + "==");
  }

  lemma ScanTwoBytes(st: Scan, b0: byte, b1: byte)
    requires st == Scan(0, 0, 0, st.out)
    ensures Decode64From(st, TwoBytes(b0, b1)) == Some(st.out + [b0, b1])
  {
    TakeFour(st, b0, b1, 0);
    hide Take, Symbol, Decode64From;
    var v0, v1, v2 := b0 as int / 4, b0 as int % 4 * 16 + b1 as int / 16, b1 as int % 16 * 4;
    ReadPadding(Take(Take(Take(st, v0), v1), v2));
    ReadThree(st, v0, v1, v2, "=");
  }

  /** Decoding an encoding gives the bytes back. */
  lemma Base64RoundTrip(b: Bytes)
    ensures Decode64(Encode64(b)) == Some(b)
  {
    EncodedShape(b);
    ScanEncoded([], b);
    assert [] + b == b;
  }

  // ---- denoms ----

  const PREFIX := "whaleswap.dys/coins/"

  function EncodeNoPad(s: string): string {
    StripPad(Encode64(EncodeUtf8(s)))
  }

  function DecodeNoPad(v: string): Option<string> {
    match Decode64(v + PadFor(|v|))
    case None => None
    case Some(b) => DecodeUtf8(b)
  }

  function Quote(d: Denom): Denom {
    PREFIX + EncodeNoPad(d)
  }

  predicate IsLiquid(d: Denom) {
    PREFIX <= d
  }

  function DecodeLiquid(l: Denom): Option<Denom> {
    if IsLiquid(l) then DecodeNoPad(l[|PREFIX|..]) else None
  }

  /** Padding an unpadded encoding restores exactly what was stripped, a multiple of four characters. */
  lemma PaddingRestored(s: string)
    ensures EncodeNoPad(s) + PadFor(|EncodeNoPad(s)|) == Encode64(EncodeUtf8(s))
    ensures |EncodeNoPad(s) + PadFor(|EncodeNoPad(s)|)| % 4 == 0
  {
    EncodedShape(EncodeUtf8(s));
  }

  /** Whatever its length, the padded text is a multiple of four characters long, and at most three were added. */
  lemma PaddingFills(v: string)
    ensures |v + PadFor(|v|)| % 4 == 0 && |PadFor(|v|)| < 4
  {
  }

  /** Every denom comes back from its liquid denom. */
  lemma CodecRoundTrip(d: Denom)
    ensures IsLiquid(Quote(d)) && DecodeLiquid(Quote(d)) == Some(d)
  {
    PaddingRestored(d);
    Base64RoundTrip(EncodeUtf8(d));
    Utf8RoundTrip(d);
    assert Quote(d)[|PREFIX|..] == EncodeNoPad(d);
    hide Encode64, Decode64, EncodeUtf8, DecodeUtf8, StripPad, PadFor;
  }

  /** Distinct solid denoms have distinct liquid denoms. */
  lemma QuoteDistinct(d: Denom, e: Denom)
    requires Quote(d) == Quote(e)
    ensures d == e
  {
    CodecRoundTrip(d);
    CodecRoundTrip(e);
  }

  /** The decoder skips characters of neither alphabet: wherever one is put in, the text decodes to the same bytes. */
  lemma {:induction false} SkipsOthers(st: Scan, x: string, c: char, y: string)
    requires ScanOk(st) && ValueOf(c).None? && c != '='
    ensures Decode64From(st, x + [c] + y) == Decode64From(st, x + y)
    decreases |x|
  {
    if x == "" {
      assert ([c] + y)[1..] == y;
      assert x + [c] + y == [c] + y && x + y == y;
    } else {
      assert (x + [c] + y)[1..] == x[1..] + [c] + y && (x + y)[1..] == x[1..] + y;
      if x[0] == '=' {
        SkipsOthers(if st.quad >= 2 then st.(pads := st.pads + 1) else st, x[1..], c, y);
      } else if ValueOf(x[0]).None? {
        SkipsOthers(st, x[1..], c, y);
      } else {
        SkipsOthers(Take(st, ValueOf(x[0]).value), x[1..], c, y);
      }
    }
  }

  lemma SkipsFour(st: Scan, x: string, y: string)
    requires ScanOk(st)
    ensures Decode64From(st, x + ("!!!!" + y)) == Decode64From(st, x + y)
  {
    hide *;
    SkipsOneMore(st, x, "!!!", y);
    SkipsOneMore(st, x, "!!", y);
    SkipsOneMore(st, x, "!", y);
    SkipsOneMore(st, x, "", y);
    assert ['!'] + "!!!" == "!!!!" && ['!'] + "!!" == "!!!" && ['!'] + "!" == "!!" && ['!'] + "" == "!" && "" + y == y;
  }

  lemma SkipsOneMore(st: Scan, x: string, u: string, y: string)
    requires ScanOk(st)
    ensures Decode64From(st, x + (['!'] + u + y)) == Decode64From(st, x + (u + y))
  {
    SkipsOthers(st, x, '!', u + y);
    hide *;
    Associate(x, ['!'], u + y);
    Associate(['!'], u, y);
  }

  lemma JunkIgnored(s: string)
    ensures DecodeNoPad(EncodeNoPad(s) + "!!!!") == DecodeNoPad(EncodeNoPad(s))
  {
    var v := EncodeNoPad(s);
    EncodedShape(EncodeUtf8(s));
    hide Encode64, EncodeUtf8, DecodeUtf8, StripPad, Decode64From, PadFor, PadCount;
    var pad := PadFor(|v|);
    SamePad(|v|);
    assert |v + "!!!!"| == 4 + |v|;
    AsciiAppend(v, pad);
    AsciiAppend("!!!!", pad);
    AsciiAppend(v, "!!!!" + pad);
    hide EncodeNoPad, Shaped;
    Associate(v, "!!!!", pad);
    SkipsFour(Scan(0, 0, 0, []), v, pad);
  }

  /** So every solid denom has liquid spellings other than the one it quotes. */
  lemma OtherSpellings(d: Denom)
    ensures DecodeLiquid(Quote(d) + "!!!!") == Some(d) && Quote(d) + "!!!!" != Quote(d)
  {
    hide EncodeNoPad, DecodeNoPad;
    JunkIgnored(d);
    CodecRoundTrip(d);
    assert Quote(d)[|PREFIX|..] == EncodeNoPad(d);
    assert (Quote(d) + "!!!!")[|PREFIX|..] == EncodeNoPad(d) + "!!!!";
  }

  // ---- the order book with this codec ----

  function CodecEnv(feeNum: nat, feeDen: nat): LB.Env {
    LB.Env(Quote, DecodeLiquid, IsLiquid, feeNum, feeDen)
  }

  /** The codec is what the order book needs. */
  lemma CodecFits(feeNum: nat, feeDen: nat)
    requires feeDen > 0
    ensures LB.ValidEnv(CodecEnv(feeNum, feeDen))
  {
    forall d ensures IsLiquid(Quote(d)) && DecodeLiquid(Quote(d)) == Some(d) {
      CodecRoundTrip(d);
    }
    assert !IsLiquid(LB.UDYS) && !IsLiquid(LB.PFAND) by {
      assert PREFIX[14] == 'c' && LB.PFAND[14] == 'p';
    }
  }

  /** From a chain without offers and liquid coins, over every run of the script with its own codec, the script's balance
      covers in every denom the liquid supply, the open escrow and the locked deposits. */
  lemma ScriptSolvent(feeNum: nat, feeDen: nat, s: LB.State, txs: seq<LB.Tx>, d: Denom)
    requires feeDen > 0 && s.offers == map[]
    requires forall l :: IsLiquid(l) ==> Supply(s.bank, l) == 0
    requires forall i :: 0 <= i < |txs| ==> Backing.WellFormed(CodecEnv(feeNum, feeDen), txs[i])
    ensures
      var end := LB.Run(CodecEnv(feeNum, feeDen), s, txs);
      Balance(end.bank, LB.SCRIPT, d)
        >= Supply(end.bank, Quote(d)) + Backing.Escrow(end.offers, d)
           + if d == LB.PFAND then Backing.Locked(end.offers) else 0
  {
    CodecFits(feeNum, feeDen);
    hide Supply, Balance, Quote, IsLiquid, DecodeLiquid, LB.Run;
    var env := CodecEnv(feeNum, feeDen);
    forall l | env.isLiquid(l) ensures Supply(s.bank, l) == 0 {
      assert IsLiquid(l);
    }
    Backing.StartsSolvent(env, s);
    Backing.SolventForever(env, s, txs);
    assert env.quote(d) == Quote(d);
  }
}
