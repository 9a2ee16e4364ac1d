/** Printing and parsing are inverse; parsing is local to the record it reads; every accepted input has the printed
    form of its message as a canonical form that parses to the same message. */
module WireProofs {
  import opened Options
  import opened Wire

  // ---- varints ----

  lemma WeightsUpToTen()
    ensures Weight(9) == TWO_63
    ensures Weight(10) == 128 * TWO_63
  {
    assert Weight(2) == 16384;
    assert Weight(4) == 268435456;
    assert Weight(6) == 4398046511104;
    assert Weight(8) == 72057594037927936;
  }

  /** A printed varint reads back as its value, whatever follows it. */
  lemma {:induction false} VarintRoundTrip(v: nat, k: nat, post: Bytes)
    requires k <= 9
    requires v * Weight(k) < TWO_64
    ensures ReadGroups(PrintVarint(v) + post, k) == Ok(Varint(v * Weight(k), Sov(v)))
  {
    if v < 128 {
      ReadLastGroup(v, k, post);
    } else {
      GroupsFit(v, k);
      SplitProduct(v, Weight(k));
      assert Weight(k + 1) == 128 * Weight(k);
      FirstByte(v, post);
      hide *;
      VarintRoundTrip(v / 128, k + 1, post);
      ReadMoreGroups(PrintVarint(v) + post, k);
    }
  }

  lemma ReadLastGroup(v: nat, k: nat, post: Bytes)
    requires v < 128 && k <= 9 && v * Weight(k) < TWO_64
    ensures ReadGroups(PrintVarint(v) + post, k) == Ok(Varint(v * Weight(k), Sov(v)))
  {
    SmallMod(v * Weight(k), TWO_64);
    assert GroupValue(v, k) == v * Weight(k);
    assert PrintVarint(v) == [v as byte] && Sov(v) == 1;
    hide *;
    ReadOneByte(v as byte, k, post);
  }

  lemma ReadOneByte(b: byte, k: nat, post: Bytes)
    requires b < 128 && k <= 9
    ensures ReadGroups([b] + post, k) == Ok(Varint(GroupValue(b as int, k), 1))
  {
    assert b as int % 128 == b as int;
    hide GroupValue;
  }

  /** A varint of more than one byte starts with its low group, its top bit set. */
  lemma FirstByte(v: nat, post: Bytes)
    requires v >= 128
    ensures
      var s := PrintVarint(v) + post;
      && |s| > 0 && s[0] == (v % 128 + 128) as byte && s[0] as int % 128 == v % 128
      && s[1..] == PrintVarint(v / 128) + post && Sov(v) == 1 + Sov(v / 128)
  {
    var b := (v % 128 + 128) as byte;
    assert PrintVarint(v) == [b] + PrintVarint(v / 128);
    assert b as int % 128 == v % 128;
    assert Sov(v) == 1 + Sov(v / 128);
    hide PrintVarint, Sov;
    HeadAndTail(b, PrintVarint(v / 128), post);
  }

  lemma HeadAndTail(b: byte, x: Bytes, y: Bytes)
    ensures var s := [b] + x + y; |s| > 0 && s[0] == b && s[1..] == x + y
  {
  }

  /** A byte with its top bit set puts its group in front of the value that follows. */
  lemma ReadMoreGroups(s: Bytes, k: nat)
    requires k <= 9 && s != [] && s[0] >= 128 && ReadGroups(s[1..], k + 1).Ok?
    requires s[0] as int % 128 * Weight(k) < TWO_64
    ensures var rest := ReadGroups(s[1..], k + 1).value;
      ReadGroups(s, k) == Ok(Varint(s[0] as int % 128 * Weight(k) + rest.value, 1 + rest.size))
  {
    SmallMod(s[0] as int % 128 * Weight(k), TWO_64);
  }

  /** A value with a further group fits in ten groups only if this one is not the tenth. */
  lemma GroupsFit(v: nat, k: nat)
    requires v >= 128 && k <= 9 && v * Weight(k) < TWO_64
    ensures k < 9
  {
    if k == 9 {
      WeightsUpToTen();
      assert false;
    }
  }

  lemma SplitProduct(v: nat, w: nat)
    ensures v / 128 * (128 * w) + v % 128 * w == v * w
    ensures v / 128 * (128 * w) >= 0 && v % 128 * w >= 0
  {
    assert v == v / 128 * 128 + v % 128;
    assert v / 128 * (128 * w) == v / 128 * 128 * w;
  }

  lemma Monotone(a: nat, b: nat, w: nat)
    requires a <= b
    ensures a * w <= b * w
  {
  }

  lemma SmallMod(x: nat, m: nat)
    requires x < m
    ensures x % m == x
  {
  }

  /** Reading a varint depends only on the bytes it consumes. */
  lemma {:induction false} ReadGroupsLocal(s: Bytes, k: nat, t: Bytes)
    requires ReadGroups(s, k).Ok?
    ensures 1 <= ReadGroups(s, k).value.size <= |s|
    ensures ReadGroups(s[..ReadGroups(s, k).value.size] + t, k) == ReadGroups(s, k)
  {
    ReadSize(s, k);
    var n := ReadGroups(s, k).value.size;
    var s' := s[..n] + t;
    if s[0] >= 128 {
      ReadGroupsLocal(s[1..], k + 1, t);
      assert s'[1..] == s[1..][..n - 1] + t;
    }
  }

  /** A varint read from n groups is below 128 to the n, so its shortest form is no longer than the one read. */
  lemma {:induction false} ReadGroupsBound(s: Bytes, k: nat)
    requires ReadGroups(s, k).Ok?
    ensures ReadGroups(s, k).value.value + Weight(k) <= Weight(k + ReadGroups(s, k).value.size)
  {
    var w := Weight(k);
    var group := s[0] as int % 128;
    assert group * w <= 127 * w by { Monotone(group, 127, w); }
    assert group * w % TWO_64 <= group * w;
    assert Weight(k + 1) == 128 * w;
    if s[0] >= 128 {
      ReadGroupsBound(s[1..], k + 1);
    }
  }

  lemma {:induction false} SovBelowWeight(v: nat, n: nat)
    requires n >= 1 && v < Weight(n)
    ensures Sov(v) <= n
  {
    if v >= 128 {
      assert Weight(1) == 128 * Weight(0) == 128;
      assert n >= 2;
      assert Weight(n) == 128 * Weight(n - 1);
      assert v / 128 < Weight(n - 1);
      SovBelowWeight(v / 128, n - 1);
    }
  }

  lemma ShortestVarint(s: Bytes)
    requires ReadVarint(s).Ok?
    ensures Sov(ReadVarint(s).value.value) <= ReadVarint(s).value.size
  {
    ReadSize(s, 0);
    ReadGroupsBound(s, 0);
    SovBelowWeight(ReadVarint(s).value.value, ReadVarint(s).value.size);
  }

  /** The number of binary digits of v. */
  function BitLength(v: nat): nat {
    if v == 0 then 0 else 1 + BitLength(v / 2)
  }

  lemma BitLengthSmall(v: nat)
    requires 0 < v < 128
    ensures 1 <= BitLength(v) <= 7
  {
    assert v / 2 < 64 && v / 2 / 2 < 32 && v / 2 / 2 / 2 < 16;
    var u := v / 2 / 2 / 2;
    assert u / 2 < 8 && u / 2 / 2 < 4 && u / 2 / 2 / 2 < 2;
    assert BitLength(u / 2 / 2 / 2) <= 1;
    assert BitLength(u / 2 / 2) <= 2;
    assert BitLength(u) <= 4;
    assert BitLength(v / 2 / 2) <= 5;
  }

  lemma BitLengthSeven(v: nat)
    requires v >= 128
    ensures BitLength(v) == 7 + BitLength(v / 128)
  {
    assert v / 2 / 2 == v / 4 && v / 4 / 2 == v / 8 && v / 8 / 2 == v / 16;
    assert v / 16 / 2 == v / 32 && v / 32 / 2 == v / 64 && v / 64 / 2 == v / 128;
    assert BitLength(v) == 2 + BitLength(v / 4);
    assert BitLength(v / 4) == 2 + BitLength(v / 16);
    assert BitLength(v / 16) == 2 + BitLength(v / 64);
  }

  /** The size formula of the generated code, (bits + 6) / 7 with at least one bit, counts the bytes printed. */
  lemma {:induction false} SovByBitLength(v: nat)
    ensures Sov(v) == (BitLength(if v == 0 then 1 else v) + 6) / 7
  {
    if v >= 128 {
      BitLengthSeven(v);
      SovByBitLength(v / 128);
    } else if v == 0 {
      assert BitLength(1) == 1;
    } else {
      BitLengthSmall(v);
    }
  }

  // ---- the skipper ----

  /** Skipping one field stays within i and the position it returns: bytes after that do not matter. */
  lemma SkipOneLocal(s: Bytes, i: nat, depth: nat, t: Bytes)
    requires i < |s| && SkipOne(s, i, depth).Ok? && SkipOne(s, i, depth).value.next <= |s|
    ensures SkipOne(s[..SkipOne(s, i, depth).value.next] + t, i, depth) == SkipOne(s, i, depth)
  {
    hide ReadVarint;
    var n := SkipOne(s, i, depth).value.next;
    var tag := ReadVarint(s[i..]).value;
    VarintSize(s[i..]);
    var j := i + tag.size;
    var wireType := tag.value % 8;
    assert j <= n;
    LocalAt(s, i, n, t);
    if wireType == 0 || wireType == 2 {
      VarintSize(s[j..]);
      LocalAt(s, j, n, t);
    }
  }

  lemma VarintSize(s: Bytes)
    ensures ReadVarint(s).Ok? ==> 1 <= ReadVarint(s).value.size <= |s|
  {
    ReadSize(s, 0);
  }

  lemma LocalAt(s: Bytes, i: nat, n: nat, t: Bytes)
    requires i <= n <= |s|
    requires ReadVarint(s[i..]).Ok? && i + ReadVarint(s[i..]).value.size <= n
    ensures ReadVarint((s[..n] + t)[i..]) == ReadVarint(s[i..])
  {
    var size := ReadVarint(s[i..]).value.size;
    ReadSize(s[i..], 0);
    ReadGroupsLocal(s[i..], 0, s[i + size..n] + t);
    assert (s[..n] + t)[i..] == s[i..][..size] + (s[i + size..n] + t);
  }

  lemma {:induction false} SkipFromLocal(s: Bytes, i: nat, depth: nat, t: Bytes)
    requires SkipFrom(s, i, depth).Ok? && SkipFrom(s, i, depth).value <= |s|
    ensures SkipFrom(s[..SkipFrom(s, i, depth).value] + t, i, depth) == SkipFrom(s, i, depth)
    decreases |s| - i
  {
    hide SkipOne;
    var n := SkipFrom(s, i, depth).value;
    var step := SkipOne(s, i, depth).value;
    assert step.next <= n;
    SkipOneLocal(s, i, depth, s[step.next..n] + t);
    assert s[..n] + t == s[..step.next] + (s[step.next..n] + t);
    if step.depth != 0 {
      SkipFromLocal(s, step.next, step.depth, t);
    }
  }

  /** One unknown record in front of a run of unknown records is a run of unknown records. */
  lemma UnknownCons(buf: Bytes, u: Bytes)
    requires ReadVarint(buf).Ok?
    requires ReadVarint(buf).value.value % 8 != 4 && Int32(ReadVarint(buf).value.value / 8) > 4
    requires Skip(buf).Ok? && Skip(buf).value <= |buf|
    requires UnknownOnly(u)
    ensures UnknownOnly(buf[..Skip(buf).value] + u)
  {
    var n := Skip(buf).value;
    var s := buf[..n] + u;
    assert Skip(s) == Ok(n) by { SkipFromLocal(buf, 0, 0, u); }
    hide Skip;
    var size := ReadVarint(buf).value.size;
    ReadSize(buf, 0);
    TagWithinSkip(buf);
    ReadGroupsLocal(buf, 0, buf[size..n] + u);
    assert s == buf[..size] + (buf[size..n] + u);
    assert s[n..] == u;
  }

  lemma TagWithinSkip(buf: Bytes)
    requires ReadVarint(buf).Ok? && Skip(buf).Ok?
    ensures ReadVarint(buf).value.size <= Skip(buf).value
  {
    ReadSize(buf, 0);
    assert buf[0..] == buf;
  }

  lemma {:induction false} UnknownAppend(a: Bytes, b: Bytes)
    requires UnknownOnly(a) && UnknownOnly(b)
    ensures UnknownOnly(a + b)
    decreases |a|
  {
    hide Skip, ReadVarint;
    if a == [] {
      assert a + b == b;
    } else {
      var n := Skip(a).value;
      UnknownAppend(a[n..], b);
      UnknownCons(a, a[n..] + b);
      assert a + b == a[..n] + (a[n..] + b);
    }
  }

  // ---- print, then parse ----

  /** The single tag byte of field f reads as field number f with wire type 2. */
  lemma TagByte(f: FieldNumber, post: Bytes)
    ensures ReadVarint([Tag(f)] + post) == Ok(Varint(8 * f + 2, 1))
  {
  }

  lemma WeightZero()
    ensures Weight(0) == 1
  {
  }

  /** A tag and a length that read well make one record of a known field. */
  lemma ReadKnown(buf: Bytes, i: nat, f: FieldNumber, len: Varint)
    requires i < |buf| < TWO_63 && ReadVarint(buf[i..]) == Ok(Varint(8 * f + 2, 1))
    requires ReadLength(buf[i + 1..]) == Ok(len)
    requires i + 1 + len.size + len.value <= |buf|
    ensures var start := i + 1 + len.size;
      NextRecord(buf, i) == Ok(Read(Known(f, buf[start..start + len.value]), start + len.value))
  {
    hide ReadVarint, ReadLength, Skip;
  }

  lemma ReadPrintedLength(s: Bytes, n: nat, rest: Bytes)
    requires s == PrintVarint(n) + rest && n < TWO_63
    ensures ReadLength(s) == Ok(Varint(n, Sov(n)))
  {
    hide ReadGroups, PrintVarint, Weight;
    WeightZero();
    VarintRoundTrip(n, 0, rest);
  }

  lemma FieldTag(pre: Bytes, f: FieldNumber, payload: Bytes, post: Bytes)
    requires payload != []
    ensures ReadVarint((pre + PrintField(f, payload) + post)[|pre|..]) == Ok(Varint(8 * f + 2, 1))
  {
    hide ReadVarint, PrintVarint, Tag;
    var rest := PrintVarint(|payload|) + payload + post;
    assert (pre + PrintField(f, payload) + post)[|pre|..] == [Tag(f)] + rest;
    TagByte(f, rest);
  }

  lemma FieldLength(pre: Bytes, f: FieldNumber, payload: Bytes, post: Bytes)
    requires payload != [] && |payload| < TWO_63
    ensures |PrintField(f, payload)| == 1 + Sov(|payload|) + |payload|
    ensures ReadLength((pre + PrintField(f, payload) + post)[|pre| + 1..]) == Ok(Varint(|payload|, Sov(|payload|)))
  {
    hide ReadLength, PrintVarint, Tag;
    var s := (pre + PrintField(f, payload) + post)[|pre| + 1..];
    assert s == PrintVarint(|payload|) + (payload + post);
    ReadPrintedLength(s, |payload|, payload + post);
  }

  lemma FieldPayload(pre: Bytes, f: FieldNumber, payload: Bytes, post: Bytes)
    requires payload != []
    ensures var start := |pre| + 1 + Sov(|payload|);
      && start + |payload| == |pre + PrintField(f, payload)|
      && (pre + PrintField(f, payload) + post)[start..start + |payload|] == payload
  {
    hide PrintVarint, Sov, Tag;
  }

  /** A printed field in a buffer is read as one record carrying its payload. */
  lemma ReadPrintedField(pre: Bytes, f: FieldNumber, payload: Bytes, post: Bytes)
    requires payload != [] && |pre + PrintField(f, payload) + post| < TWO_63
    ensures NextRecord(pre + PrintField(f, payload) + post, |pre|)
         == Ok(Read(Known(f, payload), |pre + PrintField(f, payload)|))
  {
    hide ReadVarint, ReadLength, NextRecord, PrintField, Sov;
    FieldPayload(pre, f, payload, post);
    FieldTag(pre, f, payload, post);
    FieldLength(pre, f, payload, post);
    ReadKnown(pre + PrintField(f, payload) + post, |pre|, f, Varint(|payload|, Sov(|payload|)));
  }

  lemma ParseUnknown(pre: Bytes, u: Bytes, m: EventSend)
    requires UnknownOnly(u) && |pre + u| < TWO_63
    ensures ParseFrom(pre + u, |pre|, m, false) == Outcome(m.(unknown := m.unknown + u), None)
  {
    assert (pre + u)[|pre|..] == u;
    hide *;
    ParseUnknownAt(pre + u, |pre|, m);
  }

  lemma {:induction false} ParseUnknownAt(buf: Bytes, i: nat, m: EventSend)
    requires i <= |buf| < TWO_63 && UnknownOnly(buf[i..])
    ensures ParseFrom(buf, i, m, false) == Outcome(m.(unknown := m.unknown + buf[i..]), None)
    decreases |buf| - i
  {
    hide *;
    if i == |buf| {
      ParseEnds(buf, m, false);
      assert buf[i..] == [] && m.unknown + [] == m.unknown;
    } else {
      NextUnknown(buf, i);
      NextThenRest(buf, i, m, false);
      UnknownStarts(buf[i..]);
      var n := Skip(buf[i..]).value;
      KeepUnknown(m, buf[i..][..n]);
      Drop(buf, i, n);
      ParseUnknownAt(buf, i + n, m.(unknown := m.unknown + buf[i..][..n]));
      Rejoin(m.unknown, buf[i..], n);
    }
  }

  lemma KeepUnknown(m: EventSend, raw: Bytes)
    ensures Apply(m, Unknown(raw), false) == m.(unknown := m.unknown + raw)
  {
  }

  lemma Drop(buf: Bytes, i: nat, n: nat)
    requires i + n <= |buf|
    ensures buf[i..][n..] == buf[i + n..]
  {
  }

  lemma Rejoin(x: Bytes, u: Bytes, n: nat)
    requires n <= |u|
    ensures x + u[..n] + u[n..] == x + u
  {
    assert u[..n] + u[n..] == u;
  }

  /** The record at the start of a run of unknown records. */
  lemma NextUnknown(buf: Bytes, i: nat)
    requires i < |buf| < TWO_63 && UnknownOnly(buf[i..])
    ensures
      var u := buf[i..];
      Skip(u).Ok? && Skip(u).value <= |u| && NextRecord(buf, i) == Ok(Read(Unknown(u[..Skip(u).value]), i + Skip(u).value))
  {
    hide Skip, ReadVarint, UnknownOnly;
    assert UnknownOnly(buf[i..]);
    UnknownStarts(buf[i..]);
    var n := Skip(buf[i..]).value;
    assert buf[i..i + n] == buf[i..][..n];
  }

  lemma UnknownStarts(u: Bytes)
    requires UnknownOnly(u) && u != []
    ensures ReadVarint(u).Ok? && ReadVarint(u).value.value % 8 != 4 && Int32(ReadVarint(u).value.value / 8) > 4
    ensures Skip(u).Ok? && Skip(u).value <= |u| && UnknownOnly(u[Skip(u).value..])
  {
    hide ReadVarint, Skip, Int32;
  }

  /** m with the fields from number f on, and the unknown records, emptied. */
  function Upto(m: EventSend, f: int): EventSend {
    EventSend(if f > 1 then m.classId else [], if f > 2 then m.id else [],
              if f > 3 then m.sender else [], if f > 4 then m.receiver else [], [])
  }

  lemma EmptyField(f: FieldNumber)
    ensures PrintField(f, []) == []
  {
  }

  lemma {:induction false} ParsePrinted(pre: Bytes, m: EventSend, f: int)
    requires 1 <= f <= 5 && UnknownOnly(m.unknown)
    requires |pre + PrintFrom(m, f)| < TWO_63
    ensures ParseFrom(pre + PrintFrom(m, f), |pre|, Upto(m, f), false) == Outcome(m, None)
    decreases 5 - f
  {
    hide NextRecord, PrintField, UnknownOnly;
    if f == 5 {
      ParseUnknown(pre, m.unknown, Upto(m, 5));
      assert Upto(m, 5).unknown + m.unknown == m.unknown;
    } else {
      var field := PrintField(f, Field(m, f));
      var rest := PrintFrom(m, f + 1);
      assert pre + PrintFrom(m, f) == pre + field + rest;
      ParsePrinted(pre + field, m, f + 1);
      if Field(m, f) == [] {
        EmptyField(f);
        assert pre + field == pre;
        assert Upto(m, f) == Upto(m, f + 1);
      } else {
        ReadPrintedField(pre, f, Field(m, f), rest);
      }
    }
  }

  /** Unmarshalling the marshalled bytes gives the message back, for all strings and all well-formed unknown records. */
  lemma WireRoundTrip(m: EventSend)
    requires UnknownOnly(m.unknown) && |Print(m)| < TWO_63
    ensures Parse(Print(m)) == Outcome(m, None)
  {
    ParsePrinted([], m, 1);
    assert [] + Print(m) == Print(m);
    assert Upto(m, 1) == EMPTY;
  }

  lemma PrintedSize(m: EventSend)
    ensures |Print(m)| == Size(m)
  {
    assert PrintFrom(m, 3) == PrintField(3, m.sender) + (PrintField(4, m.receiver) + PrintFrom(m, 5));
  }

  // ---- parse, then print ----

  /** A record read into a message costs the printed message at most the bytes the record took. */
  lemma RecordSize(buf: Bytes, i: nat, m: EventSend)
    requires i < |buf| < TWO_63 && NextRecord(buf, i).Ok?
    ensures Size(Apply(m, NextRecord(buf, i).value.record, false)) <= Size(m) + NextRecord(buf, i).value.next - i
  {
    hide NextRecord, FieldSize, Size, WithField;
    match NextRecord(buf, i).value.record {
      case Known(f, payload) =>
        KnownRecordSize(buf, i);
        FieldAdds(m, f, payload);
      case Unknown(raw) =>
        UnknownRecordSize(buf, i);
        UnknownAdds(m, raw);
    }
  }

  lemma FieldAdds(m: EventSend, f: FieldNumber, payload: Bytes)
    ensures Size(WithField(m, f, payload)) <= Size(m) + FieldSize(payload)
  {
    hide FieldSize;
  }

  lemma UnknownAdds(m: EventSend, raw: Bytes)
    ensures Size(m.(unknown := m.unknown + raw)) == Size(m) + |raw|
  {
    hide FieldSize;
  }

  lemma UnknownRecordSize(buf: Bytes, i: nat)
    requires i < |buf| < TWO_63 && NextRecord(buf, i).Ok? && NextRecord(buf, i).value.record.Unknown?
    ensures |NextRecord(buf, i).value.record.raw| == NextRecord(buf, i).value.next - i
  {
    hide Skip, ReadVarint, Int32;
  }

  lemma KnownRecordSize(buf: Bytes, i: nat)
    requires i < |buf| < TWO_63 && NextRecord(buf, i).Ok? && NextRecord(buf, i).value.record.Known?
    ensures FieldSize(NextRecord(buf, i).value.record.payload) <= NextRecord(buf, i).value.next - i
  {
    hide Skip, ReadVarint, Int32;
    VarintSize(buf[i..]);
    var j := i + ReadVarint(buf[i..]).value.size;
    VarintSize(buf[j..]);
    ShortestVarint(buf[j..]);
    assert ReadLength(buf[j..]) == Ok(ReadVarint(buf[j..]).value);
    hide Sov;
  }

  lemma RecordUnknown(buf: Bytes, i: nat, m: EventSend)
    requires i < |buf| < TWO_63 && NextRecord(buf, i).Ok? && UnknownOnly(m.unknown)
    ensures UnknownOnly(Apply(m, NextRecord(buf, i).value.record, false).unknown)
  {
    var record := NextRecord(buf, i).value.record;
    if record.Unknown? {
      var n := Skip(buf[i..]).value;
      assert record.raw == buf[i..][..n];
      UnknownCons(buf[i..], []);
      assert record.raw + [] == record.raw;
      UnknownAppend(m.unknown, record.raw);
    }
  }

  lemma {:induction false} ParsedIsPrintable(buf: Bytes, i: nat, m: EventSend)
    requires i <= |buf| < TWO_63 && UnknownOnly(m.unknown) && Size(m) <= i
    ensures UnknownOnly(ParseFrom(buf, i, m, false).msg.unknown)
    ensures Size(ParseFrom(buf, i, m, false).msg) <= |buf|
    decreases |buf| - i
  {
    if i < |buf| && NextRecord(buf, i).Ok? {
      var read := NextRecord(buf, i).value;
      RecordSize(buf, i, m);
      RecordUnknown(buf, i, m);
      ParsedIsPrintable(buf, read.next, Apply(m, read.record, false));
    }
  }

  /** Every accepted input has a canonical form, the printed message: it is no longer than the input, and it parses to
      the message the input parsed to. */
  lemma Canonical(buf: Bytes)
    requires |buf| < TWO_63 && Parse(buf).err == None
    ensures |Print(Parse(buf).msg)| <= |buf|
    ensures Parse(Print(Parse(buf).msg)) == Parse(buf)
  {
    ParsedIsPrintable(buf, 0, EMPTY);
    PrintedSize(Parse(buf).msg);
    WireRoundTrip(Parse(buf).msg);
  }

  // ---- reading one buffer after another ----

  /** A record read from a buffer is read the same when more bytes follow the buffer. */
  lemma NextRecordLocal(a: Bytes, b: Bytes, i: nat)
    requires i < |a| && |a + b| < TWO_63 && NextRecord(a, i).Ok?
    ensures NextRecord(a + b, i) == NextRecord(a, i)
  {
    if NextRecord(a, i).value.record.Known? {
      KnownLocal(a, b, i);
    } else {
      UnknownLocal(a, b, i);
    }
  }

  lemma KnownLocal(a: Bytes, b: Bytes, i: nat)
    requires i < |a| && |a + b| < TWO_63 && NextRecord(a, i).Ok? && NextRecord(a, i).value.record.Known?
    ensures NextRecord(a + b, i) == NextRecord(a, i)
  {
    hide Skip, ReadVarint, Int32, ReadLength;
    KnownVarint(a, i);
    MoreAfter(a, b, i);
    var j := i + ReadVarint(a[i..]).value.size;
    VarintSize(a[j..]);
    MoreAfter(a, b, j);
    SameLength((a + b)[j..], a[j..]);
    Within(a, b, j + ReadVarint(a[j..]).value.size, NextRecord(a, i).value.next);
  }

  lemma SameLength(s: Bytes, t: Bytes)
    requires ReadVarint(s).Ok? && ReadVarint(s) == ReadVarint(t)
    ensures ReadLength(s) == ReadLength(t)
    ensures ReadLength(s).Ok? ==> ReadLength(s).value == ReadVarint(s).value
  {
    hide ReadVarint;
  }

  lemma UnknownLocal(a: Bytes, b: Bytes, i: nat)
    requires i < |a| && |a + b| < TWO_63 && NextRecord(a, i).Ok? && NextRecord(a, i).value.record.Unknown?
    ensures NextRecord(a + b, i) == NextRecord(a, i)
  {
    hide ReadVarint, Int32, Skip;
    VarintSize(a[i..]);
    MoreAfter(a, b, i);
    SkipMore(a, b, i);
    Within(a, b, i, i + Skip(a[i..]).value);
  }

  lemma Within(a: Bytes, b: Bytes, start: nat, end: nat)
    requires start <= end <= |a|
    ensures (a + b)[start..end] == a[start..end]
  {
  }

  lemma KnownVarint(a: Bytes, i: nat)
    requires i < |a| < TWO_63 && NextRecord(a, i).Ok? && NextRecord(a, i).value.record.Known?
    ensures ReadVarint(a[i..]).Ok? && 1 <= ReadVarint(a[i..]).value.size <= |a| - i
    ensures ReadVarint(a[i + ReadVarint(a[i..]).value.size..]).Ok?
  {
    VarintSize(a[i..]);
    hide Skip, Int32;
  }

  lemma MoreAfter(a: Bytes, b: Bytes, i: nat)
    requires i <= |a| && ReadVarint(a[i..]).Ok?
    ensures ReadVarint((a + b)[i..]) == ReadVarint(a[i..])
  {
    VarintSize(a[i..]);
    LocalAt(a, i, |a|, b);
    hide ReadVarint;
    assert a[..|a|] == a;
  }

  lemma SkipMore(a: Bytes, b: Bytes, i: nat)
    requires i <= |a| && Skip(a[i..]).Ok? && i + Skip(a[i..]).value <= |a|
    ensures Skip((a + b)[i..]) == Skip(a[i..])
  {
    hide SkipFrom;
    var n := Skip(a[i..]).value;
    SkipFromLocal(a[i..], 0, 0, a[i + n..] + b);
    CutAndJoin(a, b, i, n);
  }

  lemma CutAndJoin(a: Bytes, b: Bytes, i: nat, n: nat)
    requires i + n <= |a|
    ensures a[i..][..n] + (a[i + n..] + b) == (a + b)[i..]
  {
    assert a[i..][..n] + a[i + n..] == a[i..];
  }

  lemma {:induction false} ParseThenMore(a: Bytes, b: Bytes, i: nat, m: EventSend, discardUnknown: bool)
    requires i <= |a| && |a + b| < TWO_63 && ParseFrom(a, i, m, discardUnknown).err.None?
    ensures ParseFrom(a + b, i, m, discardUnknown)
         == ParseFrom(a + b, |a|, ParseFrom(a, i, m, discardUnknown).msg, discardUnknown)
    decreases |a| - i
  {
    if i < |a| {
      NextRecordLocal(a, b, i);
      hide NextRecord, Apply;
      var read := NextRecord(a, i).value;
      ParseThenMore(a, b, read.next, Apply(m, read.record, discardUnknown), discardUnknown);
    }
  }

  /** An error met later in a longer buffer: the same one, except that a length reaching past the end can then also reach past
      the largest index. */
  predicate SameError(late: Error, early: Error) {
    late == early || (late == InvalidLength && early == UnexpectedEOF)
  }

  predicate SameOutcome(late: Outcome, early: Outcome) {
    && late.msg == early.msg && (late.err.None? <==> early.err.None?)
    && (late.err.Some? ==> SameError(late.err.value, early.err.value))
  }

  /** A record is the same wherever its buffer starts. */
  lemma NextRecordShift(a: Bytes, b: Bytes, i: nat)
    requires i < |b| && |a + b| < TWO_63
    ensures match NextRecord(b, i)
            case Ok(read) => NextRecord(a + b, |a| + i) == Ok(Read(read.record, |a| + read.next))
            case Err(e) => NextRecord(a + b, |a| + i).Err? && SameError(NextRecord(a + b, |a| + i).error, e)
  {
    Shifted(a, b, i);
    VarintSize(b[i..]);
    hide Skip, ReadVarint, Int32;
    match ReadVarint(b[i..]) {
      case Err(_) =>
      case Ok(tag) =>
        if 1 <= Int32(tag.value / 8) <= 4 {
          KnownShift(a, b, i);
        } else {
          UnknownShift(a, b, i);
        }
    }
  }

  lemma KnownShift(a: Bytes, b: Bytes, i: nat)
    requires i < |b| && |a + b| < TWO_63 && (a + b)[|a| + i..] == b[i..]
    requires ReadVarint(b[i..]).Ok? && 1 <= Int32(ReadVarint(b[i..]).value.value / 8) <= 4
    ensures match NextRecord(b, i)
            case Ok(read) => NextRecord(a + b, |a| + i) == Ok(Read(read.record, |a| + read.next))
            case Err(e) => NextRecord(a + b, |a| + i).Err? && SameError(NextRecord(a + b, |a| + i).error, e)
  {
    VarintSize(b[i..]);
    hide Skip, ReadVarint, Int32;
    var j := i + ReadVarint(b[i..]).value.size;
    Shifted(a, b, j);
    VarintSize(b[j..]);
    if ReadVarint(b[j..]).Ok? {
      var start := j + ReadVarint(b[j..]).value.size;
      var end := start + ReadVarint(b[j..]).value.value;
      if end <= |b| {
        Slice(a, b, start, end);
      }
    }
  }

  lemma UnknownShift(a: Bytes, b: Bytes, i: nat)
    requires i < |b| && |a + b| < TWO_63 && (a + b)[|a| + i..] == b[i..]
    requires ReadVarint(b[i..]).Ok? && !(1 <= Int32(ReadVarint(b[i..]).value.value / 8) <= 4)
    ensures match NextRecord(b, i)
            case Ok(read) => NextRecord(a + b, |a| + i) == Ok(Read(read.record, |a| + read.next))
            case Err(e) => NextRecord(a + b, |a| + i).Err? && SameError(NextRecord(a + b, |a| + i).error, e)
  {
    hide Skip, ReadVarint, Int32;
    if Skip(b[i..]).Ok? && i + Skip(b[i..]).value <= |b| {
      Slice(a, b, i, i + Skip(b[i..]).value);
    }
  }

  lemma Shifted(a: Bytes, b: Bytes, i: nat)
    requires i <= |b|
    ensures (a + b)[|a| + i..] == b[i..]
  {
  }

  lemma Slice(a: Bytes, b: Bytes, start: nat, end: nat)
    requires start <= end <= |b|
    ensures (a + b)[|a| + start..|a| + end] == b[start..end]
  {
  }

  lemma {:induction false} ParseShift(a: Bytes, b: Bytes, i: nat, m: EventSend, discardUnknown: bool)
    requires i <= |b| && |a + b| < TWO_63
    ensures SameOutcome(ParseFrom(a + b, |a| + i, m, discardUnknown), ParseFrom(b, i, m, discardUnknown))
    decreases |b| - i
  {
    hide *;
    if i == |b| {
      ParseEnds(a + b, m, discardUnknown);
      ParseEnds(b, m, discardUnknown);
      EndAlike(m);
    } else {
      NextRecordShift(a, b, i);
      match NextRecord(b, i) {
        case Err(_) =>
          ParseFails(a + b, |a| + i, m, discardUnknown);
          ParseFails(b, i, m, discardUnknown);
          FailAlike(m, NextRecord(a + b, |a| + i).error, NextRecord(b, i).error);
        case Ok(read) =>
          ParseShift(a, b, read.next, Apply(m, read.record, discardUnknown), discardUnknown);
          NextThenRest(a + b, |a| + i, m, discardUnknown);
          NextThenRest(b, i, m, discardUnknown);
      }
    }
  }

  lemma ParseEnds(buf: Bytes, m: EventSend, discardUnknown: bool)
    requires |buf| < TWO_63
    ensures ParseFrom(buf, |buf|, m, discardUnknown) == Outcome(m, None)
  {
  }

  lemma EndAlike(m: EventSend)
    ensures SameOutcome(Outcome(m, None), Outcome(m, None))
  {
  }

  lemma ParseFails(buf: Bytes, i: nat, m: EventSend, discardUnknown: bool)
    requires i < |buf| < TWO_63 && NextRecord(buf, i).Err?
    ensures ParseFrom(buf, i, m, discardUnknown) == Outcome(m, Some(NextRecord(buf, i).error))
  {
    hide NextRecord;
  }

  lemma FailAlike(m: EventSend, late: Error, early: Error)
    requires SameError(late, early)
    ensures SameOutcome(Outcome(m, Some(late)), Outcome(m, Some(early)))
  {
  }

  lemma NextThenRest(buf: Bytes, i: nat, m: EventSend, discardUnknown: bool)
    requires i < |buf| < TWO_63 && NextRecord(buf, i).Ok?
    ensures
      var read := NextRecord(buf, i).value;
      ParseFrom(buf, i, m, discardUnknown) == ParseFrom(buf, read.next, Apply(m, read.record, discardUnknown), discardUnknown)
  {
    hide NextRecord, Apply;
  }

  /** Unmarshalling two buffers joined is unmarshalling the second on top of what the first, if accepted, left: the same message,
      accepted or rejected alike. Only the kind of error can depend on how far into the input it is met. */
  lemma JoinedBuffers(a: Bytes, b: Bytes, m: EventSend, discardUnknown: bool)
    requires |a + b| < TWO_63 && ParseFrom(a, 0, m, discardUnknown).err.None?
    ensures SameOutcome(ParseFrom(a + b, 0, m, discardUnknown),
                        ParseFrom(b, 0, ParseFrom(a, 0, m, discardUnknown).msg, discardUnknown))
  {
    ParseThenMore(a, b, 0, m, discardUnknown);
    ParseShift(a, b, 0, ParseFrom(a, 0, m, discardUnknown).msg, discardUnknown);
    hide *;
  }

  // ---- what a run of records means ----

  /** The records of a buffer, in order. */
  function Records(buf: Bytes, i: nat): Result<seq<Record>>
    requires i <= |buf| < TWO_63
    decreases |buf| - i
  {
    if i == |buf| then Ok([])
    else
      match NextRecord(buf, i)
      case Err(e) => Err(e)
      case Ok(read) =>
        match Records(buf, read.next)
        case Err(e) => Err(e)
        case Ok(rest) => Ok([read.record] + rest)
  }

  /** The payload of the last occurrence of field f, or what the message had. */
  function LastPayload(records: seq<Record>, f: FieldNumber, before: Bytes): Bytes {
    if records == [] then before
    else
      var last := records[|records| - 1];
      if last.Known? && last.field == f then last.payload else LastPayload(records[..|records| - 1], f, before)
  }

  /** The raw bytes of the unknown records, in order. */
  function UnknownBytes(records: seq<Record>): Bytes {
    if records == [] then []
    else (if records[0].Unknown? then records[0].raw else []) + UnknownBytes(records[1..])
  }

  lemma {:induction false} LastPayloadCons(r: Record, rest: seq<Record>, f: FieldNumber, before: Bytes)
    ensures LastPayload([r] + rest, f, before)
         == LastPayload(rest, f, if r.Known? && r.field == f then r.payload else before)
  {
    if rest == [] {
      assert [r] + rest == [r];
      assert [r][..0] == [];
    } else {
      var all := [r] + rest;
      assert all[..|all| - 1] == [r] + rest[..|rest| - 1];
      LastPayloadCons(r, rest[..|rest| - 1], f, before);
    }
  }

  lemma RecordThenRest(m: EventSend, r: Record, rest: seq<Record>, f: FieldNumber)
    ensures LastPayload([r] + rest, f, Field(m, f)) == LastPayload(rest, f, Field(Apply(m, r, false), f))
    ensures m.unknown + UnknownBytes([r] + rest) == Apply(m, r, false).unknown + UnknownBytes(rest)
  {
    LastPayloadCons(r, rest, f, Field(m, f));
    hide LastPayload;
    assert ([r] + rest)[1..] == rest;
  }

  /** The last occurrence of a repeated field wins, and the unknown records are kept in the order they came. A buffer
      whose records cannot all be read is rejected with the first record's error that cannot. */
  lemma {:induction false} LastOccurrenceWins(buf: Bytes, i: nat, m: EventSend, f: FieldNumber)
    requires i <= |buf| < TWO_63
    ensures var out := ParseFrom(buf, i, m, false);
      match Records(buf, i)
      case Err(e) => out.err == Some(e)
      case Ok(records) =>
        && out.err == None
        && Field(out.msg, f) == LastPayload(records, f, Field(m, f))
        && out.msg.unknown == m.unknown + UnknownBytes(records)
    decreases |buf| - i
  {
    if i == |buf| {
      assert m.unknown + [] == m.unknown;
    } else if NextRecord(buf, i).Ok? {
      hide NextRecord, LastPayload, UnknownBytes, Field, Apply;
      var read := NextRecord(buf, i).value;
      LastOccurrenceWins(buf, read.next, Apply(m, read.record, false), f);
      if Records(buf, read.next).Ok? {
        RecordThenRest(m, read.record, Records(buf, read.next).value, f);
      }
    }
  }
}
