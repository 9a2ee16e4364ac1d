/** The generated codec of EventSend, as it runs: the marshaller fills a buffer of the computed size from its end, the
    parser walks a buffer with an index and assigns the message's fields. Each method is tied to the wire format. */
module EventSendCodec {
  import opened Options
  import opened Wire
  import opened WireProofs

  /** Writes v as a varint in front of what starts at offset; returns where it starts. */
  method EncodeVarint(buf: array<byte>, offset: nat, v: nat) returns (base: nat)
    requires Sov(v) <= offset <= buf.Length
    modifies buf
    ensures base == offset - Sov(v)
    ensures buf[base..] == PrintVarint(v) + old(buf[offset..])
  {
    base := offset - Sov(v);
    var at, rest := base, v;
    ghost var written: Bytes, after := [], buf[offset..];
    assert buf[base..at] == written && written + PrintVarint(v) == PrintVarint(v);
    hide *;
    while rest >= 128
      invariant base <= at && at + Sov(rest) == offset
      invariant buf[base..at] == written && written + PrintVarint(rest) == PrintVarint(v)
      invariant buf[offset..] == after
      decreases offset - at
    {
      NextByte(written, rest);
      var b := (rest % 128 + 128) as byte;
      SetAt(buf, base, at, offset, b);
      written := written + [b];
      rest := rest / 128;
      at := at + 1;
    }
    LastByte(rest);
    SetAt(buf, base, at, offset, rest as byte);
    assert at + 1 == offset;
    CutArray(buf, base, offset);
  }

  lemma CutArray(buf: array<byte>, base: nat, offset: nat)
    requires base <= offset <= buf.Length
    ensures buf[base..] == buf[base..offset] + buf[offset..]
  {
  }

  /** Writes one byte at a position between what has been written from base on and what starts at offset. */
  method SetAt(buf: array<byte>, base: nat, at: nat, offset: nat, b: byte)
    requires base <= at < offset <= buf.Length
    modifies buf
    ensures buf[base..at + 1] == old(buf[base..at]) + [b] && buf[offset..] == old(buf[offset..])
  {
    buf[at] := b;
  }

  lemma LastByte(rest: nat)
    requires rest < 128
    ensures Sov(rest) == 1 && PrintVarint(rest) == [rest as byte]
  {
  }

  lemma NextByte(written: Bytes, rest: nat)
    requires rest >= 128
    ensures Sov(rest) == 1 + Sov(rest / 128)
    ensures written + [(rest % 128 + 128) as byte] + PrintVarint(rest / 128) == written + PrintVarint(rest)
  {
    hide *;
    PrintMore(rest);
    Regroup(written, [(rest % 128 + 128) as byte], PrintVarint(rest / 128));
  }

  lemma PrintMore(v: nat)
    requires v >= 128
    ensures Sov(v) == 1 + Sov(v / 128)
    ensures PrintVarint(v) == [(v % 128 + 128) as byte] + PrintVarint(v / 128)
  {
  }

  lemma Regroup(a: Bytes, b: Bytes, c: Bytes)
    ensures a + b + c == a + (b + c)
  {
  }

  method SetBefore(buf: array<byte>, end: nat, b: byte) returns (start: nat)
    requires 0 < end <= buf.Length
    modifies buf
    ensures start == end - 1
    ensures buf[start..] == [b] + old(buf[end..])
  {
    start := end - 1;
    buf[start] := b;
  }

  lemma Associate(a: Bytes, b: Bytes, c: Bytes, d: Bytes)
    ensures a + (b + (c + d)) == a + b + c + d
  {
  }

  /** Copies the bytes of s in front of what starts at end; returns where they start. */
  method CopyBefore(buf: array<byte>, end: nat, s: Bytes) returns (start: nat)
    requires |s| <= end <= buf.Length
    modifies buf
    ensures start == end - |s|
    ensures buf[start..] == s + old(buf[end..])
  {
    start := end - |s|;
    forall k | 0 <= k < |s| {
      buf[start + k] := s[k];
    }
  }

  /** Reads a varint at an index: seven bits a byte, low groups first. */
  method DecodeVarint(buf: array<byte>, start: nat) returns (r: Result<Varint>)
    requires start <= buf.Length
    ensures r == ReadVarint(buf[start..])
  {
    var i, shift, weight: nat := start, 0, 1;
    var wire: nat := 0;
    while true
      invariant start <= i <= buf.Length && shift == 7 * (i - start)
      invariant weight == Weight(i - start)
      invariant ReadVarint(buf[start..]) == match ReadGroups(buf[i..], i - start) {
                  case Err(e) => Err(e)
                  case Ok(v) => Ok(Varint(wire + v.value, i - start + v.size))
                }
      decreases buf.Length - i
    {
      if shift >= 64 {
        return Err(IntOverflow);
      }
      if i >= buf.Length {
        return Err(UnexpectedEOF);
      }
      var b := buf[i];
      assert buf[i..][1..] == buf[i + 1..];
      i := i + 1;
      wire := wire + b as int % 128 * weight % TWO_64;
      if b < 128 {
        return Ok(Varint(wire, i - start));
      }
      shift := shift + 7;
      weight := 128 * weight;
    }
  }

  method DecodeLength(buf: array<byte>, start: nat) returns (r: Result<Varint>)
    requires start <= buf.Length
    ensures r == ReadLength(buf[start..])
  {
    r := DecodeVarint(buf, start);
    if r.Ok? && r.value.value >= TWO_63 {
      r := Err(InvalidLength);
    }
  }

  /** Moves past one field of the record at start: its tag, and the payload its wire type announces. */
  method SkipField(buf: array<byte>, start: nat, i: nat, depth: nat) returns (r: Result<Skipped>)
    requires start + i < buf.Length
    ensures r == SkipOne(buf[start..], i, depth)
  {
    hide ReadVarint, ReadLength;
    ghost var s := buf[start..];
    assert s[i..] == buf[start + i..];
    var tag := DecodeVarint(buf, start + i);
    if tag.Err? {
      return Err(tag.error);
    }
    VarintSize(s[i..]);
    var j := i + tag.value.size;
    assert s[j..] == buf[start + j..];
    var wireType := tag.value.value % 8;
    var depth' := depth;
    if wireType == 0 {
      var v := DecodeVarint(buf, start + j);
      if v.Err? {
        return Err(v.error);
      }
      j := j + v.value.size;
    } else if wireType == 1 {
      j := j + 8;
    } else if wireType == 2 {
      var v := DecodeLength(buf, start + j);
      if v.Err? {
        return Err(v.error);
      }
      j := j + v.value.size + v.value.value;
    } else if wireType == 3 {
      depth' := depth + 1;
    } else if wireType == 4 {
      if depth == 0 {
        return Err(UnexpectedEndOfGroup);
      }
      depth' := depth - 1;
    } else if wireType == 5 {
      j := j + 4;
    } else {
      return Err(IllegalWireType);
    }
    if j >= TWO_63 {
      return Err(InvalidLength);
    }
    return Ok(Skipped(j, depth'));
  }

  /** The length of the record at start, groups included. The length may reach past the buffer. */
  method SkipRecord(buf: array<byte>, start: nat) returns (r: Result<nat>)
    requires start <= buf.Length
    ensures r == Skip(buf[start..])
  {
    hide SkipOne;
    ghost var s := buf[start..];
    var i, depth := 0, 0;
    while start + i < buf.Length
      invariant SkipFrom(s, i, depth) == Skip(s)
      decreases buf.Length - i
    {
      var step := SkipField(buf, start, i, depth);
      if step.Err? {
        return Err(step.error);
      }
      i, depth := step.value.next, step.value.depth;
      if depth == 0 {
        return Ok(i);
      }
    }
    return Err(UnexpectedEOF);
  }

  class Message {
    var ClassId: Bytes
    var Id: Bytes
    var Sender: Bytes
    var Receiver: Bytes
    var unknownFields: Bytes

    ghost function Value(): EventSend
      reads this
    {
      EventSend(ClassId, Id, Sender, Receiver, unknownFields)
    }

    constructor ()
      ensures Value() == EMPTY
    {
      ClassId, Id, Sender, Receiver, unknownFields := [], [], [], [], [];
    }

    method ComputeSize() returns (n: nat)
      ensures n == |Print(Value())|
    {
      PrintedSize(Value());
      n := 0;
      var l := |ClassId|;
      if l > 0 { n := n + 1 + l + Sov(l); }
      l := |Id|;
      if l > 0 { n := n + 1 + l + Sov(l); }
      l := |Sender|;
      if l > 0 { n := n + 1 + l + Sov(l); }
      l := |Receiver|;
      if l > 0 { n := n + 1 + l + Sov(l); }
      n := n + |unknownFields|;
    }

    /** Writes one field in front of the fields already written from index i on. */
    static method MarshalField(buf: array<byte>, i: nat, f: FieldNumber, payload: Bytes) returns (j: nat)
      requires |PrintField(f, payload)| <= i <= buf.Length
      modifies buf
      ensures j == i - |PrintField(f, payload)|
      ensures buf[j..] == PrintField(f, payload) + old(buf[i..])
    {
      if |payload| == 0 {
        return i;
      }
      ghost var tag, len, tail := [Tag(f)], PrintVarint(|payload|), buf[i..];
      assert PrintField(f, payload) == tag + len + payload;
      hide PrintField, PrintVarint;
      var start := CopyBefore(buf, i, payload);
      var mid := EncodeVarint(buf, start, |payload|);
      j := SetBefore(buf, mid, Tag(f));
      Associate(tag, len, payload, tail);
    }

    /** A fresh buffer of exactly the computed size is filled from its end, down to its first byte, and appended to what the
        caller gave. */
    method Marshal(input: Bytes) returns (output: Bytes)
      ensures output == input + Print(Value())
    {
      ghost var m := Value();
      var size := ComputeSize();
      var buf := new byte[size];
      var i: nat := buf.Length;
      i := CopyBefore(buf, i, unknownFields);
      assert buf[i..] == PrintFrom(m, 5);
      i := MarshalField(buf, i, 4, Receiver);
      assert buf[i..] == PrintFrom(m, 4);
      i := MarshalField(buf, i, 3, Sender);
      assert buf[i..] == PrintFrom(m, 3);
      i := MarshalField(buf, i, 2, Id);
      assert buf[i..] == PrintFrom(m, 2);
      i := MarshalField(buf, i, 1, ClassId);
      assert buf[i..] == PrintFrom(m, 1);
      assert i == 0;
      output := input + buf[..];
    }

    /** Reads the payload of a string field whose tag has been read: the payload, and the index after it. */
    static method UnmarshalString(buf: array<byte>, iNdEx: nat) returns (r: Result<(Bytes, nat)>)
      requires iNdEx <= buf.Length < TWO_63
      ensures r == match ReadLength(buf[iNdEx..])
                   case Err(e) => Err(e)
                   case Ok(len) =>
                     var start := iNdEx + len.size;
                     if start + len.value >= TWO_63 then Err(InvalidLength)
                     else if start + len.value > buf.Length then Err(UnexpectedEOF)
                     else Ok((buf[..][start..start + len.value], start + len.value))
    {
      var len := DecodeLength(buf, iNdEx);
      if len.Err? {
        return Err(len.error);
      }
      ReadSize(buf[iNdEx..], 0);
      var start := iNdEx + len.value.size;
      var postIndex := Int64(start + len.value.value);
      if postIndex < 0 {
        return Err(InvalidLength);
      }
      if postIndex > buf.Length {
        return Err(UnexpectedEOF);
      }
      return Ok((buf[start..postIndex], postIndex));
    }

    method SetField(fieldNum: FieldNumber, payload: Bytes)
      modifies this
      ensures Value() == WithField(old(Value()), fieldNum, payload)
    {
      if fieldNum == 1 {
        ClassId := payload;
      } else if fieldNum == 2 {
        Id := payload;
      } else if fieldNum == 3 {
        Sender := payload;
      } else {
        Receiver := payload;
      }
    }

    /** Reads the record at an index into the message; returns the index of the next one. */
    method UnmarshalRecord(buf: array<byte>, preIndex: nat, discardUnknown: bool) returns (r: Result<nat>)
      requires preIndex < buf.Length < TWO_63
      modifies this
      ensures match NextRecord(buf[..], preIndex)
              case Err(e) => r == Err(e) && Value() == old(Value())
              case Ok(read) => r == Ok(read.next) && Value() == Apply(old(Value()), read.record, discardUnknown)
    {
      hide ReadVarint, ReadLength, Skip, Int32, WithField;
      assert buf[..][preIndex..] == buf[preIndex..];
      var tag := DecodeVarint(buf, preIndex);
      if tag.Err? {
        return Err(tag.error);
      }
      VarintSize(buf[preIndex..]);
      var iNdEx := preIndex + tag.value.size;
      assert buf[..][iNdEx..] == buf[iNdEx..];
      var fieldNum := Int32(tag.value.value / 8);
      var wireType := tag.value.value % 8;
      if wireType == 4 {
        return Err(EndGroupForNonGroup);
      }
      if fieldNum <= 0 {
        return Err(IllegalTag);
      }
      if fieldNum <= 4 {
        if wireType != 2 {
          return Err(WrongWireType);
        }
        var payload := UnmarshalString(buf, iNdEx);
        if payload.Err? {
          return Err(payload.error);
        }
        SetField(fieldNum, payload.value.0);
        return Ok(payload.value.1);
      }
      iNdEx := preIndex;
      var skippy := SkipRecord(buf, iNdEx);
      if skippy.Err? {
        return Err(skippy.error);
      }
      if Int64(iNdEx + skippy.value) < 0 {
        return Err(InvalidLength);
      }
      if iNdEx + skippy.value > buf.Length {
        return Err(UnexpectedEOF);
      }
      if !discardUnknown {
        assert buf[..][iNdEx..iNdEx + skippy.value] == buf[iNdEx..iNdEx + skippy.value];
        unknownFields := unknownFields + buf[iNdEx..iNdEx + skippy.value];
      }
      return Ok(iNdEx + skippy.value);
    }

    /** Reads a buffer into the message, on top of what it holds. */
    method Unmarshal(buf: array<byte>, discardUnknown: bool) returns (err: Option<Error>)
      requires buf.Length < TWO_63
      modifies this
      ensures Outcome(Value(), err) == ParseFrom(buf[..], 0, old(Value()), discardUnknown)
    {
      hide NextRecord, Apply;
      var l := buf.Length;
      var iNdEx := 0;
      while iNdEx < l
        invariant iNdEx <= l
        invariant ParseFrom(buf[..], iNdEx, Value(), discardUnknown) == ParseFrom(buf[..], 0, old(Value()), discardUnknown)
        decreases l - iNdEx
      {
        var next := UnmarshalRecord(buf, iNdEx, discardUnknown);
        if next.Err? {
          return Some(next.error);
        }
        iNdEx := next.value;
      }
      return None;
    }
  }
}
