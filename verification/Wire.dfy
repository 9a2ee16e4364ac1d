/** The Protocol Buffers wire format as the generated codec for EventSend reads and writes it: base-128 varints,
    the record skipper, one message as a run of records, and the bytes a message is printed as. */
module Wire {
  import opened Options

  newtype byte = b: int | 0 <= b < 256

  type Bytes = seq<byte>

  const TWO_32 := 0x1_0000_0000
  const TWO_63 := 0x8000_0000_0000_0000
  const TWO_64 := 0x1_0000_0000_0000_0000

  datatype Error =
    | IntOverflow
    | UnexpectedEOF
    | InvalidLength
    | UnexpectedEndOfGroup
    | IllegalWireType
    | EndGroupForNonGroup
    | IllegalTag
    | WrongWireType

  datatype Result<T> = Ok(value: T) | Err(error: Error)

  datatype Varint = Varint(value: nat, size: nat)

  /** 128 to the power k: the weight of the k-th group of a varint. */
  function Weight(k: nat): (w: nat)
    ensures w > 0
  {
    if k == 0 then 1 else 128 * Weight(k - 1)
  }

  /** What the k-th group of a varint adds to its low 64 bits. */
  function GroupValue(group: nat, k: nat): nat {
    group * Weight(k) % TWO_64
  }

  /** Reads groups k, k+1, ... of a varint from the front of s. A group lands in the low 64 bits, so the tenth group
      keeps one bit of its seven; the groups occupy disjoint bits, so or-ing them in is adding them. */
  function ReadGroups(s: Bytes, k: nat): Result<Varint> {
    if 7 * k >= 64 then Err(IntOverflow)
    else if s == [] then Err(UnexpectedEOF)
    else
      var low := GroupValue(s[0] as int % 128, k);
      if s[0] < 128 then Ok(Varint(low, 1))
      else
        match ReadGroups(s[1..], k + 1)
        case Err(e) => Err(e)
        case Ok(rest) => Ok(Varint(low + rest.value, 1 + rest.size))
  }

  function ReadVarint(s: Bytes): Result<Varint> {
    ReadGroups(s, 0)
  }

  /** The number of bytes of the shortest varint for v. */
  function Sov(v: nat): (n: nat)
    ensures n > 0
  {
    if v < 128 then 1 else 1 + Sov(v / 128)
  }

  /** The shortest varint for v. */
  function PrintVarint(v: nat): (s: Bytes)
    ensures |s| == Sov(v)
  {
    if v < 128 then [v as byte] else [(v % 128 + 128) as byte] + PrintVarint(v / 128)
  }

  /** A 64-bit signed conversion of a sum of two values below 2^63. */
  function Int64(n: nat): int
    requires n < TWO_64
  {
    if n < TWO_63 then n else n - TWO_64
  }

  /** The conversion of an unsigned 64-bit value to a 32-bit signed one keeps the low 32 bits. */
  function Int32(n: nat): int {
    var low := n % TWO_32;
    if low < TWO_32 / 2 then low else low - TWO_32
  }

  /** A length-delimited payload's length at the front of s, as a Go int: the length and the varint's own size. */
  function ReadLength(s: Bytes): (r: Result<Varint>)
    ensures r.Ok? ==> r.value.value < TWO_63
  {
    match ReadVarint(s)
    case Err(e) => Err(e)
    case Ok(v) => if v.value >= TWO_63 then Err(InvalidLength) else Ok(v)
  }

  /** One field of a record seen by the skipper at position i: the position after it and the new group depth. */
  datatype Skipped = Skipped(next: nat, depth: nat)

  function SkipOne(s: Bytes, i: nat, depth: nat): (r: Result<Skipped>)
    requires i < |s|
    ensures r.Ok? ==> i < r.value.next < TWO_63
  {
    match ReadVarint(s[i..])
    case Err(e) => Err(e)
    case Ok(tag) =>
      ReadSize(s[i..], 0);
      var j := i + tag.size;
      var wireType := tag.value % 8;
      var moved: Result<Skipped> :=
        if wireType == 0 then
          match ReadVarint(s[j..]) {
            case Err(e) => Err(e)
            case Ok(v) => Ok(Skipped(j + v.size, depth))
          }
        else if wireType == 1 then Ok(Skipped(j + 8, depth))
        else if wireType == 2 then
          match ReadLength(s[j..]) {
            case Err(e) => Err(e)
            case Ok(v) => Ok(Skipped(j + v.size + v.value, depth))
          }
        else if wireType == 3 then Ok(Skipped(j, depth + 1))
        else if wireType == 4 then if depth == 0 then Err(UnexpectedEndOfGroup) else Ok(Skipped(j, depth - 1))
        else if wireType == 5 then Ok(Skipped(j + 4, depth))
        else Err(IllegalWireType);
      if moved.Ok? && moved.value.next >= TWO_63 then Err(InvalidLength) else moved
  }

  /** A varint takes at least one byte and no byte that is not there. */
  lemma ReadSize(s: Bytes, k: nat)
    ensures ReadGroups(s, k).Ok? ==> 1 <= ReadGroups(s, k).value.size <= |s|
  {
  }

  /** Skips fields from position i until the group depth is back at zero. The result may lie past the end of s:
      the caller checks that. */
  function SkipFrom(s: Bytes, i: nat, depth: nat): (r: Result<nat>)
    ensures r.Ok? ==> i < r.value < TWO_63
    decreases |s| - i
  {
    if i >= |s| then Err(UnexpectedEOF)
    else
      match SkipOne(s, i, depth)
      case Err(e) => Err(e)
      case Ok(step) => if step.depth == 0 then Ok(step.next) else SkipFrom(s, step.next, step.depth)
  }

  function Skip(s: Bytes): (r: Result<nat>)
    ensures r.Ok? ==> 0 < r.value < TWO_63
  {
    SkipFrom(s, 0, 0)
  }

  /** The message: its four strings, as bytes, and the records of fields it does not know. */
  datatype EventSend = EventSend(classId: Bytes, id: Bytes, sender: Bytes, receiver: Bytes, unknown: Bytes)

  const EMPTY := EventSend([], [], [], [], [])

  type FieldNumber = f: int | 1 <= f <= 4 witness 1

  function Field(m: EventSend, f: FieldNumber): Bytes {
    if f == 1 then m.classId else if f == 2 then m.id else if f == 3 then m.sender else m.receiver
  }

  function WithField(m: EventSend, f: FieldNumber, payload: Bytes): EventSend {
    if f == 1 then m.(classId := payload)
    else if f == 2 then m.(id := payload)
    else if f == 3 then m.(sender := payload)
    else m.(receiver := payload)
  }

  /** A record of a message: an occurrence of one of the four fields, or the bytes of any other field. */
  datatype Record = Known(field: FieldNumber, payload: Bytes) | Unknown(raw: Bytes)

  datatype Read = Read(record: Record, next: nat)

  /** The record at position i of a buffer, and where the next one starts. */
  function NextRecord(buf: Bytes, i: nat): (r: Result<Read>)
    requires i < |buf| < TWO_63
    ensures r.Ok? ==> i < r.value.next <= |buf|
  {
    match ReadVarint(buf[i..])
    case Err(e) => Err(e)
    case Ok(tag) =>
      ReadSize(buf[i..], 0);
      var fieldNum := Int32(tag.value / 8);
      var wireType := tag.value % 8;
      if wireType == 4 then Err(EndGroupForNonGroup)
      else if fieldNum <= 0 then Err(IllegalTag)
      else if fieldNum <= 4 then
        if wireType != 2 then Err(WrongWireType)
        else
          var j := i + tag.size;
          match ReadLength(buf[j..])
          case Err(e) => Err(e)
          case Ok(len) =>
            ReadSize(buf[j..], 0);
            var start := j + len.size;
            if start + len.value >= TWO_63 then Err(InvalidLength)
            else if start + len.value > |buf| then Err(UnexpectedEOF)
            else Ok(Read(Known(fieldNum, buf[start..start + len.value]), start + len.value))
      else
        match Skip(buf[i..])
        case Err(e) => Err(e)
        case Ok(n) =>
          if i + n >= TWO_63 then Err(InvalidLength)
          else if i + n > |buf| then Err(UnexpectedEOF)
          else Ok(Read(Unknown(buf[i..i + n]), i + n))
  }

  function Apply(m: EventSend, r: Record, discardUnknown: bool): EventSend {
    match r
    case Known(f, payload) => WithField(m, f, payload)
    case Unknown(raw) => if discardUnknown then m else m.(unknown := m.unknown + raw)
  }

  /** What reading a buffer into a message leaves: the message, also when an error stopped the reading, and the error. */
  datatype Outcome = Outcome(msg: EventSend, err: Option<Error>)

  function ParseFrom(buf: Bytes, i: nat, m: EventSend, discardUnknown: bool): Outcome
    requires i <= |buf| < TWO_63
    decreases |buf| - i
  {
    if i == |buf| then Outcome(m, None)
    else
      match NextRecord(buf, i)
      case Err(e) => Outcome(m, Some(e))
      case Ok(read) => ParseFrom(buf, read.next, Apply(m, read.record, discardUnknown), discardUnknown)
  }

  function Parse(buf: Bytes): Outcome
    requires |buf| < TWO_63
  {
    ParseFrom(buf, 0, EMPTY, false)
  }

  /** The tag byte of field f: its number and wire type 2. */
  function Tag(f: FieldNumber): byte {
    (8 * f + 2) as byte
  }

  /** A non-empty string field: tag byte, length, payload. An empty one is not written. */
  function PrintField(f: FieldNumber, payload: Bytes): Bytes {
    if payload == [] then [] else [Tag(f)] + PrintVarint(|payload|) + payload
  }

  /** The fields from number f on, followed by the unknown records. */
  function PrintFrom(m: EventSend, f: int): Bytes
    requires 1 <= f <= 5
    decreases 5 - f
  {
    if f == 5 then m.unknown else PrintField(f, Field(m, f)) + PrintFrom(m, f + 1)
  }

  function Print(m: EventSend): Bytes {
    PrintFrom(m, 1)
  }

  function FieldSize(payload: Bytes): nat {
    if payload == [] then 0 else 1 + |payload| + Sov(|payload|)
  }

  function Size(m: EventSend): nat {
    FieldSize(m.classId) + FieldSize(m.id) + FieldSize(m.sender) + FieldSize(m.receiver) + |m.unknown|
  }

  /** Bytes that are a run of complete records, none of them one of the four fields. */
  ghost predicate UnknownOnly(u: Bytes)
    decreases |u|
  {
    u == [] || (
      && ReadVarint(u).Ok?
      && ReadVarint(u).value.value % 8 != 4
      && Int32(ReadVarint(u).value.value / 8) > 4
      && Skip(u).Ok?
      && Skip(u).value <= |u|
      && UnknownOnly(u[Skip(u).value..]))
  }
}
