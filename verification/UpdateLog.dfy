/** The write-ahead log of one update batch: its bytes, written and read as a stream. */
module UpdateLog {
  import opened Common
  import opened LittleEndian

  const HeaderBytes: nat := 64
  const RecordBytes: nat := 72
  const Version: nat := 1
  const MaxOperations: nat := 10000
  const Upsert: nat := 1
  const Delete: nat := 2
  const Magic: Bytes := [0x59, 0x41, 0x50, 0x57, 0x41, 0x4C, 0x32, 0]

  /** Widths of version, header size, base, target, operation count, payload size and checksum. */
  const HeaderWidths: seq<nat> := [4, 4, 8, 8, 8, 8, 4]

  /** Widths of kind, padding, timestamp, vector count, dimensions and the five text lengths. */
  const RecordWidths: seq<nat> := [4, 4, 8, 8, 8, 8, 8, 8, 8, 8]

  /** An operation as the caller hands it over; texts are id, url, title, body and metadata, any may be absent. */
  datatype Operation = Operation(
    kind: nat, updatedAt: int, texts: seq<Option<Bytes>>, vectorCount: nat, dimensions: nat, vectors: Option<seq<nat>>)

  datatype Log = Log(base: nat, target: nat, operations: seq<Operation>)

  /** What the types of the C structure say: machine-sized numbers, text without a zero byte inside. */
  ghost predicate Typed(op: Operation) {
    && |op.texts| == 5 && (forall j :: 0 <= j < 5 && op.texts[j].Some? ==> TextOk(op.texts[j].value))
    && op.kind < U32 && -(U64 / 2) <= op.updatedAt < U64 / 2 && op.vectorCount < U64 && op.dimensions < U64
    && (op.vectors.Some? ==> |op.vectors.value| == op.vectorCount * op.dimensions && forall j :: 0 <= j < |op.vectors.value| ==> op.vectors.value[j] < U32)
  }

  ghost predicate TextOk(t: Bytes) {
    |t| < U64 - 1 && forall i :: 0 <= i < |t| ==> t[i] != 0
  }

  /** What the writer checks of an operation. */
  predicate Writable(op: Operation)
    requires |op.texts| == 5
  {
    && op.texts[0].Some? && (op.kind == Upsert || op.kind == Delete) && op.vectorCount * op.dimensions < U64
    && (op.vectorCount * op.dimensions != 0 ==> op.vectors.Some?)
  }

  /** Why an operation cannot be written: a vector count that overflows is out of range, the rest is invalid. */
  function Fault(op: Operation): Status
    requires |op.texts| == 5
  {
    if op.texts[0].Some? && (op.kind == Upsert || op.kind == Delete) && op.vectorCount * op.dimensions >= U64 then OutOfRange
    else InvalidArgument
  }

  ghost predicate AllTyped(ops: seq<Operation>) {
    forall i :: 0 <= i < |ops| ==> Typed(ops[i])
  }

  ghost predicate AllWritable(ops: seq<Operation>)
    requires AllTyped(ops)
  {
    forall i :: 0 <= i < |ops| ==> Writable(ops[i])
  }

  // ---------------------------------------------------------------- encoding

  /** A signed 64-bit value as the unsigned value with the same bits. */
  function ToUnsigned(x: int): nat
    requires -(U64 / 2) <= x < U64 / 2
  {
    if x < 0 then x + U64 else x
  }

  function ToSigned(x: nat): int {
    if x >= U64 / 2 then x - U64 else x
  }

  /** Absent text is written, and therefore read back, as empty text. */
  function TextOf(t: Option<Bytes>): Bytes {
    if t.None? then [] else t.value
  }

  function TextsOf(op: Operation): (r: seq<Bytes>)
    requires |op.texts| == 5
    ensures |r| == 5
  {
    [TextOf(op.texts[0]), TextOf(op.texts[1]), TextOf(op.texts[2]), TextOf(op.texts[3]), TextOf(op.texts[4])]
  }

  function Lengths(parts: seq<Bytes>): (r: seq<nat>)
    ensures |r| == |parts| && forall i :: 0 <= i < |parts| ==> r[i] == |parts[i]|
  {
    seq(|parts|, i requires 0 <= i < |parts| => |parts[i]|)
  }

  function RecordFields(op: Operation): seq<nat>
    requires |op.texts| == 5 && -(U64 / 2) <= op.updatedAt < U64 / 2
  {
    [op.kind, 0, ToUnsigned(op.updatedAt), op.vectorCount, op.dimensions] + Lengths(TextsOf(op))
  }

  function EncodeValues(values: seq<nat>): (r: Bytes)
    ensures |r| == 4 * |values|
  {
    if |values| == 0 then [] else EncodeValues(values[..|values| - 1]) + Put(values[|values| - 1], 4)
  }

  function ValuesOf(op: Operation): seq<nat>
    requires |op.texts| == 5 && Writable(op)
  {
    if op.vectorCount * op.dimensions == 0 then [] else op.vectors.value
  }

  ghost function EncodeOperation(op: Operation): Bytes
    requires Typed(op) && Writable(op)
  {
    Layout(RecordFields(op), RecordWidths) + Concat(TextsOf(op)) + EncodeValues(ValuesOf(op))
  }

  ghost function EncodeAll(ops: seq<Operation>): Bytes
    requires AllTyped(ops) && AllWritable(ops)
  {
    if |ops| == 0 then [] else EncodeAll(ops[..|ops| - 1]) + EncodeOperation(ops[|ops| - 1])
  }

  /** Any byte-at-a-time checksum; only the fold over the bytes matters. */
  function Checksum(step: (nat, byte) -> nat, start: nat, b: Bytes): nat
    decreases |b|
  {
    if |b| == 0 then start else Checksum(step, step(start, b[0]), b[1..])
  }

  /** Feeding two pieces is feeding their concatenation. */
  lemma {:induction false} ChecksumStreams(step: (nat, byte) -> nat, start: nat, a: Bytes, b: Bytes)
    ensures Checksum(step, start, a + b) == Checksum(step, Checksum(step, start, a), b)
    decreases |a|
  {
    if |a| == 0 {
      assert a + b == b;
    } else {
      assert (a + b)[1..] == a[1..] + b;
      ChecksumStreams(step, step(start, a[0]), a[1..], b);
    }
  }

  function Complement(crc: nat): nat {
    U32 - 1 - crc % U32
  }

  function Header(base: nat, count: nat, payload: nat, crc: nat): Bytes {
    Magic + Layout([Version, HeaderBytes, base, base + 1, count, payload, Complement(crc)], HeaderWidths) + Put(0, 12)
  }

  ghost function Encode(step: (nat, byte) -> nat, base: nat, ops: seq<Operation>): Bytes
    requires AllTyped(ops) && AllWritable(ops)
  {
    var payload := EncodeAll(ops);
    Header(base, |ops|, |payload|, Checksum(step, U32 - 1, payload)) + payload
  }

  // ---------------------------------------------------------------- decoding

  datatype Parsed<+T> = Parsed(value: T, rest: Bytes)

  function Take(b: Bytes, n: nat): Result<Parsed<Bytes>> {
    if n > |b| then Err(InvalidFormat) else Ok(Parsed(b[..n], b[n..]))
  }

  function TakeTexts(b: Bytes, lengths: seq<nat>): Result<Parsed<seq<Bytes>>> {
    if |lengths| == 0 then Ok(Parsed([], b))
    else if lengths[0] > U64 - 2 then Err(OutOfRange)
    else
      match Take(b, lengths[0])
      case Err(e) => Err(e)
      case Ok(first) =>
        match TakeTexts(first.rest, lengths[1..])
        case Err(e) => Err(e)
        case Ok(more) => Ok(Parsed([first.value] + more.value, more.rest))
  }

  function TakeValues(b: Bytes, n: nat): Result<Parsed<seq<nat>>>
    decreases n
  {
    if n == 0 then Ok(Parsed([], b))
    else if |b| < 4 then Err(InvalidFormat)
    else
      match TakeValues(b[4..], n - 1)
      case Err(e) => Err(e)
      case Ok(more) => Ok(Parsed([Get(b[..4])] + more.value, more.rest))
  }

  function DecodeOperation(b: Bytes): Result<Parsed<Operation>> {
    if |b| < RecordBytes then Err(InvalidFormat)
    else
      assert Width(RecordWidths) == 72 by { RecordWidth(); }
      DecodeBody(Fields(b[..RecordBytes], RecordWidths), b[RecordBytes..])
  }

  function DecodeBody(f: seq<nat>, b: Bytes): Result<Parsed<Operation>>
    requires |f| == 10
  {
    if (f[0] != Upsert && f[0] != Delete) || (f[3] != 0 && f[4] > (U64 - 1) / f[3]) then Err(InvalidFormat)
    else
      match TakeTexts(b, f[5..])
      case Err(e) => Err(e)
      case Ok(texts) =>
        if f[3] * f[4] > (U64 - 1) / 4 then Err(OutOfRange)
        else
          match TakeValues(texts.rest, f[3] * f[4])
          case Err(e) => Err(e)
          case Ok(values) => Finish(f, texts.value, values)
  }

  /** The id must not be empty; without vector values no array is allocated. */
  function Finish(f: seq<nat>, t: seq<Bytes>, values: Parsed<seq<nat>>): Result<Parsed<Operation>>
    requires |f| == 10
  {
    if |t| == 0 || |t[0]| == 0 || t[0][0] == 0 then Err(InvalidFormat)
    else
      Ok(Parsed(Operation(f[0], ToSigned(f[2]), seq(|t|, j requires 0 <= j < |t| => Some(t[j])), f[3], f[4],
                          if f[3] * f[4] == 0 then None else Some(values.value)), values.rest))
  }

  lemma RecordWidth()
    ensures Width(RecordWidths) == 72
  {
    WidthRepeat(8, 8);
    WidthRepeat(2, 4);
    WidthConcat(seq(2, i => 4), seq(8, i => 8));
    hide Width;
    assert RecordWidths == seq(2, i => 4) + seq(8, i => 8);
  }

  lemma HeaderWidth()
    ensures Width(HeaderWidths) == 44
  {
    WidthRepeat(4, 8);
    WidthRepeat(2, 4);
    WidthRepeat(1, 4);
    WidthConcat(seq(2, i => 4), seq(4, i => 8));
    WidthConcat(seq(2, i => 4) + seq(4, i => 8), seq(1, i => 4));
    hide Width;
    assert HeaderWidths == seq(2, i => 4) + seq(4, i => 8) + seq(1, i => 4);
  }

  function DecodeAll(b: Bytes, n: nat): Result<Parsed<seq<Operation>>>
    decreases n
  {
    if n == 0 then Ok(Parsed([], b))
    else
      match DecodeOperation(b)
      case Err(e) => Err(e)
      case Ok(first) =>
        match DecodeAll(first.rest, n - 1)
        case Err(e) => Err(e)
        case Ok(more) => Ok(Parsed([first.value] + more.value, more.rest))
  }

  predicate HeaderOk(magic: Bytes, f: seq<nat>, payload: nat)
    requires |f| == 7
  {
    && magic == Magic && f[0] == Version && f[1] == HeaderBytes && 0 < f[4] <= MaxOperations && f[5] == payload
    && f[2] != U64 - 1 && f[3] == f[2] + 1
  }

  /** All operations, nothing behind them, and the checksum the header names. */
  function DecodePayload(step: (nat, byte) -> nat, f: seq<nat>, payload: Bytes): Result<Log>
    requires |f| == 7
  {
    match DecodeAll(payload, f[4])
    case Err(e) => Err(e)
    case Ok(p) =>
      if |p.rest| != 0 || Complement(Checksum(step, U32 - 1, payload)) != f[6] then Err(InvalidFormat)
      else Ok(Log(f[2], f[3], p.value))
  }

  function HeaderFieldsOf(file: Bytes): (f: seq<nat>)
    requires |file| >= HeaderBytes
    ensures |f| == 7
  {
    HeaderWidth();
    Fields(file[8..HeaderBytes], HeaderWidths)
  }

  function Decode(step: (nat, byte) -> nat, file: Bytes): Result<Log> {
    if |file| < HeaderBytes || !HeaderOk(file[..8], HeaderFieldsOf(file), |file| - HeaderBytes) then Err(InvalidFormat)
    else DecodePayload(step, HeaderFieldsOf(file), file[HeaderBytes..])
  }

  // ---------------------------------------------------------------- round trip

  lemma {:induction false} TextsRoundTrip(parts: seq<Bytes>, tail: Bytes)
    requires forall i :: 0 <= i < |parts| ==> |parts[i]| < U64 - 1
    ensures TakeTexts(Concat(parts) + tail, Lengths(parts)) == Ok(Parsed(parts, tail))
  {
    if |parts| > 0 {
      var b, rest := Concat(parts) + tail, Concat(parts[1..]) + tail;
      ConcatFirst(parts);
      assert b[..|parts[0]|] == parts[0] && b[|parts[0]|..] == rest;
      assert Lengths(parts)[1..] == Lengths(parts[1..]);
      TextsRoundTrip(parts[1..], tail);
      assert parts == [parts[0]] + parts[1..];
    } else {
      assert Concat(parts) + tail == tail;
    }
  }

  lemma {:induction false} ValuesFirst(values: seq<nat>)
    requires |values| > 0
    ensures EncodeValues(values) == Put(values[0], 4) + EncodeValues(values[1..])
  {
    if |values| > 1 {
      var init := values[..|values| - 1];
      ValuesFirst(init);
      assert init[1..] == values[1..][..|values| - 2];
    } else {
      assert values[..0] == [] && values[1..] == [];
    }
  }

  lemma {:induction false} ValuesRoundTrip(values: seq<nat>, tail: Bytes)
    requires forall i :: 0 <= i < |values| ==> values[i] < U32
    ensures TakeValues(EncodeValues(values) + tail, |values|) == Ok(Parsed(values, tail))
  {
    if |values| > 0 {
      var b, rest := EncodeValues(values) + tail, EncodeValues(values[1..]) + tail;
      ValuesFirst(values);
      assert b[..4] == Put(values[0], 4) && b[4..] == rest;
      RoundTrip32(values[0]);
      ValuesRoundTrip(values[1..], tail);
      assert values == [values[0]] + values[1..];
    } else {
      assert EncodeValues(values) + tail == tail;
    }
  }

  /** What a reader gets: every text present, vectors only when there are values. */
  function Normal(op: Operation): Operation
    requires |op.texts| == 5 && Writable(op)
  {
    var t := TextsOf(op);
    op.(texts := seq(|t|, j requires 0 <= j < |t| => Some(t[j])),
        vectors := if op.vectorCount * op.dimensions == 0 then None else op.vectors)
  }

  lemma QuotientBound(c: nat, d: nat, m: nat)
    requires c > 0 && c * d <= m
    ensures d <= m / c
  {
    if d > m / c {
      Product(c, m / c + 1, d);
      assert false;
    }
  }

  lemma Product(c: nat, a: nat, b: nat)
    requires a <= b
    ensures c * a <= c * b
  {
  }

  lemma FieldsFit(op: Operation)
    requires Typed(op) && Writable(op)
    ensures Fit(RecordFields(op), RecordWidths)
  {
    Widths();
  }

  lemma OperationRoundTrip(op: Operation, tail: Bytes)
    requires Typed(op) && Writable(op) && 4 * |ValuesOf(op)| < U64
    ensures DecodeOperation(EncodeOperation(op) + tail) ==
            if |op.texts[0].value| == 0 then Err(InvalidFormat) else Ok(Parsed(Normal(op), tail))
  {
    var record, texts, values := Layout(RecordFields(op), RecordWidths), TextsOf(op), ValuesOf(op);
    RecordWidth();
    FieldsFit(op);
    FieldsLayout(RecordFields(op), RecordWidths, []);
    assert record + [] == record;
    hide Layout, Fields, Concat, EncodeValues, Typed, DecodeBody, RecordFields, TextsOf, ValuesOf, Width;
    SplitRecord(record, Concat(texts), EncodeValues(values), tail);
    BodyRoundTrip(op, tail);
  }

  lemma SplitRecord(record: Bytes, texts: Bytes, values: Bytes, tail: Bytes)
    ensures var b := record + texts + values + tail; b[..|record|] == record && b[|record|..] == texts + (values + tail)
  {
  }

  lemma BodyRoundTrip(op: Operation, tail: Bytes)
    requires Typed(op) && Writable(op) && 4 * |ValuesOf(op)| < U64
    ensures DecodeBody(RecordFields(op), Concat(TextsOf(op)) + (EncodeValues(ValuesOf(op)) + tail)) ==
            if |op.texts[0].value| == 0 then Err(InvalidFormat) else Ok(Parsed(Normal(op), tail))
  {
    var f, values := RecordFields(op), ValuesOf(op);
    TextsRoundTrip(TextsOf(op), EncodeValues(values) + tail);
    ValuesRoundTrip(values, tail);
    hide TakeTexts, TakeValues, Concat, EncodeValues;
    if op.vectorCount > 0 { QuotientBound(op.vectorCount, op.dimensions, U64 - 1); }
    assert f[5..] == Lengths(TextsOf(op));
    assert |values| == op.vectorCount * op.dimensions;
    assert ToSigned(ToUnsigned(op.updatedAt)) == op.updatedAt;
  }

  ghost predicate Named(ops: seq<Operation>)
    requires AllTyped(ops) && AllWritable(ops)
  {
    forall i :: 0 <= i < |ops| ==> |TextOf(ops[i].texts[0])| > 0
  }

  ghost function Normals(ops: seq<Operation>): seq<Operation>
    requires AllTyped(ops) && AllWritable(ops)
  {
    seq(|ops|, i requires 0 <= i < |ops| => Normal(ops[i]))
  }

  lemma {:induction false} EncodeFirst(ops: seq<Operation>)
    requires AllTyped(ops) && AllWritable(ops) && |ops| > 0
    ensures EncodeAll(ops) == EncodeOperation(ops[0]) + EncodeAll(ops[1..])
  {
    hide EncodeOperation, Typed, Writable;
    if |ops| > 1 {
      var init := ops[..|ops| - 1];
      EncodeFirst(init);
      assert init[1..] == ops[1..][..|ops| - 2];
    } else {
      assert ops[..0] == [] && ops[1..] == [];
    }
  }

  lemma ValuesInside(op: Operation)
    requires Typed(op) && Writable(op)
    ensures 4 * |ValuesOf(op)| <= |EncodeOperation(op)|
  {
    hide Layout;
  }

  lemma {:induction false} AllRoundTrip(ops: seq<Operation>, tail: Bytes)
    requires AllTyped(ops) && AllWritable(ops) && |EncodeAll(ops)| < U64
    ensures DecodeAll(EncodeAll(ops) + tail, |ops|) ==
            if Named(ops) then Ok(Parsed(Normals(ops), tail)) else Err(InvalidFormat)
  {
    hide EncodeOperation, DecodeOperation, Typed, Writable, Normal;
    if |ops| == 0 {
      assert EncodeAll(ops) + tail == tail && Normals(ops) == [];
    } else {
      var first, rest := EncodeOperation(ops[0]), EncodeAll(ops[1..]) + tail;
      EncodeFirst(ops);
      assert EncodeAll(ops) + tail == first + rest;
      ValuesInside(ops[0]);
      OperationRoundTrip(ops[0], rest);
      AllRoundTrip(ops[1..], tail);
      NormalsFirst(ops);
    }
  }

  lemma NormalsFirst(ops: seq<Operation>)
    requires AllTyped(ops) && AllWritable(ops) && |ops| > 0
    ensures Normals(ops) == [Normal(ops[0])] + Normals(ops[1..])
    ensures Named(ops) <==> |ops[0].texts[0].value| > 0 && Named(ops[1..])
  {
    hide Normal;
    assert forall i :: 0 <= i < |ops[1..]| ==> ops[1..][i] == ops[i + 1];
    if |ops[0].texts[0].value| > 0 && Named(ops[1..]) {
      forall i | 0 <= i < |ops| ensures |TextOf(ops[i].texts[0])| > 0 {
        if i > 0 { assert ops[1..][i - 1] == ops[i]; }
      }
    }
  }

  lemma HeaderFields(base: nat, count: nat, payload: nat, crc: nat, file: Bytes)
    requires base + 1 < U64 && count < U64 && payload < U64 && |file| >= HeaderBytes
    requires file[..HeaderBytes] == Header(base, count, payload, crc)
    ensures file[..8] == Magic
    ensures HeaderFieldsOf(file) == [Version, HeaderBytes, base, base + 1, count, payload, Complement(crc)]
  {
    var values := [Version, HeaderBytes, base, base + 1, count, payload, Complement(crc)];
    HeaderWidth();
    HeaderFit(base, count, payload, crc);
    FieldsLayout(values, HeaderWidths, Put(0, 12));
    hide Layout, Fields, Put, Width, Fit, Complement;
    SplitHeader(file, Magic, Layout(values, HeaderWidths), Put(0, 12));
  }

  lemma SplitHeader(file: Bytes, magic: Bytes, fields: Bytes, padding: Bytes)
    requires |magic| == 8 && |fields| == 44 && |padding| == 12 && |file| >= 64 && file[..64] == magic + fields + padding
    ensures file[..8] == magic && file[8..64] == fields + padding
  {
    assert file[..8] == file[..64][..8] && file[8..64] == file[..64][8..];
  }

  lemma HeaderFit(base: nat, count: nat, payload: nat, crc: nat)
    requires base + 1 < U64 && count < U64 && payload < U64
    ensures Fit([Version, HeaderBytes, base, base + 1, count, payload, Complement(crc)], HeaderWidths)
  {
    Widths();
  }

  lemma HeaderLength(base: nat, count: nat, payload: nat, crc: nat)
    ensures |Header(base, count, payload, crc)| == HeaderBytes
  {
    HeaderWidth();
  }

  /** The batch sizes and generations the writer accepts. */
  predicate ArgumentsOk(base: nat, ops: seq<Operation>) {
    0 < |ops| <= MaxOperations && base + 1 < U64
  }

  /**
   Whatever the checksum, loading a written log gives back the same generations and operations,
   absent text as empty text, exactly when no operation has an empty id; a log with one is refused.
   */
  lemma LogRoundTrip(step: (nat, byte) -> nat, base: nat, ops: seq<Operation>)
    requires ArgumentsOk(base, ops) && AllTyped(ops) && AllWritable(ops) && |EncodeAll(ops)| < U64
    ensures Decode(step, Encode(step, base, ops)) ==
            if Named(ops) then Ok(Log(base, base + 1, Normals(ops))) else Err(InvalidFormat)
  {
    hide Header, EncodeAll, DecodeAll, Checksum, HeaderFieldsOf, Complement, Normals, Named, AllTyped, AllWritable;
    var payload, file := EncodeAll(ops), Encode(step, base, ops);
    var crc := Checksum(step, U32 - 1, payload);
    HeaderLength(base, |ops|, |payload|, crc);
    HeadAndTail(Header(base, |ops|, |payload|, crc), payload);
    HeaderFields(base, |ops|, |payload|, crc, file);
    AllRoundTrip(ops, []);
    assert payload + [] == payload;
  }

  lemma HeadAndTail(head: Bytes, tail: Bytes)
    ensures (head + tail)[..|head|] == head && (head + tail)[|head|..] == tail
  {
  }

  /** A file of any other length with the same header, or without a whole header, is refused. */
  lemma WrongLengthRefused(step: (nat, byte) -> nat, base: nat, ops: seq<Operation>, file: Bytes)
    requires ArgumentsOk(base, ops) && AllTyped(ops) && AllWritable(ops) && |EncodeAll(ops)| < U64
    requires |file| != |Encode(step, base, ops)|
    requires |file| >= HeaderBytes ==> file[..HeaderBytes] == Encode(step, base, ops)[..HeaderBytes]
    ensures Decode(step, file) == Err(InvalidFormat)
  {
    hide Header, EncodeAll, DecodePayload, Checksum, HeaderFieldsOf, Complement, AllTyped, AllWritable;
    var payload := EncodeAll(ops);
    var crc := Checksum(step, U32 - 1, payload);
    HeaderLength(base, |ops|, |payload|, crc);
    HeadAndTail(Header(base, |ops|, |payload|, crc), payload);
    if |file| >= HeaderBytes {
      HeaderFields(base, |ops|, |payload|, crc, file);
    }
  }

  /** A torn write never loads: every proper prefix of a written log is refused. */
  lemma PrefixRefused(step: (nat, byte) -> nat, base: nat, ops: seq<Operation>, n: nat)
    requires ArgumentsOk(base, ops) && AllTyped(ops) && AllWritable(ops) && |EncodeAll(ops)| < U64
    requires n < |Encode(step, base, ops)|
    ensures Decode(step, Encode(step, base, ops)[..n]) == Err(InvalidFormat)
  {
    hide Encode, Decode;
    var file := Encode(step, base, ops);
    assert n >= HeaderBytes ==> file[..n][..HeaderBytes] == file[..HeaderBytes];
    WrongLengthRefused(step, base, ops, file[..n]);
  }

  // ---------------------------------------------------------------- writing as a stream

  /** The file so far with the running checksum and payload length. */
  datatype Sink = Sink(bytes: Bytes, crc: nat, length: nat)

  function Grown(step: (nat, byte) -> nat, s: Sink, data: Bytes): Sink {
    Sink(s.bytes + data, Checksum(step, s.crc, data), s.length + |data|)
  }

  lemma GrownTwice(step: (nat, byte) -> nat, s: Sink, a: Bytes, b: Bytes)
    ensures Grown(step, Grown(step, s, a), b) == Grown(step, s, a + b)
  {
    ChecksumStreams(step, s.crc, a, b);
    assert s.bytes + a + b == s.bytes + (a + b);
  }

  lemma GrownNone(step: (nat, byte) -> nat, s: Sink)
    ensures Grown(step, s, []) == s
  {
  }

  /** Append bytes; fails when the payload length would not fit. */
  method WriteBytes(step: (nat, byte) -> nat, s: Sink, data: Bytes) returns (ok: bool, t: Sink)
    requires s.length < U64
    ensures ok <==> s.length + |data| < U64
    ensures ok ==> t == Grown(step, s, data)
  {
    t := Grown(step, s, data);
    ok := |data| <= U64 - 1 - s.length;
  }

  method WriteTexts(step: (nat, byte) -> nat, s: Sink, texts: seq<Bytes>) returns (ok: bool, t: Sink)
    requires s.length < U64
    ensures ok <==> s.length + |Concat(texts)| < U64
    ensures ok ==> t == Grown(step, s, Concat(texts))
  {
    hide Grown, Checksum;
    ok, t := true, s;
    GrownNone(step, s);
    for j := 0 to |texts|
      invariant ok && t == Grown(step, s, Concat(texts[..j])) && t.length == s.length + |Concat(texts[..j])| < U64
    {
      assert texts[..j + 1][..j] == texts[..j];
      GrownTwice(step, s, Concat(texts[..j]), texts[j]);
      ok, t := WriteBytes(step, t, texts[j]);
      GrownLength(step, s, Concat(texts[..j + 1]));
      if !ok {
        ConcatGrows(texts, j + 1);
        return;
      }
    }
    assert texts[..|texts|] == texts;
  }

  lemma GrownLength(step: (nat, byte) -> nat, s: Sink, data: Bytes)
    ensures Grown(step, s, data).length == s.length + |data|
  {
  }

  method WriteValues(step: (nat, byte) -> nat, s: Sink, values: seq<nat>) returns (ok: bool, t: Sink)
    requires s.length < U64
    ensures ok <==> s.length + 4 * |values| < U64
    ensures ok ==> t == Grown(step, s, EncodeValues(values))
  {
    hide Grown, Checksum, Put;
    ok, t := true, s;
    GrownNone(step, s);
    for j := 0 to |values|
      invariant ok && t == Grown(step, s, EncodeValues(values[..j])) && t.length == s.length + 4 * j < U64
    {
      assert values[..j + 1][..j] == values[..j];
      GrownTwice(step, s, EncodeValues(values[..j]), Put(values[j], 4));
      ok, t := WriteBytes(step, t, Put(values[j], 4));
      GrownLength(step, s, EncodeValues(values[..j + 1]));
      if !ok { return; }
    }
    assert values[..|values|] == values;
  }

  method WriteOperation(step: (nat, byte) -> nat, s: Sink, op: Operation) returns (ok: bool, t: Sink)
    requires s.length < U64 && Typed(op) && Writable(op)
    ensures ok <==> s.length + |EncodeOperation(op)| < U64
    ensures ok ==> t == Grown(step, s, EncodeOperation(op))
  {
    var record, texts, values := Layout(RecordFields(op), RecordWidths), TextsOf(op), ValuesOf(op);
    hide Grown, Checksum, Layout, Concat, RecordFields, TextsOf, ValuesOf;
    GrownTwice(step, s, record, Concat(texts));
    GrownTwice(step, s, record + Concat(texts), EncodeValues(values));
    GrownLength(step, s, record);
    GrownLength(step, s, record + Concat(texts));
    ok, t := WriteBytes(step, s, record);
    if ok { ok, t := WriteTexts(step, t, texts); }
    if ok { ok, t := WriteValues(step, t, values); }
  }

  /** Writing stops at operation i: everything in front of it was written, and it is refused or does not fit. */
  ghost predicate StopsAt(ops: seq<Operation>, i: nat) {
    && i < |ops| && AllTyped(ops[..i + 1]) && AllTyped(ops[..i]) && AllWritable(ops[..i]) && |EncodeAll(ops[..i])| < U64
    && (AllWritable(ops[..i + 1]) ==> |EncodeAll(ops[..i + 1])| >= U64)
  }

  /** The log's bytes, or why there are none: header last, over the space left for it at the front. */
  method WriteLog(step: (nat, byte) -> nat, base: nat, ops: seq<Operation>) returns (r: Result<Bytes>)
    requires AllTyped(ops) && base < U64
    ensures r.Ok? <==> ArgumentsOk(base, ops) && AllWritable(ops) && |EncodeAll(ops)| < U64
    ensures r.Ok? ==> r.value == Encode(step, base, ops)
    ensures !ArgumentsOk(base, ops) ==> r == Err(InvalidArgument)
    ensures r.Err? && ArgumentsOk(base, ops) ==>
      exists i: nat :: StopsAt(ops, i) && Typed(ops[i]) && r.error == if Writable(ops[i]) then OutOfRange else Fault(ops[i])
  {
    hide Grown, Checksum, EncodeAll, EncodeOperation, Typed, Writable, Header, Put, Encode, StopsAt, Fault;
    if |ops| == 0 || |ops| > MaxOperations || base == U64 - 1 {
      return Err(InvalidArgument);
    }
    ghost var start := Sink(Put(0, HeaderBytes), U32 - 1, 0);
    var s := Sink(Put(0, HeaderBytes), U32 - 1, 0);
    GrownNone(step, start);
    EncodeNone(ops[..0]);
    for i := 0 to |ops|
      invariant AllTyped(ops[..i]) && AllWritable(ops[..i])
      invariant s == Grown(step, start, EncodeAll(ops[..i])) && s.length == |EncodeAll(ops[..i])| < U64
    {
      var op := ops[i];
      assert Typed(op);
      var checked := CheckOperation(op);
      if checked.Err? {
        RefusedStops(ops, i);
        return Err(checked.error);
      }
      AppendOperation(step, start, ops, i);
      var ok;
      ok, s := WriteOperation(step, s, op);
      if !ok {
        OverflowStops(ops, i);
        return Err(OutOfRange);
      }
    }
    assert ops[..|ops|] == ops;
    Patched(step, start, base, ops);
    r := Ok(Header(base, |ops|, s.length, s.crc) + s.bytes[HeaderBytes..]);
  }

  lemma RefusedStops(ops: seq<Operation>, i: nat)
    requires AllTyped(ops) && i < |ops| && AllTyped(ops[..i]) && AllWritable(ops[..i]) && |EncodeAll(ops[..i])| < U64 && !Writable(ops[i])
    ensures !AllWritable(ops) && StopsAt(ops, i)
  {
    hide EncodeAll, Typed, Writable;
    assert ops[..i + 1][i] == ops[i];
  }

  lemma OverflowStops(ops: seq<Operation>, i: nat)
    requires AllTyped(ops) && i < |ops| && AllTyped(ops[..i]) && AllWritable(ops[..i]) && |EncodeAll(ops[..i])| < U64
    requires AllTyped(ops[..i + 1]) && AllWritable(ops[..i + 1]) && |EncodeAll(ops[..i + 1])| >= U64
    ensures StopsAt(ops, i) && (AllWritable(ops) ==> |EncodeAll(ops)| >= U64)
  {
    hide EncodeAll, Typed, Writable;
    if AllWritable(ops) { EncodeGrows(ops, i + 1); }
  }

  /** There is one such operation at most, so the error is determined. */
  lemma StopsOnce(ops: seq<Operation>, i: nat, j: nat)
    requires AllTyped(ops) && StopsAt(ops, i) && StopsAt(ops, j)
    ensures i == j
  {
    if i < j { NotPastStop(ops, i, j); } else if j < i { NotPastStop(ops, j, i); }
  }

  lemma NotPastStop(ops: seq<Operation>, i: nat, j: nat)
    requires AllTyped(ops) && StopsAt(ops, i) && i < j < |ops|
    ensures !StopsAt(ops, j)
  {
    hide EncodeAll, Typed, Writable;
    if AllTyped(ops[..j]) && AllWritable(ops[..j]) && |EncodeAll(ops[..j])| < U64 {
      var front := ops[..j];
      assert front[..i + 1] == ops[..i + 1];
      EncodeGrows(front, i + 1);
      assert false;
    }
  }

  lemma EncodeNone(ops: seq<Operation>)
    requires ops == []
    ensures AllTyped(ops) && AllWritable(ops) && EncodeAll(ops) == []
  {
  }

  lemma AppendOperation(step: (nat, byte) -> nat, start: Sink, ops: seq<Operation>, i: nat)
    requires i < |ops| && AllTyped(ops) && AllWritable(ops[..i]) && Writable(ops[i])
    ensures AllTyped(ops[..i + 1]) && AllWritable(ops[..i + 1])
    ensures EncodeAll(ops[..i + 1]) == EncodeAll(ops[..i]) + EncodeOperation(ops[i])
    ensures Grown(step, Grown(step, start, EncodeAll(ops[..i])), EncodeOperation(ops[i])) == Grown(step, start, EncodeAll(ops[..i + 1]))
    ensures Grown(step, start, EncodeAll(ops[..i + 1])).length == start.length + |EncodeAll(ops[..i + 1])|
  {
    hide Grown, Checksum, EncodeOperation, Typed, Writable;
    assert ops[..i + 1][..i] == ops[..i];
    GrownTwice(step, start, EncodeAll(ops[..i]), EncodeOperation(ops[i]));
    GrownLength(step, start, EncodeAll(ops[..i + 1]));
  }

  method CheckOperation(op: Operation) returns (r: Result<bool>)
    requires Typed(op)
    ensures r == if Writable(op) then Ok(true) else Err(Fault(op))
  {
    if op.texts[0].None? || (op.kind != Upsert && op.kind != Delete) {
      return Err(InvalidArgument);
    }
    if op.vectorCount != 0 && op.dimensions > (U64 - 1) / op.vectorCount {
      if op.vectorCount * op.dimensions <= U64 - 1 { QuotientBound(op.vectorCount, op.dimensions, U64 - 1); }
      return Err(OutOfRange);
    }
    if op.vectorCount != 0 { ProductBound(op.vectorCount, op.dimensions, U64 - 1); }
    if op.vectorCount * op.dimensions != 0 && op.vectors.None? {
      return Err(InvalidArgument);
    }
    return Ok(true);
  }

  lemma ProductBound(c: nat, d: nat, m: nat)
    requires c > 0 && d <= m / c
    ensures c * d <= m
  {
    Product(c, d, m / c);
  }

  lemma Patched(step: (nat, byte) -> nat, start: Sink, base: nat, ops: seq<Operation>)
    requires AllTyped(ops) && AllWritable(ops) && start == Sink(Put(0, HeaderBytes), U32 - 1, 0)
    ensures var s := Grown(step, start, EncodeAll(ops));
            |s.bytes| >= HeaderBytes && Header(base, |ops|, s.length, s.crc) + s.bytes[HeaderBytes..] == Encode(step, base, ops)
  {
    hide EncodeAll, Header, Checksum;
    var s := Grown(step, start, EncodeAll(ops));
    assert s.bytes[HeaderBytes..] == EncodeAll(ops);
  }

  lemma {:induction false} EncodeGrows(ops: seq<Operation>, n: nat)
    requires AllTyped(ops) && AllWritable(ops) && n <= |ops|
    ensures |EncodeAll(ops[..n])| <= |EncodeAll(ops)|
    decreases |ops| - n
  {
    hide EncodeOperation, Typed, Writable;
    if n == |ops| {
      assert ops[..n] == ops;
    } else {
      assert ops[..n + 1][..n] == ops[..n];
      EncodeGrows(ops, n + 1);
    }
  }

  // ---------------------------------------------------------------- reading as a stream

  /** The unread bytes with the running checksum and the payload bytes still expected. */
  datatype Source = Source(rest: Bytes, crc: nat, remaining: nat)

  /** t is s after reading some bytes, all of them fed to the checksum. */
  ghost predicate Advances(step: (nat, byte) -> nat, s: Source, t: Source) {
    && |t.rest| <= |s.rest| && t.remaining == |t.rest|
    && var n := |s.rest| - |t.rest|; t.rest == s.rest[n..] && t.crc == Checksum(step, s.crc, s.rest[..n])
  }

  lemma AdvancesTwice(step: (nat, byte) -> nat, s: Source, t: Source, u: Source)
    requires Advances(step, s, t) && Advances(step, t, u)
    ensures Advances(step, s, u)
  {
    var n, m := |s.rest| - |t.rest|, |t.rest| - |u.rest|;
    ChecksumStreams(step, s.crc, s.rest[..n], t.rest[..m]);
    assert s.rest[..n + m] == s.rest[..n] + t.rest[..m];
  }

  method ReadExact(step: (nat, byte) -> nat, s: Source, n: nat) returns (r: Result<Bytes>, t: Source)
    requires s.remaining == |s.rest|
    ensures r == if n > |s.rest| then Err(InvalidFormat) else Ok(s.rest[..n])
    ensures r.Ok? ==> Advances(step, s, t) && t.rest == s.rest[n..]
  {
    if n > s.remaining || n > |s.rest| {
      return Err(InvalidFormat), s;
    }
    t := Source(s.rest[n..], Checksum(step, s.crc, s.rest[..n]), s.remaining - n);
    r := Ok(s.rest[..n]);
  }

  function Prefixed<T>(xs: seq<T>, r: Result<Parsed<seq<T>>>): Result<Parsed<seq<T>>> {
    match r
    case Err(e) => Err(e)
    case Ok(p) => Ok(Parsed(xs + p.value, p.rest))
  }

  lemma PrefixedOne<T>(xs: seq<T>, x: T, r: Result<Parsed<seq<T>>>)
    ensures Prefixed(xs, Prefixed([x], r)) == Prefixed(xs + [x], r)
  {
    if r.Ok? { assert xs + ([x] + r.value.value) == xs + [x] + r.value.value; }
  }

  lemma PrefixedNone<T>(r: Result<Parsed<seq<T>>>)
    ensures Prefixed([], r) == r
  {
    if r.Ok? { assert [] + r.value.value == r.value.value; }
  }

  method ReadTexts(step: (nat, byte) -> nat, s: Source, lengths: seq<nat>) returns (r: Result<seq<Bytes>>, t: Source)
    requires s.remaining == |s.rest|
    ensures TakeTexts(s.rest, lengths) == if r.Err? then Err(r.error) else Ok(Parsed(r.value, t.rest))
    ensures r.Ok? ==> Advances(step, s, t)
  {
    hide Checksum;
    var texts: seq<Bytes> := [];
    t := s;
    ChecksumNone(step, s);
    PrefixedNone(TakeTexts(s.rest, lengths));
    assert lengths[0..] == lengths;
    for j := 0 to |lengths|
      invariant Advances(step, s, t) && TakeTexts(s.rest, lengths) == Prefixed(texts, TakeTexts(t.rest, lengths[j..]))
    {
      assert lengths[j..][0] == lengths[j] && lengths[j..][1..] == lengths[j + 1..];
      if lengths[j] > U64 - 2 {
        return Err(OutOfRange), t;
      }
      var text, u := ReadExact(step, t, lengths[j]);
      if text.Err? {
        return Err(text.error), u;
      }
      AdvancesTwice(step, s, t, u);
      PrefixedOne(texts, text.value, TakeTexts(u.rest, lengths[j + 1..]));
      assert TakeTexts(t.rest, lengths[j..]) == Prefixed([text.value], TakeTexts(u.rest, lengths[j + 1..]));
      texts, t := texts + [text.value], u;
    }
    assert texts + [] == texts;
    r := Ok(texts);
  }

  lemma ChecksumNone(step: (nat, byte) -> nat, s: Source)
    requires s.remaining == |s.rest|
    ensures Advances(step, s, s)
  {
    assert s.rest[..0] == [] && s.rest[0..] == s.rest;
  }

  method ReadValues(step: (nat, byte) -> nat, s: Source, n: nat) returns (r: Result<seq<nat>>, t: Source)
    requires s.remaining == |s.rest|
    ensures TakeValues(s.rest, n) == if r.Err? then Err(r.error) else Ok(Parsed(r.value, t.rest))
    ensures r.Ok? ==> Advances(step, s, t)
  {
    hide Checksum, Get;
    var values: seq<nat> := [];
    t := s;
    ChecksumNone(step, s);
    PrefixedNone(TakeValues(s.rest, n));
    for j := 0 to n
      invariant Advances(step, s, t) && TakeValues(s.rest, n) == Prefixed(values, TakeValues(t.rest, n - j))
    {
      var bits, u := ReadExact(step, t, 4);
      if bits.Err? {
        return Err(bits.error), u;
      }
      AdvancesTwice(step, s, t, u);
      PrefixedOne(values, Get(bits.value), TakeValues(u.rest, n - j - 1));
      assert TakeValues(t.rest, n - j) == Prefixed([Get(bits.value)], TakeValues(u.rest, n - j - 1));
      values, t := values + [Get(bits.value)], u;
    }
    assert values + [] == values;
    r := Ok(values);
  }

  method ReadOperation(step: (nat, byte) -> nat, s: Source) returns (r: Result<Operation>, t: Source)
    requires s.remaining == |s.rest|
    ensures DecodeOperation(s.rest) == if r.Err? then Err(r.error) else Ok(Parsed(r.value, t.rest))
    ensures r.Ok? ==> Advances(step, s, t)
  {
    hide Checksum, TakeTexts, TakeValues, Fields;
    RecordWidth();
    var record;
    record, t := ReadExact(step, s, RecordBytes);
    if record.Err? {
      return Err(record.error), t;
    }
    var f := Fields(record.value, RecordWidths);
    if (f[0] != Upsert && f[0] != Delete) || (f[3] != 0 && f[4] > (U64 - 1) / f[3]) {
      return Err(InvalidFormat), t;
    }
    var texts, u := ReadTexts(step, t, f[5..]);
    if texts.Err? {
      return Err(texts.error), u;
    }
    AdvancesTwice(step, s, t, u);
    if f[3] * f[4] > (U64 - 1) / 4 {
      return Err(OutOfRange), u;
    }
    var values, v := ReadValues(step, u, f[3] * f[4]);
    if values.Err? {
      return Err(values.error), v;
    }
    AdvancesTwice(step, s, u, v);
    var finished := Finish(f, texts.value, Parsed(values.value, v.rest));
    if finished.Err? {
      return Err(finished.error), v;
    }
    return Ok(finished.value.value), v;
  }

  method ReadPayload(step: (nat, byte) -> nat, f: seq<nat>, payload: Bytes) returns (r: Result<Log>)
    requires |f| == 7
    ensures r == DecodePayload(step, f, payload)
    ensures r.Ok? ==> |r.value.operations| == f[4]
  {
    hide Checksum, DecodeOperation, Complement;
    var start := Source(payload, U32 - 1, |payload|);
    var s, ops := start, [];
    ChecksumNone(step, s);
    PrefixedNone(DecodeAll(payload, f[4]));
    for i := 0 to f[4]
      invariant Advances(step, start, s) && |ops| == i
      invariant DecodeAll(payload, f[4]) == Prefixed(ops, DecodeAll(s.rest, f[4] - i))
    {
      var op, t := ReadOperation(step, s);
      if op.Err? {
        return Err(op.error);
      }
      AdvancesTwice(step, start, s, t);
      PrefixedOne(ops, op.value, DecodeAll(t.rest, f[4] - i - 1));
      assert DecodeAll(s.rest, f[4] - i) == Prefixed([op.value], DecodeAll(t.rest, f[4] - i - 1));
      ops, s := ops + [op.value], t;
    }
    assert ops + [] == ops;
    assert |s.rest| == 0 ==> payload[..|payload|] == payload;
    if s.remaining != 0 || Complement(s.crc) != f[6] {
      return Err(InvalidFormat);
    }
    r := Ok(Log(f[2], f[3], ops));
  }

  /** Loading reads the file once from front to back and decides what the specification decides. */
  method LoadLog(step: (nat, byte) -> nat, file: Bytes) returns (r: Result<Log>)
    ensures r == Decode(step, file)
    ensures r.Ok? ==> r.value.target == r.value.base + 1 && 0 < |r.value.operations| <= MaxOperations
  {
    hide DecodePayload, HeaderFieldsOf;
    if |file| < HeaderBytes {
      return Err(InvalidFormat);
    }
    var f := HeaderFieldsOf(file);
    if !HeaderOk(file[..8], f, |file| - HeaderBytes) {
      return Err(InvalidFormat);
    }
    r := ReadPayload(step, f, file[HeaderBytes..]);
    PayloadGenerations(step, f, file[HeaderBytes..]);
  }

  lemma PayloadGenerations(step: (nat, byte) -> nat, f: seq<nat>, payload: Bytes)
    requires |f| == 7
    ensures var r := DecodePayload(step, f, payload); r.Ok? ==> r.value.base == f[2] && r.value.target == f[3]
  {
  }
}
