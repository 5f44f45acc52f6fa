/** The log's file format said place by place: exactly the files that hold a log load, and damage does not. */
module UpdateLogFormat {
  import opened Common
  import opened LittleEndian
  import opened UpdateLog

  // ---------------------------------------------------------------- the format

  function PayloadOf(op: Operation): Bytes
    requires |op.texts| == 5
  {
    TextsOf(op)[0] + TextsOf(op)[1] + TextsOf(op)[2] + TextsOf(op)[3] + TextsOf(op)[4]
      + EncodeValues(if op.vectors.Some? then op.vectors.value else [])
  }

  /** What a reader can make of a record: known kind, a name, all texts there, vectors only when there are values. */
  ghost predicate Loadable(op: Operation) {
    && (op.kind == 1 || op.kind == 2) && |op.texts| == 5 && (forall j :: 0 <= j < 5 ==> op.texts[j].Some?)
    && |op.texts[0].value| > 0 && op.texts[0].value[0] != 0
    && (if op.vectorCount * op.dimensions == 0 then op.vectors.None?
        else op.vectors.Some? && |op.vectors.value| == op.vectorCount * op.dimensions)
    && (op.vectors.Some? ==> forall j :: 0 <= j < |op.vectors.value| ==> op.vectors.value[j] < U32)
  }

  /** A record: 72 bytes of numbers, the bytes 4 to 7 of which do not matter, then the texts and the values. */
  ghost predicate IsRecord(b: Bytes, op: Operation) {
    && |b| >= 72 && Loadable(op)
    && Get(b[0..4]) == op.kind && ToSigned(Get(b[8..16])) == op.updatedAt
    && Get(b[16..24]) == op.vectorCount && Get(b[24..32]) == op.dimensions
    && Get(b[32..40]) == |op.texts[0].value| && Get(b[40..48]) == |op.texts[1].value| && Get(b[48..56]) == |op.texts[2].value|
    && Get(b[56..64]) == |op.texts[3].value| && Get(b[64..72]) == |op.texts[4].value|
    && b[72..] == PayloadOf(op)
  }

  function SizeOf(op: Operation): nat
    requires |op.texts| == 5
  {
    72 + |PayloadOf(op)|
  }

  /** Records one after the other, with nothing between or behind them. */
  ghost predicate AreRecords(b: Bytes, ops: seq<Operation>)
    decreases |ops|
  {
    if |ops| == 0 then |b| == 0
    else |ops[0].texts| == 5 && SizeOf(ops[0]) <= |b| && IsRecord(b[..SizeOf(ops[0])], ops[0]) && AreRecords(b[SizeOf(ops[0])..], ops[1..])
  }

  /** A file that holds a log: 64 bytes of header, of which the last 12 do not matter, and the records. */
  ghost predicate IsLog(step: (nat, byte) -> nat, file: Bytes, log: Log) {
    && |file| >= 64
    && file[0..8] == [0x59, 0x41, 0x50, 0x57, 0x41, 0x4C, 0x32, 0x00]
    && Get(file[8..12]) == 1 && Get(file[12..16]) == 64
    && Get(file[16..24]) == log.base && Get(file[24..32]) == log.target == log.base + 1
    && Get(file[32..40]) == |log.operations| && 0 < |log.operations| <= 10000
    && Get(file[40..48]) == |file| - 64
    && Get(file[48..52]) == 0xFFFF_FFFF - Checksum(step, 0xFFFF_FFFF, file[64..]) % 0x1_0000_0000
    && AreRecords(file[64..], log.operations)
  }

  // ---------------------------------------------------------------- numbers at places

  lemma HeaderPlaces(file: Bytes)
    requires |file| >= 64
    ensures HeaderFieldsOf(file) == [Get(file[8..12]), Get(file[12..16]), Get(file[16..24]), Get(file[24..32]), Get(file[32..40]), Get(file[40..48]), Get(file[48..52])]
  {
    hide Fields, Width, Get;
    var b, w := file[8..64], HeaderWidths;
    HeaderWidth();
    Start(w);
    PlaceOf(b, w, 0, 0);
    PlaceOf(b, w, 1, 4);
    PlaceOf(b, w, 2, 8);
    PlaceOf(b, w, 3, 16);
    PlaceOf(b, w, 4, 24);
    PlaceOf(b, w, 5, 32);
    PlaceOf(b, w, 6, 40);
    Inner(file, 8, 64, 0, 4);
    Inner(file, 8, 64, 4, 8);
    Inner(file, 8, 64, 8, 16);
    Inner(file, 8, 64, 16, 24);
    Inner(file, 8, 64, 24, 32);
    Inner(file, 8, 64, 32, 40);
    Inner(file, 8, 64, 40, 44);
  }

  lemma RecordPlaces(b: Bytes)
    requires |b| >= 72
    ensures Width(RecordWidths) == 72
    ensures Fields(b[..72], RecordWidths) == [Get(b[0..4]), Get(b[4..8]), Get(b[8..16]), Get(b[16..24]), Get(b[24..32]), Get(b[32..40]), Get(b[40..48]), Get(b[48..56]), Get(b[56..64]), Get(b[64..72])]
  {
    hide Fields, Width, Get;
    RecordWidth();
    RecordFieldsOf(b[..72]);
    PlacesInside(b, 72);
  }

  lemma RecordFieldsOf(b: Bytes)
    requires |b| == 72 && Width(RecordWidths) == 72
    ensures Fields(b, RecordWidths) == [Get(b[0..4]), Get(b[4..8]), Get(b[8..16]), Get(b[16..24]), Get(b[24..32]), Get(b[32..40]), Get(b[40..48]), Get(b[48..56]), Get(b[56..64]), Get(b[64..72])]
  {
    hide Fields, Width, Get;
    var w := RecordWidths;
    Start(w);
    PlaceOf(b, w, 0, 0);
    PlaceOf(b, w, 1, 4);
    PlaceOf(b, w, 2, 8);
    PlaceOf(b, w, 3, 16);
    PlaceOf(b, w, 4, 24);
    PlaceOf(b, w, 5, 32);
    PlaceOf(b, w, 6, 40);
    PlaceOf(b, w, 7, 48);
    PlaceOf(b, w, 8, 56);
    PlaceOf(b, w, 9, 64);
  }

  // ---------------------------------------------------------------- texts and values

  lemma {:induction false} PutGet(b: Bytes)
    ensures Put(Get(b), |b|) == b
  {
    if |b| > 0 {
      PutGet(b[1..]);
      assert b == [b[0]] + b[1..];
    }
  }

  /** Taking texts of given lengths splits off exactly the texts of those lengths. */
  lemma {:induction false} TakesTexts(b: Bytes, lengths: seq<nat>)
    ensures TakeTexts(b, lengths).Ok? ==> var t := TakeTexts(b, lengths).value; Lengths(t.value) == lengths && b == Concat(t.value) + t.rest
  {
    hide Concat;
    if |lengths| == 0 {
      NoTexts(b);
    } else if TakeTexts(b, lengths).Ok? {
      var n := lengths[0];
      TakesTexts(b[n..], lengths[1..]);
      var more := TakeTexts(b[n..], lengths[1..]).value;
      OneMoreText(b, n, lengths, more.value, more.rest);
    }
  }

  lemma NoTexts(b: Bytes)
    ensures b == Concat([]) + b
  {
  }

  lemma LengthsBehind(texts: seq<Bytes>, more: seq<Bytes>, lengths: seq<nat>)
    requires |texts| == |more| + 1 == |lengths| && |texts[0]| == lengths[0] && texts[1..] == more && Lengths(more) == lengths[1..]
    ensures Lengths(texts) == lengths
  {
    forall i | 0 <= i < |lengths| ensures |texts[i]| == lengths[i] {
      if i > 0 {
        assert texts[i] == more[i - 1] && lengths[i] == lengths[1..][i - 1] == Lengths(more)[i - 1];
      }
    }
  }

  lemma OneMoreText(b: Bytes, n: nat, lengths: seq<nat>, more: seq<Bytes>, rest: Bytes)
    requires n <= |b| && b[n..] == Concat(more) + rest && |lengths| > 0 && lengths[0] == n && Lengths(more) == lengths[1..]
    ensures Lengths([b[..n]] + more) == lengths && b == Concat([b[..n]] + more) + rest
  {
    hide Concat;
    var texts := [b[..n]] + more;
    ConcatFirst(texts);
    assert texts[1..] == more;
    assert b == b[..n] + b[n..];
    LengthsBehind(texts, more, lengths);
  }

  lemma {:induction false} TakesValues(b: Bytes, n: nat)
    ensures TakeValues(b, n).Ok? ==> var v := TakeValues(b, n).value;
      |v.value| == n && b == EncodeValues(v.value) + v.rest && forall j :: 0 <= j < n ==> v.value[j] < U32
  {
    hide EncodeValues, Get;
    if n == 0 {
      NoValues(b);
    } else if TakeValues(b, n).Ok? {
      TakesValues(b[4..], n - 1);
      var more := TakeValues(b[4..], n - 1).value;
      OneMoreValue(b, more.value, more.rest);
    }
  }

  lemma NoValues(b: Bytes)
    ensures b == EncodeValues([]) + b
  {
  }

  lemma OneMoreValue(b: Bytes, more: seq<nat>, rest: Bytes)
    requires |b| >= 4 && b[4..] == EncodeValues(more) + rest
    ensures Get(b[..4]) < U32 && b == EncodeValues([Get(b[..4])] + more) + rest
  {
    hide EncodeValues, Get;
    var values := [Get(b[..4])] + more;
    ValuesFirst(values);
    assert values[1..] == more;
    PutGet(b[..4]);
    Widths();
    GetBound(b[..4]);
    assert b == b[..4] + b[4..];
  }

  lemma FiveTexts(t: seq<Bytes>)
    requires |t| == 5
    ensures Concat(t) == t[0] + t[1] + t[2] + t[3] + t[4]
  {
    ConcatOne(t[..1]);
    ConcatStep(t, 1);
    ConcatStep(t, 2);
    ConcatStep(t, 3);
    ConcatStep(t, 4);
    hide Concat;
    assert t[..5] == t;
  }

  lemma ConcatOne(t: seq<Bytes>)
    requires |t| == 1
    ensures Concat(t) == t[0]
  {
    assert t[..0] == [];
  }

  // ---------------------------------------------------------------- one record

  /** The numbers of a record, apart from the padding, as the operation says them. */
  ghost predicate NumbersOf(f: seq<nat>, op: Operation)
    requires |f| == 10
  {
    && |op.texts| == 5 && (forall j :: 0 <= j < 5 ==> op.texts[j].Some? && f[5 + j] == |op.texts[j].value|)
    && f[0] == op.kind && ToSigned(f[2]) == op.updatedAt && f[3] == op.vectorCount && f[4] == op.dimensions
  }

  lemma BodyLoaded(f: seq<nat>, body: Bytes)
    requires |f| == 10 && DecodeBody(f, body).Ok?
    ensures var p := DecodeBody(f, body).value; NumbersOf(f, p.value) && Loadable(p.value) && body == PayloadOf(p.value) + p.rest
  {
    hide TakeTexts, TakeValues, EncodeValues, Concat, TextsOf, PayloadOf;
    var op := DecodeBody(f, body).value.value;
    var texts := TakeTexts(body, f[5..]).value;
    TakesTexts(body, f[5..]);
    var values := TakeValues(texts.rest, f[3] * f[4]).value;
    TakesValues(texts.rest, f[3] * f[4]);
    assert |texts.value| == |Lengths(texts.value)| == 5;
    forall j | 0 <= j < 5 ensures |texts.value[j]| == f[5 + j] { assert Lengths(texts.value)[j] == f[5..][j]; }
    PayloadIs(op, texts.value, values.value);
    assert body == Concat(texts.value) + EncodeValues(values.value) + values.rest;
  }

  lemma PayloadIs(op: Operation, texts: seq<Bytes>, values: seq<nat>)
    requires |op.texts| == 5 && |texts| == 5 && forall j :: 0 <= j < 5 ==> op.texts[j] == Some(texts[j])
    requires values == if op.vectors.Some? then op.vectors.value else []
    ensures TextsOf(op) == texts && PayloadOf(op) == Concat(texts) + EncodeValues(values)
  {
    hide Concat, EncodeValues;
    FiveTexts(texts);
  }

  /** A record that loads has the form of one, and its size is what the reader consumed. */
  lemma LoadedIsRecord(b: Bytes)
    requires DecodeOperation(b).Ok?
    ensures var p := DecodeOperation(b).value;
      |p.value.texts| == 5 && SizeOf(p.value) <= |b| && IsRecord(b[..SizeOf(p.value)], p.value) && p.rest == b[SizeOf(p.value)..]
  {
    hide Fields, DecodeBody, PayloadOf, Get, Loadable, RecordWidths;
    RecordPlaces(b);
    var p := DecodeOperation(b).value;
    BodyLoaded(Fields(b[..72], RecordWidths), b[72..]);
    SplitBody(b, PayloadOf(p.value), p.rest);
    PlacesInside(b, SizeOf(p.value));
  }

  lemma SplitBody(b: Bytes, payload: Bytes, rest: Bytes)
    requires |b| >= 72 && b[72..] == payload + rest
    ensures 72 + |payload| <= |b| && b[..72 + |payload|][72..] == payload && b[72 + |payload|..] == rest
  {
  }

  lemma PlacesInside(b: Bytes, n: nat)
    requires 72 <= n <= |b|
    ensures forall i, j :: 0 <= i <= j <= 72 ==> b[..n][i..j] == b[i..j]
  {
  }

  lemma BodyLoads(f: seq<nat>, op: Operation, rest: Bytes)
    requires |f| == 10 && |op.texts| == 5 && NumbersOf(f, op) && Loadable(op) && 72 + |PayloadOf(op) + rest| < U64
    ensures DecodeBody(f, PayloadOf(op) + rest) == Ok(Parsed(op, rest))
  {
    var texts, values := TextsOf(op), if op.vectors.Some? then op.vectors.value else [];
    hide TakeTexts, TakeValues, EncodeValues, Concat, PayloadOf, TextsOf;
    NamesOf(op);
    PayloadIs(op, texts, values);
    Regroup(Concat(texts), EncodeValues(values), rest);
    forall j | 0 <= j < 5 ensures |texts[j]| < U64 - 1 { ShortTexts(op, j); }
    forall j | 0 <= j < 5 ensures |texts[j]| == f[5..][j] {}
    assert f[5..] == Lengths(texts);
    TextsRoundTrip(texts, EncodeValues(values) + rest);
    ValuesRoundTrip(values, rest);
    assert |values| == f[3] * f[4];
    if f[3] > 0 { QuotientBound(f[3], f[4], U64 - 1); }
    assert op.texts == seq(5, j requires 0 <= j < 5 => Some(texts[j]));
  }

  lemma Regroup(a: Bytes, b: Bytes, c: Bytes)
    ensures a + b + c == a + (b + c)
  {
  }

  lemma NamesOf(op: Operation)
    requires |op.texts| == 5 && forall j :: 0 <= j < 5 ==> op.texts[j].Some?
    ensures forall j :: 0 <= j < 5 ==> op.texts[j] == Some(TextsOf(op)[j])
  {
  }

  lemma ShortTexts(op: Operation, j: nat)
    requires |op.texts| == 5 && j < 5
    ensures |TextsOf(op)[j]| <= |PayloadOf(op)|
  {
    hide EncodeValues;
  }

  /** Whatever has the form of a record loads as it. */
  lemma RecordLoads(b: Bytes, op: Operation)
    requires |op.texts| == 5 && SizeOf(op) <= |b| < U64 && IsRecord(b[..SizeOf(op)], op)
    ensures DecodeOperation(b) == Ok(Parsed(op, b[SizeOf(op)..]))
  {
    hide Fields, DecodeBody, PayloadOf, Get, RecordWidths;
    PlacesInside(b, SizeOf(op));
    RecordPlaces(b);
    var rest := b[SizeOf(op)..];
    assert b[..SizeOf(op)][72..] == PayloadOf(op);
    assert b[72..] == PayloadOf(op) + rest;
    BodyLoads(Fields(b[..72], RecordWidths), op, rest);
  }

  // ---------------------------------------------------------------- the whole file

  lemma {:induction false} LoadedAreRecords(b: Bytes, n: nat)
    requires DecodeAll(b, n).Ok? && |DecodeAll(b, n).value.rest| == 0
    ensures AreRecords(b, DecodeAll(b, n).value.value) && |DecodeAll(b, n).value.value| == n
    decreases n
  {
    hide DecodeOperation, IsRecord, SizeOf;
    if n > 0 {
      LoadedIsRecord(b);
      var first := DecodeOperation(b).value;
      LoadedAreRecords(first.rest, n - 1);
      var ops, more := DecodeAll(b, n).value.value, DecodeAll(first.rest, n - 1).value.value;
      assert ops[0] == first.value && ops[1..] == more;
    }
  }

  lemma {:induction false} RecordsLoad(b: Bytes, ops: seq<Operation>)
    requires AreRecords(b, ops) && |b| < U64
    ensures DecodeAll(b, |ops|) == Ok(Parsed(ops, []))
    decreases |ops|
  {
    hide DecodeOperation, IsRecord, SizeOf;
    if |ops| > 0 {
      RecordLoads(b, ops[0]);
      RecordsLoad(b[SizeOf(ops[0])..], ops[1..]);
      assert ops == [ops[0]] + ops[1..];
    }
  }

  /** A file loads exactly when it holds a log, and then as the log it holds. */
  lemma LoadsExactly(step: (nat, byte) -> nat, file: Bytes, log: Log)
    ensures Decode(step, file) == Ok(log) <==> IsLog(step, file, log)
  {
    hide DecodeAll, AreRecords, Checksum, Get, HeaderFieldsOf;
    if |file| >= 64 {
      HeaderPlaces(file);
      Bounded(file);
      assert file[0..8] == file[..8];
      var payload := file[64..];
      if Decode(step, file) == Ok(log) {
        LoadedAreRecords(payload, HeaderFieldsOf(file)[4]);
      }
      if IsLog(step, file, log) {
        RecordsLoad(payload, log.operations);
      }
    }
  }

  /** Stored 64-bit numbers are below 2^64. */
  lemma Bounded(file: Bytes)
    requires |file| >= 64
    ensures Get(file[16..24]) < U64 && Get(file[24..32]) < U64 && Get(file[40..48]) < U64
  {
    hide Get;
    Widths();
    GetBound(file[16..24]);
    GetBound(file[24..32]);
    GetBound(file[40..48]);
  }

  predicate ZeroPadding(record: Bytes) {
    |record| >= 8 && record[4..8] == [0, 0, 0, 0]
  }

  /** What the writer writes is a log in this form, with zeros where the format leaves bytes open. */
  lemma WrittenIsLog(step: (nat, byte) -> nat, base: nat, ops: seq<Operation>)
    requires ArgumentsOk(base, ops) && AllTyped(ops) && AllWritable(ops) && |EncodeAll(ops)| < U64 && Named(ops)
    ensures IsLog(step, Encode(step, base, ops), Log(base, base + 1, Normals(ops)))
    ensures forall i :: 52 <= i < 64 ==> Encode(step, base, ops)[i] == 0
    ensures forall k :: 0 <= k < |ops| ==> ZeroPadding(EncodeOperation(ops[k]))
  {
    hide Normals, Header, EncodeAll, Decode, IsLog, AllTyped, AllWritable, Named;
    LogRoundTrip(step, base, ops);
    LoadsExactly(step, Encode(step, base, ops), Log(base, base + 1, Normals(ops)));
    var payload := EncodeAll(ops);
    HeaderLength(base, |ops|, |payload|, Checksum(step, U32 - 1, payload));
    ReservedZero(base, |ops|, |payload|, Checksum(step, U32 - 1, payload));
    PaddingsZero(ops);
  }

  lemma PaddingsZero(ops: seq<Operation>)
    requires AllTyped(ops) && AllWritable(ops)
    ensures forall k :: 0 <= k < |ops| ==> ZeroPadding(EncodeOperation(ops[k]))
  {
    hide EncodeOperation, Typed, Writable, ZeroPadding;
    forall k | 0 <= k < |ops| ensures ZeroPadding(EncodeOperation(ops[k])) { PaddingZero(ops[k]); }
  }

  lemma PaddingZero(op: Operation)
    requires Typed(op) && Writable(op)
    ensures ZeroPadding(EncodeOperation(op))
  {
    var f := RecordFields(op);
    hide Typed, Writable, Lengths, Concat, EncodeValues, Put, TextsOf, ValuesOf, ToUnsigned, Layout;
    PutSecond(f);
    ZeroBytes(4);
  }

  /** The second number of a record stands behind the four bytes of the first. */
  lemma PutSecond(f: seq<nat>)
    requires |f| == 10
    ensures |Layout(f, RecordWidths)| >= 8 && Layout(f, RecordWidths)[4..8] == Put(f[1], 4)
  {
    hide Put;
    var w := RecordWidths;
    var behind := Layout(f[1..], w[1..]);
    assert Layout(f, w) == Put(f[0], 4) + behind;
    assert behind == Put(f[1..][0], 4) + Layout(f[1..][1..], w[1..][1..]);
  }

  lemma ReservedZero(base: nat, count: nat, payload: nat, crc: nat)
    ensures |Header(base, count, payload, crc)| == 64 && forall i :: 52 <= i < 64 ==> Header(base, count, payload, crc)[i] == 0
  {
    hide Layout, Width, Complement;
    HeaderWidth();
    ZeroBytes(12);
  }

  lemma {:induction false} ZeroBytes(n: nat)
    ensures forall i :: 0 <= i < n ==> Put(0, n)[i] == 0
  {
    if n > 0 { ZeroBytes(n - 1); }
  }

  // ---------------------------------------------------------------- damage

  /** With the header of a written log, bytes of another checksum are refused, whatever else they are. */
  lemma DamageRefused(step: (nat, byte) -> nat, base: nat, ops: seq<Operation>, file: Bytes)
    requires ArgumentsOk(base, ops) && AllTyped(ops) && AllWritable(ops) && |EncodeAll(ops)| < U64
    requires |file| >= 64 && file[..64] == Encode(step, base, ops)[..64]
    requires Checksum(step, 0xFFFF_FFFF, file[64..]) % 0x1_0000_0000 != Checksum(step, 0xFFFF_FFFF, EncodeAll(ops)) % 0x1_0000_0000
    ensures Decode(step, file).Err?
  {
    hide EncodeAll, DecodeAll, Checksum, HeaderFieldsOf, AllTyped, AllWritable, Header;
    var payload := EncodeAll(ops);
    var crc := Checksum(step, U32 - 1, payload);
    HeaderLength(base, |ops|, |payload|, crc);
    HeadAndTail(Header(base, |ops|, |payload|, crc), payload);
    HeaderFields(base, |ops|, |payload|, crc, file);
  }

  /** Different bytes after one state, and different states before one byte, lead to different states. */
  ghost predicate Separates(step: (nat, byte) -> nat) {
    && (forall c: nat, x: byte, y: byte :: x != y ==> step(c, x) % U32 != step(c, y) % U32)
    && (forall c: nat, d: nat, x: byte :: c % U32 != d % U32 ==> step(c, x) % U32 != step(d, x) % U32)
  }

  lemma {:induction false} StatesStayApart(step: (nat, byte) -> nat, c: nat, d: nat, b: Bytes)
    requires Separates(step) && c % U32 != d % U32
    ensures Checksum(step, c, b) % U32 != Checksum(step, d, b) % U32
    decreases |b|
  {
    if |b| > 0 { StatesStayApart(step, step(c, b[0]), step(d, b[0]), b[1..]); }
  }

  lemma OneByteSeparates(step: (nat, byte) -> nat, start: nat, b: Bytes, i: nat, x: byte)
    requires Separates(step) && i < |b| && x != b[i]
    ensures Checksum(step, start, b[i := x]) % U32 != Checksum(step, start, b) % U32
  {
    var front, behind := b[..i], b[i + 1..];
    assert b == front + ([b[i]] + behind) && b[i := x] == front + ([x] + behind);
    var c := Checksum(step, start, front);
    ChecksumStreams(step, start, front, [b[i]] + behind);
    ChecksumStreams(step, start, front, [x] + behind);
    assert ([b[i]] + behind)[1..] == behind && ([x] + behind)[1..] == behind;
    StatesStayApart(step, step(c, b[i]), step(c, x), behind);
  }

  /** One changed byte behind the header of a written log is enough: it no longer loads. */
  lemma ChangedByteRefused(step: (nat, byte) -> nat, base: nat, ops: seq<Operation>, i: nat, x: byte)
    requires Separates(step) && ArgumentsOk(base, ops) && AllTyped(ops) && AllWritable(ops) && |EncodeAll(ops)| < U64
    requires 64 <= i < |Encode(step, base, ops)| && x != Encode(step, base, ops)[i]
    ensures Decode(step, Encode(step, base, ops)[i := x]).Err?
  {
    hide EncodeAll, Checksum, AllTyped, AllWritable, Header, Decode, Separates;
    var file, payload := Encode(step, base, ops), EncodeAll(ops);
    HeaderLength(base, |ops|, |payload|, Checksum(step, U32 - 1, payload));
    HeadAndTail(Header(base, |ops|, |payload|, Checksum(step, U32 - 1, payload)), payload);
    var damaged := file[i := x];
    assert damaged[..64] == file[..64] && damaged[64..] == payload[i - 64 := x];
    OneByteSeparates(step, U32 - 1, payload, i - 64, x);
    DamageRefused(step, base, ops, damaged);
  }
}
