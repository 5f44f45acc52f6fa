/** Reading the three payloads back: term stream, postings, blocks and positions by offset. */
module LexicalReader {
  import opened Common
  import opened ByteOrder
  import opened LittleEndian
  import opened Bm25
  import opened LexicalGroups
  import opened LexicalFormat

  /** Bytes a term entry takes in memory; it limits how many a reader will load. */
  const EntryMemory: nat := 56

  datatype Entry = Entry(term: Bytes, frequency: nat, postingsAt: nat, postingsBytes: nat, positionsAt: nat, positionsBytes: nat)

  // ---------------------------------------------------------------- the term stream

  function ReadTerms(b: Bytes): Result<seq<Entry>> {
    RecordWidths();
    if |b| < 12 || Fields(b[..12], CountWidths)[0] != PayloadVersion then Err(InvalidFormat)
    else if Fields(b[..12], CountWidths)[1] > 0x1000_0000 / 56 then Err(OutOfRange)
    else ReadEntries(b[12..], Fields(b[..12], CountWidths)[1], None)
  }

  function EntryFrom(term: Bytes, f: seq<nat>): Entry
    requires |f| == 5
  {
    Entry(term, f[0], f[1], f[2], f[3], f[4])
  }

  /** Terms must be non-empty, strictly increasing, have postings, and fill the stream exactly. */
  function ReadEntries(b: Bytes, n: nat, previous: Option<Bytes>): Result<seq<Entry>>
    decreases n
  {
    RecordWidths();
    if n == 0 then if |b| == 0 then Ok([]) else Err(InvalidFormat)
    else if |b| < 4 || Get(b[..4]) == 0 || |b| - 4 < Get(b[..4]) + 40 then Err(InvalidFormat)
    else
      var length := Get(b[..4]);
      var term, f := b[4..4 + length], Fields(b[4 + length..44 + length], EntryWidths);
      if f[0] == 0 || (previous.Some? && !Less(previous.value, term)) then Err(InvalidFormat)
      else
        match ReadEntries(b[44 + length..], n - 1, Some(term))
        case Err(e) => Err(e)
        case Ok(more) => Ok([EntryFrom(term, f)] + more)
  }

  function EntryOf(gs: seq<Group>, k: nat): Entry
    requires SizedGroups(gs) && k < |gs|
  {
    EntryFrom(gs[k].term, EntryFields(gs, k))
  }

  function Entries(gs: seq<Group>): (r: seq<Entry>)
    requires SizedGroups(gs)
    ensures |r| == |gs| && forall k :: 0 <= k < |gs| ==> r[k] == EntryOf(gs, k)
  {
    seq(|gs|, k requires 0 <= k < |gs| => EntryOf(gs, k))
  }

  predicate EntryFits(gs: seq<Group>, k: nat)
    requires SizedGroups(gs) && k < |gs|
  {
    0 < |gs[k].term| < U32 && Fit(EntryFields(gs, k), EntryWidths)
  }

  lemma EntrySplit(gs: seq<Group>, k: nat, tail: Bytes)
    requires SizedGroups(gs) && k < |gs| && EntryFits(gs, k)
    ensures var b, n := EntryRow(gs, k) + tail, |gs[k].term|;
      && |b| >= 44 + n && Get(b[..4]) == n && b[4..4 + n] == gs[k].term && b[44 + n..] == tail
      && Width(EntryWidths) == 40 && Fields(b[4 + n..44 + n], EntryWidths) == EntryFields(gs, k)
  {
    hide EntryFields, Layout, Put, Fields, Get, Width, Fit, SizedGroups;
    var n, f := |gs[k].term|, EntryFields(gs, k);
    RecordWidths();
    RoundTrip32(n);
    ReadBack(f, EntryWidths);
    SplitEntry(Put(n, 4), gs[k].term, Layout(f, EntryWidths), tail);
  }

  lemma ReadBack(values: seq<nat>, widths: seq<nat>)
    requires Fit(values, widths)
    ensures Fields(Layout(values, widths), widths) == values
  {
    FieldsLayout(values, widths, []);
    assert Layout(values, widths) + [] == Layout(values, widths);
  }

  lemma SplitEntry(length: Bytes, term: Bytes, fields: Bytes, tail: Bytes)
    requires |length| == 4 && |fields| == 40
    ensures var b, n := length + term + fields + tail, |term|;
      b[..4] == length && b[4..4 + n] == term && b[4 + n..44 + n] == fields && b[44 + n..] == tail
  {
  }

  predicate AllEntriesFit(gs: seq<Group>)
    requires SizedGroups(gs)
  {
    forall k :: 0 <= k < |gs| ==> EntryFits(gs, k) && |gs[k].postings| > 0
  }

  predicate TermsIncrease(gs: seq<Group>) {
    forall i, j :: 0 <= i < j < |gs| ==> Less(gs[i].term, gs[j].term)
  }

  lemma {:induction false} EntriesRoundTrip(gs: seq<Group>, k: nat)
    requires SizedGroups(gs) && k <= |gs| && AllEntriesFit(gs) && TermsIncrease(gs)
    ensures ReadEntries(Concat(EntryRows(gs)[k..]), |gs| - k, if k == 0 then None else Some(gs[k - 1].term)) == Ok(Entries(gs)[k..])
    decreases |gs| - k
  {
    hide EntryRow, EntryFields, Fields, Get, Less, SizedPostings, EntryFits, Concat, EntryRows;
    if k < |gs| {
      var rows := EntryRows(gs);
      EntryRowCount(gs);
      ConcatFirst(rows[k..]);
      assert rows[k..][1..] == rows[k + 1..];
      EntriesRoundTrip(gs, k + 1);
      EntrySplit(gs, k, Concat(rows[k + 1..]));
      EntryFrequency(gs, k);
      assert k > 0 ==> Less(gs[k - 1].term, gs[k].term);
      assert Entries(gs)[k..] == [EntryOf(gs, k)] + Entries(gs)[k + 1..];
    } else {
      EntryRowCount(gs);
      ConcatEnds(EntryRows(gs));
      assert EntryRows(gs)[k..] == EntryRows(gs)[..0] && Entries(gs)[k..] == [];
    }
  }

  lemma EntryRowCount(gs: seq<Group>)
    requires SizedGroups(gs)
    ensures |EntryRows(gs)| == |gs| && forall k :: 0 <= k < |gs| ==> EntryRows(gs)[k] == EntryRow(gs, k)
  {
    hide EntryRow;
  }

  lemma EntryFrequency(gs: seq<Group>, k: nat)
    requires SizedGroups(gs) && k < |gs| && EntryFits(gs, k)
    ensures EntryFields(gs, k)[0] == |gs[k].postings| > 0 && |gs[k].term| > 0
  {
    hide TermPostings, TermPositions, PostingsStart, PositionsStart, Fit;
    assert SizedPostings(gs[k].postings);
  }

  lemma CountFields(n: nat, tail: Bytes)
    requires n < U64
    ensures Width(CountWidths) == 12 && (CountHeader(n) + tail)[..12] == CountHeader(n) && (CountHeader(n) + tail)[12..] == tail
    ensures Fields(CountHeader(n), CountWidths) == [PayloadVersion, n]
  {
    RecordWidths();
    Widths();
    assert Fit([PayloadVersion, n], CountWidths);
    FieldsLayout([PayloadVersion, n], CountWidths, []);
    hide Layout, Fields, Width, Fit;
    assert Layout([PayloadVersion, n], CountWidths) + [] == CountHeader(n);
  }

  /** The term stream of a built segment is accepted and gives back every term with its offsets. */
  lemma TermsRoundTrip(gs: seq<Group>, t: Totals)
    requires SizedGroups(gs) && |t.tokens| == 3 && AllEntriesFit(gs) && TermsIncrease(gs) && |gs| <= MaxPayload / EntryMemory
    ensures ReadTerms(Built(gs, t).terms) == Ok(Entries(gs))
  {
    hide EntryRows, ReadEntries, CountHeader, PostingParts, PositionParts, Fields, Width, SizedGroups, AllEntriesFit, TermsIncrease, Entries;
    CountFields(|gs|, Concat(EntryRows(gs)));
    EntriesRoundTrip(gs, 0);
    assert EntryRows(gs)[0..] == EntryRows(gs) && Entries(gs)[0..] == Entries(gs);
  }

  // ---------------------------------------------------------------- records by offset

  /** A posting record as stored, with the place of its positions. */
  datatype Stored = Stored(objectType: nat, ordinal: nat, tf: seq<nat>, length: seq<nat>, offset: nat, count: nat)

  predicate PostingInRange(seg: Payloads, e: Entry, i: nat) {
    e.postingsAt + 20 + 48 * i + 48 <= |seg.postings|
  }

  function StoredAt(seg: Payloads, e: Entry, i: nat): (r: Stored)
    requires PostingInRange(seg, e, i)
    ensures |r.tf| == 3 && |r.length| == 3
  {
    PostingWidth();
    var at := e.postingsAt + 20 + 48 * i;
    var f := Fields(seg.postings[at..at + 48], PostingWidths);
    Stored(f[0], f[1], [f[2], f[3], f[4]], [f[5], f[6], f[7]], f[8], f[9])
  }

  predicate PositionInRange(seg: Payloads, e: Entry, j: nat) {
    e.positionsAt + 16 + 8 * j + 8 <= |seg.positions|
  }

  function PositionAt(seg: Payloads, e: Entry, j: nat): Position
    requires PositionInRange(seg, e, j)
  {
    RecordWidths();
    var at := e.positionsAt + 16 + 8 * j;
    var f := Fields(seg.positions[at..at + 8], PositionWidths);
    Position(f[0], f[1])
  }

  predicate RunInRange(seg: Payloads, e: Entry, s: Stored) {
    e.positionsAt + 16 + 8 * (s.offset + s.count) <= |seg.positions|
  }

  /** A posting with the positions it points at. */
  function PostingAt(seg: Payloads, e: Entry, i: nat): Posting
    requires PostingInRange(seg, e, i)
    requires RunInRange(seg, e, StoredAt(seg, e, i))
  {
    var s := StoredAt(seg, e, i);
    Posting(s.objectType, s.ordinal, s.tf, s.length,
            seq(s.count, j requires 0 <= j < s.count => PositionAt(seg, e, s.offset + j)))
  }

  predicate BlockInRange(seg: Payloads, e: Entry, b: nat) {
    e.postingsAt + 20 + 48 * e.frequency + 16 * b + 16 <= |seg.postings|
  }

  function BlockAt(seg: Payloads, e: Entry, b: nat): (r: seq<nat>)
    requires BlockInRange(seg, e, b)
    ensures |r| == 4
  {
    RecordWidths();
    var at := e.postingsAt + 20 + 48 * e.frequency + 16 * b;
    Fields(seg.postings[at..at + 16], BlockWidths)
  }

  // ---------------------------------------------------------------- records of a built segment

  lemma SliceOfSlice(b: Bytes, at: nat, part: Bytes, x: nat, y: nat)
    requires at + |part| <= |b| && b[at..at + |part|] == part && x <= y <= |part|
    ensures b[at + x..at + y] == part[x..y]
  {
    forall j | 0 <= j < y - x ensures b[at + x..at + y][j] == part[x..y][j] {
      assert b[at..at + |part|][x + j] == part[x + j];
    }
  }

  /** A term's part of the postings payload starts where its entry says. */
  lemma PostingsPart(gs: seq<Group>, t: Totals, k: nat)
    requires SizedGroups(gs) && |t.tokens| == 3 && k < |gs|
    ensures var at, part := PostingsStart(gs, k), TermPostings(k, gs[k].postings);
            at + |part| <= |Built(gs, t).postings| && Built(gs, t).postings[at..at + |part|] == part
  {
    hide TotalHeader, Concat, TermPostings, EntryRows, PositionParts, CountHeader;
    ConcatSlice(TotalHeader(t, PostingTotal(gs)), PostingParts(gs), [], k);
    NoTail(TotalHeader(t, PostingTotal(gs)) + Concat(PostingParts(gs)));
  }

  lemma NoTail(b: Bytes)
    ensures b + [] == b
  {
  }

  lemma PositionsPart(gs: seq<Group>, t: Totals, k: nat)
    requires SizedGroups(gs) && |t.tokens| == 3 && k < |gs|
    ensures var at, part := PositionsStart(gs, k), TermPositions(k, gs[k].postings);
            at + |part| <= |Built(gs, t).positions| && Built(gs, t).positions[at..at + |part|] == part
  {
    hide TotalHeader, Concat, TermPositions, EntryRows, PostingParts, CountHeader;
    ConcatSlice(CountHeader(PositionTotal(gs)), PositionParts(gs), [], k);
    NoTail(CountHeader(PositionTotal(gs)) + Concat(PositionParts(gs)));
  }

  /** Numbers of a posting fit their fields. */
  predicate PostingFits(p: Posting, offset: nat)
    requires Sized(p)
  {
    Fit(PostingFields(p, offset), PostingWidths)
  }

  lemma PostingRowIn(ps: seq<Posting>, k: nat, i: nat)
    requires SizedPostings(ps) && i < |ps|
    ensures 68 + 48 * i <= |TermPostings(k, ps)| && TermPostings(k, ps)[20 + 48 * i..68 + 48 * i] == PostingRow(ps[i], |AllPositions(ps[..i])|)
  {
    hide PostingRow, BlockRow, Concat, AllPositions;
    RowAt(ListHeader(k, |ps|), PostingRows(ps), Concat(BlockRows(ps)), 48, i);
  }

  lemma BlockRowIn(ps: seq<Posting>, k: nat, b: nat)
    requires SizedPostings(ps) && b < Blocks(|ps|)
    ensures var at := 20 + 48 * |ps| + 16 * b; at + 16 <= |TermPostings(k, ps)| && TermPostings(k, ps)[at..at + 16] == BlockRow(ps, b)
  {
    hide PostingRow, BlockRow, Concat, AllPositions;
    ConcatRows(PostingRows(ps), 48);
    RowAt(ListHeader(k, |ps|) + Concat(PostingRows(ps)), BlockRows(ps), [], 16, b);
    NoTail(ListHeader(k, |ps|) + Concat(PostingRows(ps)) + Concat(BlockRows(ps)));
  }

  lemma PositionRowIn(ps: seq<Posting>, k: nat, j: nat)
    requires j < |AllPositions(ps)|
    ensures 24 + 8 * j <= |TermPositions(k, ps)| && TermPositions(k, ps)[16 + 8 * j..24 + 8 * j] == PositionRow(AllPositions(ps)[j])
  {
    hide PositionRow, Concat, AllPositions;
    RowAt(RunHeader(k, |AllPositions(ps)|), PositionRows(AllPositions(ps)), [], 8, j);
    NoTail(RunHeader(k, |AllPositions(ps)|) + Concat(PositionRows(AllPositions(ps))));
  }

  lemma EntryPlaces(gs: seq<Group>, k: nat)
    requires SizedGroups(gs) && k < |gs|
    ensures var e := EntryOf(gs, k);
      && e.term == gs[k].term && e.frequency == |gs[k].postings|
      && e.postingsAt == PostingsStart(gs, k) && e.postingsBytes == |TermPostings(k, gs[k].postings)|
      && e.positionsAt == PositionsStart(gs, k) && e.positionsBytes == |TermPositions(k, gs[k].postings)|
  {
    hide TermPostings, TermPositions, PostingsStart, PositionsStart;
  }

  /** The posting record read by offset is the one written. */
  lemma StoredIsWritten(gs: seq<Group>, t: Totals, k: nat, i: nat)
    requires SizedGroups(gs) && |t.tokens| == 3 && k < |gs| && i < |gs[k].postings|
    requires PostingFits(gs[k].postings[i], |AllPositions(gs[k].postings[..i])|)
    ensures var seg, e, p := Built(gs, t), EntryOf(gs, k), gs[k].postings[i];
      && PostingInRange(seg, e, i)
      && StoredAt(seg, e, i) == Stored(p.objectType, p.ordinal, p.tf, p.length, |AllPositions(gs[k].postings[..i])|, |p.positions|)
  {
    hide TermPostings, TermPositions, PostingsStart, PositionsStart, Built, EntryOf, Fields, Layout, AllPositions, Width, Fit, SizedGroups;
    var ps := gs[k].postings;
    var p, offset := ps[i], |AllPositions(ps[..i])|;
    assert SizedPostings(ps) by { SizedAt(gs, k); }
    PostingsPart(gs, t, k);
    PostingRowIn(ps, k, i);
    EntryPlaces(gs, k);
    SliceOfSlice(Built(gs, t).postings, PostingsStart(gs, k), TermPostings(k, ps), 20 + 48 * i, 68 + 48 * i);
    ReadBack(PostingFields(p, offset), PostingWidths);
    assert p.tf == [p.tf[0], p.tf[1], p.tf[2]] && p.length == [p.length[0], p.length[1], p.length[2]];
  }

  lemma SizedAt(gs: seq<Group>, k: nat)
    requires SizedGroups(gs) && k < |gs|
    ensures SizedPostings(gs[k].postings)
  {
  }

  /** A posting's own positions lie at its offset among all positions of the term. */
  lemma {:induction false} AllPositionsAt(ps: seq<Posting>, i: nat, j: nat)
    requires i < |ps| && j < |ps[i].positions|
    ensures |AllPositions(ps[..i])| + |ps[i].positions| <= |AllPositions(ps)|
    ensures AllPositions(ps)[|AllPositions(ps[..i])| + j] == ps[i].positions[j]
  {
    var init := ps[..|ps| - 1];
    if i < |ps| - 1 {
      AllPositionsAt(init, i, j);
      assert init[..i] == ps[..i];
    }
  }

  lemma {:induction false} AllPositionsBound(ps: seq<Posting>, i: nat)
    requires i < |ps|
    ensures |AllPositions(ps[..i])| + |ps[i].positions| <= |AllPositions(ps)|
  {
    var init := ps[..|ps| - 1];
    if i < |ps| - 1 {
      AllPositionsBound(init, i);
      assert init[..i] == ps[..i];
    }
  }

  predicate PositionFits(p: Position) {
    p.field < U32 && p.position < U32
  }

  lemma PositionIsWritten(gs: seq<Group>, t: Totals, k: nat, j: nat)
    requires SizedGroups(gs) && |t.tokens| == 3 && k < |gs| && j < |AllPositions(gs[k].postings)|
    requires PositionFits(AllPositions(gs[k].postings)[j])
    ensures var seg, e := Built(gs, t), EntryOf(gs, k);
            PositionInRange(seg, e, j) && PositionAt(seg, e, j) == AllPositions(gs[k].postings)[j]
  {
    hide TermPostings, TermPositions, PostingsStart, PositionsStart, Built, EntryOf, Fields, Layout, AllPositions, Width, SizedGroups;
    var ps := gs[k].postings;
    PositionsPart(gs, t, k);
    PositionRowIn(ps, k, j);
    EntryPlaces(gs, k);
    SliceOfSlice(Built(gs, t).positions, PositionsStart(gs, k), TermPositions(k, ps), 16 + 8 * j, 24 + 8 * j);
    PositionBack(AllPositions(ps)[j]);
  }

  lemma PositionBack(p: Position)
    requires PositionFits(p)
    ensures Width(PositionWidths) == 8 && Fields(PositionRow(p), PositionWidths) == [p.field, p.position]
  {
    RecordWidths();
    Widths();
    assert Fit([p.field, p.position], PositionWidths);
    ReadBack([p.field, p.position], PositionWidths);
  }

  /** All numbers of a term's records fit their fields. */
  predicate TermFits(ps: seq<Posting>)
    requires SizedPostings(ps)
  {
    && (forall i :: 0 <= i < |ps| ==> PostingFits(ps[i], |AllPositions(ps[..i])|))
    && (forall i, j :: 0 <= i < |ps| && 0 <= j < |ps[i].positions| ==> PositionFits(ps[i].positions[j]))
  }

  /** Reading a posting with its positions by offset gives back exactly what was grouped. */
  lemma PostingIsWritten(gs: seq<Group>, t: Totals, k: nat, i: nat)
    requires SizedGroups(gs) && |t.tokens| == 3 && k < |gs| && i < |gs[k].postings| && SizedPostings(gs[k].postings) && TermFits(gs[k].postings)
    ensures var seg, e := Built(gs, t), EntryOf(gs, k);
      && PostingInRange(seg, e, i) && RunInRange(seg, e, StoredAt(seg, e, i))
      && StoredAt(seg, e, i).offset + StoredAt(seg, e, i).count <= |AllPositions(gs[k].postings)|
      && PostingAt(seg, e, i) == gs[k].postings[i]
  {
    hide Built, EntryOf, AllPositions, PositionAt, StoredAt, PostingAt, SizedGroups, SizedPostings, PostingFits, PositionFits;
    var seg, e, ps := Built(gs, t), EntryOf(gs, k), gs[k].postings;
    StoredIsWritten(gs, t, k, i);
    AllPositionsBound(ps, i);
    RunEnds(gs, t, k);
    forall j | 0 <= j < |ps[i].positions|
      ensures ReadsAt(seg, e, |AllPositions(ps[..i])|, ps[i].positions, j)
    {
      AllPositionsAt(ps, i, j);
      PositionIsWritten(gs, t, k, |AllPositions(ps[..i])| + j);
    }
    PostingPutTogether(seg, e, i, ps[i], |AllPositions(ps[..i])|);
  }

  predicate ReadsAt(seg: Payloads, e: Entry, offset: nat, positions: seq<Position>, j: nat)
    requires j < |positions|
  {
    PositionInRange(seg, e, offset + j) && PositionAt(seg, e, offset + j) == positions[j]
  }

  lemma PostingPutTogether(seg: Payloads, e: Entry, i: nat, p: Posting, offset: nat)
    requires PostingInRange(seg, e, i) && RunInRange(seg, e, StoredAt(seg, e, i))
    requires StoredAt(seg, e, i) == Stored(p.objectType, p.ordinal, p.tf, p.length, offset, |p.positions|)
    requires forall j :: 0 <= j < |p.positions| ==> ReadsAt(seg, e, offset, p.positions, j)
    ensures PostingAt(seg, e, i) == p
  {
    hide StoredAt, PositionAt;
    forall j | 0 <= j < |p.positions| ensures PostingAt(seg, e, i).positions[j] == p.positions[j] {
      assert ReadsAt(seg, e, offset, p.positions, j);
    }
  }

  lemma RunEnds(gs: seq<Group>, t: Totals, k: nat)
    requires SizedGroups(gs) && |t.tokens| == 3 && k < |gs|
    ensures EntryOf(gs, k).positionsAt + 16 + 8 * |AllPositions(gs[k].postings)| <= |Built(gs, t).positions|
  {
    hide Built, EntryOf, PositionsStart, TermPositions, AllPositions;
    PositionsPart(gs, t, k);
    EntryPlaces(gs, k);
    TermPositionsSize(k, gs[k].postings);
  }

  /** Block maxima read by offset are those of the block's postings. */
  lemma BlockIsWritten(gs: seq<Group>, t: Totals, k: nat, b: nat)
    requires SizedGroups(gs) && |t.tokens| == 3 && k < |gs| && SizedPostings(gs[k].postings) && b < Blocks(|gs[k].postings|)
    requires Fit(BlockFields(gs[k].postings, b), BlockWidths)
    ensures var seg, e := Built(gs, t), EntryOf(gs, k);
            BlockInRange(seg, e, b) && BlockAt(seg, e, b) == BlockFields(gs[k].postings, b)
  {
    hide Built, EntryOf, PostingsStart, TermPostings, Fields, Layout, Width, Fit, SizedGroups, SizedPostings, BlockFields, Blocks;
    var ps := gs[k].postings;
    PostingsPart(gs, t, k);
    BlockRowIn(ps, k, b);
    EntryPlaces(gs, k);
    var at := 20 + 48 * |ps| + 16 * b;
    SliceOfSlice(Built(gs, t).postings, PostingsStart(gs, k), TermPostings(k, ps), at, at + 16);
    ReadBack(BlockFields(ps, b), BlockWidths);
  }
}
