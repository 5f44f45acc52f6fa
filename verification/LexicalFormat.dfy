/** The three lexical payloads as bytes, and the writer that builds them from occurrences. */
module LexicalFormat {
  import opened Common
  import opened LittleEndian
  import opened Bm25
  import opened LexicalGroups

  const PayloadVersion: nat := 1
  const BlockSize: nat := 128
  const MaxPayload: nat := 0x1000_0000

  const PositionWidths: seq<nat> := [4, 4]
  const PostingWidths: seq<nat> := [4, 8, 4, 4, 4, 4, 4, 4, 8, 4]
  const BlockWidths: seq<nat> := [4, 4, 4, 4]
  const ListWidths: seq<nat> := [8, 8, 4]
  const RunWidths: seq<nat> := [8, 8]
  const EntryWidths: seq<nat> := [8, 8, 8, 8, 8]
  const CountWidths: seq<nat> := [4, 8]
  const TotalWidths: seq<nat> := [4, 4, 8, 8, 8, 8, 8, 8]

  lemma RecordWidths()
    ensures Width(PositionWidths) == 8 && Width(BlockWidths) == 16 && Width(ListWidths) == 20
    ensures Width(RunWidths) == 16 && Width(EntryWidths) == 40 && Width(CountWidths) == 12
  {
    WidthRepeat(2, 4);
    WidthRepeat(4, 4);
    WidthRepeat(2, 8);
    WidthRepeat(5, 8);
    WidthRepeat(1, 4);
    WidthRepeat(1, 8);
    WidthConcat(seq(2, i => 8), seq(1, i => 4));
    WidthConcat(seq(1, i => 4), seq(1, i => 8));
    hide Width;
    assert PositionWidths == seq(2, i => 4) && BlockWidths == seq(4, i => 4) && RunWidths == seq(2, i => 8);
    assert EntryWidths == seq(5, i => 8) && ListWidths == seq(2, i => 8) + seq(1, i => 4);
    assert CountWidths == seq(1, i => 4) + seq(1, i => 8);
  }

  lemma PostingWidth()
    ensures Width(PostingWidths) == 48
  {
    WidthRepeat(1, 4);
    WidthRepeat(1, 8);
    WidthRepeat(6, 4);
    WidthConcat(seq(1, i => 4), seq(1, i => 8));
    WidthConcat(seq(1, i => 4) + seq(1, i => 8), seq(6, i => 4));
    WidthConcat(seq(1, i => 4) + seq(1, i => 8) + seq(6, i => 4), seq(1, i => 8));
    WidthConcat(seq(1, i => 4) + seq(1, i => 8) + seq(6, i => 4) + seq(1, i => 8), seq(1, i => 4));
    hide Width;
    assert PostingWidths == seq(1, i => 4) + seq(1, i => 8) + seq(6, i => 4) + seq(1, i => 8) + seq(1, i => 4);
  }

  lemma TotalWidth()
    ensures Width(TotalWidths) == 56
  {
    WidthRepeat(2, 4);
    WidthRepeat(6, 8);
    WidthConcat(seq(2, i => 4), seq(6, i => 8));
    hide Width;
    assert TotalWidths == seq(2, i => 4) + seq(6, i => 8);
  }

  // ---------------------------------------------------------------- one term

  function PositionRow(p: Position): (r: Bytes)
    ensures |r| == 8
  {
    RecordWidths();
    Layout([p.field, p.position], PositionWidths)
  }

  function PositionRows(ps: seq<Position>): (r: seq<Bytes>)
    ensures |r| == |ps| && forall i :: 0 <= i < |ps| ==> r[i] == PositionRow(ps[i])
  {
    seq(|ps|, i requires 0 <= i < |ps| => PositionRow(ps[i]))
  }

  function AllPositions(ps: seq<Posting>): seq<Position> {
    if |ps| == 0 then [] else AllPositions(ps[..|ps| - 1]) + ps[|ps| - 1].positions
  }

  function PostingFields(p: Posting, offset: nat): (r: seq<nat>)
    requires Sized(p)
    ensures |r| == 10
  {
    [p.objectType, p.ordinal, p.tf[0], p.tf[1], p.tf[2], p.length[0], p.length[1], p.length[2], offset, |p.positions|]
  }

  function PostingRow(p: Posting, offset: nat): (r: Bytes)
    requires Sized(p)
    ensures |r| == 48
  {
    PostingWidth();
    Layout(PostingFields(p, offset), PostingWidths)
  }

  /** Each posting points at its positions, counted from the start of the term's own. */
  function PostingRows(ps: seq<Posting>): (r: seq<Bytes>)
    requires SizedPostings(ps)
    ensures |r| == |ps| && forall i :: 0 <= i < |ps| ==> r[i] == PostingRow(ps[i], |AllPositions(ps[..i])|)
  {
    seq(|ps|, i requires 0 <= i < |ps| => PostingRow(ps[i], |AllPositions(ps[..i])|))
  }

  function Blocks(n: nat): nat {
    (n + BlockSize - 1) / BlockSize
  }

  /** Total frequency of a posting, as stored. */
  function Frequency(p: Posting): nat
    requires Sized(p)
  {
    p.tf[0] + p.tf[1] + p.tf[2]
  }

  function Smaller(a: nat, b: nat): nat {
    if a < b then a else b
  }

  function Larger(a: nat, b: nat): nat {
    if a > b then a else b
  }

  /** The shortest field the term occurs in, or 2^32 - 1 if it occurs in none. */
  function Shortest(p: Posting): nat
    requires Sized(p)
  {
    Smaller(if p.tf[0] > 0 then p.length[0] else U32 - 1,
        Smaller(if p.tf[1] > 0 then p.length[1] else U32 - 1, if p.tf[2] > 0 then p.length[2] else U32 - 1))
  }

  function MaxFrequency(ps: seq<Posting>): nat
    requires forall i :: 0 <= i < |ps| ==> Sized(ps[i])
  {
    if |ps| == 0 then 0 else Larger(MaxFrequency(ps[..|ps| - 1]), Frequency(ps[|ps| - 1]))
  }

  function MinLength(ps: seq<Posting>): nat
    requires forall i :: 0 <= i < |ps| ==> Sized(ps[i])
  {
    if |ps| == 0 then U32 - 1 else Smaller(MinLength(ps[..|ps| - 1]), Shortest(ps[|ps| - 1]))
  }

  function BlockEnd(n: nat, b: nat): nat {
    Smaller(n, (b + 1) * BlockSize)
  }

  lemma BlockStarts(n: nat, b: nat)
    requires b < Blocks(n)
    ensures b * BlockSize < n && b * BlockSize < BlockEnd(n, b) <= n
  {
  }

  function BlockFields(ps: seq<Posting>, b: nat): (r: seq<nat>)
    requires SizedPostings(ps) && b < Blocks(|ps|)
    ensures |r| == 4
  {
    BlockStarts(|ps|, b);
    var first, end := b * BlockSize, BlockEnd(|ps|, b);
    var shortest := MinLength(ps[first..end]);
    [first, end - first, MaxFrequency(ps[first..end]), if shortest == U32 - 1 then 0 else shortest]
  }

  function BlockRow(ps: seq<Posting>, b: nat): (r: Bytes)
    requires SizedPostings(ps) && b < Blocks(|ps|)
    ensures |r| == 16
  {
    RecordWidths();
    Layout(BlockFields(ps, b), BlockWidths)
  }

  function BlockRows(ps: seq<Posting>): (r: seq<Bytes>)
    requires SizedPostings(ps)
    ensures |r| == Blocks(|ps|) && forall b :: 0 <= b < |r| ==> r[b] == BlockRow(ps, b)
  {
    seq(Blocks(|ps|), b requires 0 <= b < Blocks(|ps|) => BlockRow(ps, b))
  }

  function ListHeader(k: nat, n: nat): (r: Bytes)
    ensures |r| == 20
  {
    RecordWidths();
    Layout([k, n, Blocks(n)], ListWidths)
  }

  function RunHeader(k: nat, n: nat): (r: Bytes)
    ensures |r| == 16
  {
    RecordWidths();
    Layout([k, n], RunWidths)
  }

  /** A term's part of the postings payload: header, postings, block maxima. */
  function TermPostings(k: nat, ps: seq<Posting>): Bytes
    requires SizedPostings(ps)
  {
    ListHeader(k, |ps|) + Concat(PostingRows(ps)) + Concat(BlockRows(ps))
  }

  /** A term's part of the positions payload. */
  function TermPositions(k: nat, ps: seq<Posting>): Bytes {
    RunHeader(k, |AllPositions(ps)|) + Concat(PositionRows(AllPositions(ps)))
  }

  lemma TermPostingsSize(k: nat, ps: seq<Posting>)
    requires SizedPostings(ps)
    ensures |TermPostings(k, ps)| == 20 + 48 * |ps| + 16 * Blocks(|ps|)
  {
    ConcatRows(PostingRows(ps), 48);
    ConcatRows(BlockRows(ps), 16);
  }

  lemma TermPositionsSize(k: nat, ps: seq<Posting>)
    ensures |TermPositions(k, ps)| == 16 + 8 * |AllPositions(ps)|
  {
    ConcatRows(PositionRows(AllPositions(ps)), 8);
  }

  // ---------------------------------------------------------------- whole payloads

  function PostingParts(gs: seq<Group>): (r: seq<Bytes>)
    requires SizedGroups(gs)
    ensures |r| == |gs| && forall k :: 0 <= k < |gs| ==> r[k] == TermPostings(k, gs[k].postings)
  {
    seq(|gs|, k requires 0 <= k < |gs| => TermPostings(k, gs[k].postings))
  }

  function PositionParts(gs: seq<Group>): (r: seq<Bytes>)
    ensures |r| == |gs| && forall k :: 0 <= k < |gs| ==> r[k] == TermPositions(k, gs[k].postings)
  {
    seq(|gs|, k requires 0 <= k < |gs| => TermPositions(k, gs[k].postings))
  }

  /** Where a term's postings and positions start, counted from the start of the payload. */
  function PostingsStart(gs: seq<Group>, k: nat): nat
    requires SizedGroups(gs) && k <= |gs|
  {
    56 + |Concat(PostingParts(gs)[..k])|
  }

  function PositionsStart(gs: seq<Group>, k: nat): nat
    requires k <= |gs|
  {
    12 + |Concat(PositionParts(gs)[..k])|
  }

  /** Offsets and sizes of a term's parts of the two other payloads. */
  function EntryFields(gs: seq<Group>, k: nat): (r: seq<nat>)
    requires SizedGroups(gs) && k < |gs|
    ensures |r| == 5
  {
    var ps := gs[k].postings;
    assert SizedPostings(ps);
    FiveFields(|ps|, PostingsStart(gs, k), |TermPostings(k, ps)|, PositionsStart(gs, k), |TermPositions(k, ps)|)
  }

  function FiveFields(frequency: nat, postingsAt: nat, postingsBytes: nat, positionsAt: nat, positionsBytes: nat): (r: seq<nat>)
    ensures |r| == 5
  {
    [frequency, postingsAt, postingsBytes, positionsAt, positionsBytes]
  }

  function EntryRow(gs: seq<Group>, k: nat): (r: Bytes)
    requires SizedGroups(gs) && k < |gs|
    ensures |r| == 44 + |gs[k].term|
  {
    RecordWidths();
    Put(|gs[k].term|, 4) + gs[k].term + Layout(EntryFields(gs, k), EntryWidths)
  }

  function EntryRows(gs: seq<Group>): (r: seq<Bytes>)
    requires SizedGroups(gs)
    ensures |r| == |gs| && forall k :: 0 <= k < |gs| ==> r[k] == EntryRow(gs, k)
  {
    seq(|gs|, k requires 0 <= k < |gs| => EntryRow(gs, k))
  }

  function PostingTotal(gs: seq<Group>): nat {
    if |gs| == 0 then 0 else PostingTotal(gs[..|gs| - 1]) + |gs[|gs| - 1].postings|
  }

  function PositionTotal(gs: seq<Group>): nat {
    if |gs| == 0 then 0 else PositionTotal(gs[..|gs| - 1]) + |AllPositions(gs[|gs| - 1].postings)|
  }

  /** Object counts and tokens per field of the segment. */
  datatype Totals = Totals(documents: nat, passages: nat, tokens: seq<nat>)

  predicate TotalsOk(t: Totals) {
    |t.tokens| == 3 && t.documents < U64 && t.passages < U64 && t.tokens[0] < U64 && t.tokens[1] < U64 && t.tokens[2] < U64
  }

  function CountHeader(n: nat): (r: Bytes)
    ensures |r| == 12
  {
    RecordWidths();
    Layout([PayloadVersion, n], CountWidths)
  }

  function TotalFields(t: Totals, n: nat): (r: seq<nat>)
    requires |t.tokens| == 3
    ensures |r| == 8
  {
    [PayloadVersion, BlockSize, t.documents, t.passages, n, t.tokens[0], t.tokens[1], t.tokens[2]]
  }

  function TotalHeader(t: Totals, n: nat): (r: Bytes)
    requires |t.tokens| == 3
    ensures |r| == 56
  {
    TotalWidth();
    Layout(TotalFields(t, n), TotalWidths)
  }

  datatype Payloads = Payloads(terms: Bytes, postings: Bytes, positions: Bytes)

  function Built(gs: seq<Group>, t: Totals): Payloads
    requires SizedGroups(gs) && |t.tokens| == 3
  {
    Payloads(CountHeader(|gs|) + Concat(EntryRows(gs)),
             TotalHeader(t, PostingTotal(gs)) + Concat(PostingParts(gs)),
             CountHeader(PositionTotal(gs)) + Concat(PositionParts(gs)))
  }

  predicate WithinCapacity(p: Payloads) {
    |p.terms| <= MaxPayload && |p.postings| <= MaxPayload && |p.positions| <= MaxPayload
  }
}
