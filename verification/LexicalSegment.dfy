/** What a reader accepts, and that every built segment is accepted. */
module LexicalSegment {
  import opened Common
  import opened LittleEndian
  import opened Bm25
  import opened Occurrences
  import opened LexicalGroups
  import opened LexicalFormat
  import opened LexicalReader

  // ---------------------------------------------------------------- acceptance

  /** Positions lie inside their field and increase within it. */
  predicate PositionsAccepted(p: Posting) {
    && |p.length| == 3
    && (forall j :: 0 <= j < |p.positions| ==>
          TitleField <= p.positions[j].field <= PassageField && p.positions[j].position < p.length[p.positions[j].field - 1])
    && (forall i, j :: 0 <= i < j < |p.positions| && p.positions[i].field == p.positions[j].field ==>
          p.positions[i].position < p.positions[j].position)
  }

  predicate PostingAccepted(p: Posting, documents: nat, passages: nat) {
    && PositionsAccepted(p) && |p.tf| == 3
    && (p.objectType == DocumentType || p.objectType == PassageType)
    && p.ordinal < (if p.objectType == DocumentType then documents else passages)
    && 0 < p.tf[0] + p.tf[1] + p.tf[2] == |p.positions|
    && p.tf == [CountField(p.positions, 1), CountField(p.positions, 2), CountField(p.positions, 3)]
  }

  predicate ListInRange(seg: Payloads, e: Entry) {
    && e.postingsAt + 20 + 48 * e.frequency + 16 * Blocks(e.frequency) <= |seg.postings|
    && forall i :: 0 <= i < e.frequency ==> PostingInRange(seg, e, i) && RunInRange(seg, e, StoredAt(seg, e, i))
  }

  /** All postings of a term with their positions. */
  function Decoded(seg: Payloads, e: Entry): (r: seq<Posting>)
    requires ListInRange(seg, e)
    ensures |r| == e.frequency && forall i :: 0 <= i < e.frequency ==> r[i] == PostingAt(seg, e, i)
  {
    seq(e.frequency, i requires 0 <= i < e.frequency => PostingAt(seg, e, i))
  }

  /** The number of position records a term's run declares. */
  function Records(seg: Payloads, at: nat): nat
    requires at + 16 <= |seg.positions|
  {
    RecordWidths();
    Fields(seg.positions[at..at + 16], RunWidths)[1]
  }

  function Cursor(sizes: seq<nat>, start: nat, k: nat): nat
    requires k <= |sizes|
  {
    if k == 0 then start else Cursor(sizes, start, k - 1) + sizes[k - 1]
  }

  function PostingSizes(es: seq<Entry>): (r: seq<nat>)
    ensures |r| == |es|
  {
    seq(|es|, k requires 0 <= k < |es| => es[k].postingsBytes)
  }

  function PositionSizes(es: seq<Entry>): (r: seq<nat>)
    ensures |r| == |es|
  {
    seq(|es|, k requires 0 <= k < |es| => es[k].positionsBytes)
  }

  /** Lists follow one another without gaps, carry their ordinal, and have the sizes their counts imply. */
  predicate ListAccepted(seg: Payloads, es: seq<Entry>, k: nat)
    requires k < |es|
  {
    RecordWidths();
    var e := es[k];
    && e.postingsAt == Cursor(PostingSizes(es), 56, k) && e.positionsAt == Cursor(PositionSizes(es), 12, k)
    && e.postingsAt + e.postingsBytes <= |seg.postings| && e.positionsAt + e.positionsBytes <= |seg.positions|
    && e.postingsAt + 20 <= |seg.postings| && e.positionsAt + 16 <= |seg.positions|
    && Fields(seg.postings[e.postingsAt..e.postingsAt + 20], ListWidths) == [k, e.frequency, Blocks(e.frequency)]
    && Fields(seg.positions[e.positionsAt..e.positionsAt + 16], RunWidths)[0] == k
    && e.postingsBytes == 20 + 48 * e.frequency + 16 * Blocks(e.frequency)
    && e.positionsBytes == 16 + 8 * Records(seg, e.positionsAt)
  }

  /** A block record gives the first posting of its block, a count, and the maxima of the counted postings. */
  predicate BlockMatches(f: seq<nat>, ps: seq<Posting>, b: nat)
    requires |f| == 4
  {
    && (forall i :: 0 <= i < |ps| ==> Sized(ps[i]))
    && f[0] == b * BlockSize && 0 < f[1] <= BlockSize && f[0] + f[1] <= |ps|
    && f[2] == MaxFrequency(ps[f[0]..f[0] + f[1]]) && f[3] == MinLength(ps[f[0]..f[0] + f[1]])
  }

  predicate BlockAccepted(seg: Payloads, e: Entry, b: nat)
    requires ListInRange(seg, e) && b < Blocks(e.frequency)
  {
    BlockMatches(BlockAt(seg, e, b), Decoded(seg, e), b)
  }

  ghost predicate TermAccepted(seg: Payloads, es: seq<Entry>, k: nat, t: Totals)
    requires k < |es|
  {
    var e := es[k];
    && ListAccepted(seg, es, k) && ListInRange(seg, e)
    && (forall i :: 0 <= i < e.frequency ==>
          StoredAt(seg, e, i).offset + StoredAt(seg, e, i).count <= Records(seg, e.positionsAt))
    && (forall i :: 0 <= i < e.frequency ==> PostingAccepted(Decoded(seg, e)[i], t.documents, t.passages))
    && (forall i, j :: 0 <= i < j < e.frequency && j == i + 1 ==> PostingBefore(Decoded(seg, e)[i], Decoded(seg, e)[j]))
    && (forall b :: 0 <= b < Blocks(e.frequency) ==> BlockAccepted(seg, e, b))
  }

  // ---------------------------------------------------------------- sizes of built segments

  lemma {:induction false} ConcatAtLeast(parts: seq<Bytes>, width: nat)
    requires forall i :: 0 <= i < |parts| ==> |parts[i]| >= width
    ensures |Concat(parts)| >= width * |parts|
  {
    if |parts| > 0 { ConcatAtLeast(parts[..|parts| - 1], width); }
  }

  lemma PartInside(parts: seq<Bytes>, k: nat)
    requires k < |parts|
    ensures |Concat(parts[..k])| + |parts[k]| <= |Concat(parts)|
  {
    ConcatAround(parts, k);
  }

  /** A term takes at least 84 bytes of postings, so a segment within capacity never has too many terms. */
  lemma TermCountBounded(gs: seq<Group>, t: Totals)
    requires SizedGroups(gs) && |t.tokens| == 3 && |Built(gs, t).postings| <= MaxPayload
    ensures |gs| <= MaxPayload / EntryMemory
  {
    hide TermPostings, Concat, SizedPostings;
    forall k | 0 <= k < |gs| ensures |PostingParts(gs)[k]| >= 84 { TermSizeAtLeast(gs, k); }
    ConcatAtLeast(PostingParts(gs), 84);
  }

  lemma TermSizeAtLeast(gs: seq<Group>, k: nat)
    requires SizedGroups(gs) && k < |gs|
    ensures |TermPostings(k, gs[k].postings)| >= 84
  {
    SizedAt(gs, k);
    TermPostingsSize(k, gs[k].postings);
    hide TermPostings;
    assert |gs[k].postings| >= 1;
  }

  /** Every entry number stays below the payload limit. */
  lemma EntryBounded(gs: seq<Group>, t: Totals, k: nat)
    requires SizedGroups(gs) && |t.tokens| == 3 && k < |gs| && WithinCapacity(Built(gs, t))
    ensures |gs[k].term| <= MaxPayload && |gs[k].postings| <= MaxPayload
    ensures PostingsStart(gs, k) + |TermPostings(k, gs[k].postings)| <= MaxPayload
    ensures PositionsStart(gs, k) + |TermPositions(k, gs[k].postings)| <= MaxPayload
  {
    hide TermPostings, TermPositions, Concat, EntryRow, TotalHeader, CountHeader, SizedPostings, Blocks;
    PartInside(EntryRows(gs), k);
    PartInside(PostingParts(gs), k);
    PartInside(PositionParts(gs), k);
    SizedAt(gs, k);
    TermPostingsSize(k, gs[k].postings);
  }

  lemma EntriesFit(gs: seq<Group>, t: Totals, k: nat)
    requires SizedGroups(gs) && |t.tokens| == 3 && k < |gs| && WithinCapacity(Built(gs, t)) && |gs[k].term| > 0
    ensures EntryFits(gs, k) && |gs[k].postings| > 0
  {
    hide TermPostings, TermPositions, PostingsStart, PositionsStart, Built;
    EntryBounded(gs, t, k);
    SizedAt(gs, k);
    Widths();
  }

  // ---------------------------------------------------------------- numbers of a term fit

  /** No field is longer than the payload limit. */
  predicate LengthsBounded(ps: seq<Posting>)
    requires SizedPostings(ps)
  {
    forall i, f :: 0 <= i < |ps| && 0 <= f < 3 ==> ps[i].length[f] <= MaxPayload
  }

  lemma CountAtMost(ps: seq<Position>, field: nat)
    ensures CountField(ps, field) <= |ps|
  {
  }

  lemma PostingNumbersFit(p: Posting, offset: nat, t: Totals)
    requires PostingGood(p, t.documents, t.passages) && TotalsOk(t) && offset <= MaxPayload && |p.positions| <= MaxPayload
    requires forall f :: 0 <= f < 3 ==> p.length[f] <= MaxPayload
    ensures PostingFits(p, offset)
  {
    Widths();
    CountAtMost(p.positions, 1);
    CountAtMost(p.positions, 2);
    CountAtMost(p.positions, 3);
    hide CountField, PositionsGood;
  }

  lemma TermNumbersFit(ps: seq<Posting>, t: Totals)
    requires SizedPostings(ps) && PostingsGood(ps, t.documents, t.passages) && TotalsOk(t)
    requires |AllPositions(ps)| <= MaxPayload && LengthsBounded(ps)
    ensures TermFits(ps)
  {
    hide AllPositions, PostingGood, PostingFits;
    forall i | 0 <= i < |ps| ensures PostingFits(ps[i], |AllPositions(ps[..i])|) {
      AllPositionsBound(ps, i);
      PostingNumbersFit(ps[i], |AllPositions(ps[..i])|, t);
    }
    forall i, j | 0 <= i < |ps| && 0 <= j < |ps[i].positions| ensures PositionFits(ps[i].positions[j]) {
      PositionSmall(ps[i], j, t);
    }
  }

  lemma PositionSmall(p: Posting, j: nat, t: Totals)
    requires PostingGood(p, t.documents, t.passages) && j < |p.positions| && forall f :: 0 <= f < 3 ==> p.length[f] <= MaxPayload
    ensures PositionFits(p.positions[j])
  {
    hide CountField;
  }

  lemma GoodIsAccepted(p: Posting, documents: nat, passages: nat)
    requires PostingGood(p, documents, passages)
    ensures PostingAccepted(p, documents, passages)
  {
    CountSum(p.positions);
    hide CountField;
  }

  // ---------------------------------------------------------------- blocks

  lemma {:induction false} MaxFrequencyBound(ps: seq<Posting>, m: nat)
    requires forall i :: 0 <= i < |ps| ==> Sized(ps[i]) && Frequency(ps[i]) <= m
    ensures MaxFrequency(ps) <= m
  {
    if |ps| > 0 { MaxFrequencyBound(ps[..|ps| - 1], m); }
  }

  lemma {:induction false} MinLengthBound(ps: seq<Posting>, m: nat)
    requires |ps| > 0 && forall i :: 0 <= i < |ps| ==> Sized(ps[i]) && Shortest(ps[i]) <= m
    ensures MinLength(ps) <= m
  {
    if |ps| > 1 { MinLengthBound(ps[..|ps| - 1], m); }
  }

  lemma GoodNumbers(p: Posting, t: Totals)
    requires PostingGood(p, t.documents, t.passages) && |p.positions| <= MaxPayload && forall f :: 0 <= f < 3 ==> p.length[f] <= MaxPayload
    ensures 0 < Frequency(p) == |p.positions| && Shortest(p) <= MaxPayload
  {
    CountSum(p.positions);
    hide CountField, PositionsGood;
  }

  /** The block's stored numbers fit, and the shortest length is never the marker for none. */
  lemma BlockNumbers(ps: seq<Posting>, t: Totals, b: nat)
    requires SizedPostings(ps) && PostingsGood(ps, t.documents, t.passages) && LengthsBounded(ps)
    requires |ps| <= MaxPayload && |AllPositions(ps)| <= MaxPayload && b < Blocks(|ps|)
    ensures var first, end := b * BlockSize, BlockEnd(|ps|, b);
      && first < end <= |ps| && end - first <= BlockSize
      && BlockFields(ps, b) == [first, end - first, MaxFrequency(ps[first..end]), MinLength(ps[first..end])]
      && Fit(BlockFields(ps, b), BlockWidths)
  {
    hide MaxFrequency, MinLength, PostingGood, AllPositions, Frequency, Shortest, Sized;
    BlockStarts(|ps|, b);
    var first, end := b * BlockSize, BlockEnd(|ps|, b);
    var block := ps[first..end];
    forall i | 0 <= i < |block| ensures Sized(block[i]) && Frequency(block[i]) <= MaxPayload && Shortest(block[i]) <= MaxPayload {
      assert block[i] == ps[first + i];
      AllPositionsBound(ps, first + i);
      GoodNumbers(ps[first + i], t);
    }
    MaxFrequencyBound(block, MaxPayload);
    MinLengthBound(block, MaxPayload);
    Widths();
  }

  // ---------------------------------------------------------------- lists

  lemma {:induction false} PostingsCursor(gs: seq<Group>, k: nat)
    requires SizedGroups(gs) && k <= |gs|
    ensures Cursor(PostingSizes(Entries(gs)), 56, k) == PostingsStart(gs, k)
  {
    hide TermPostings, TermPositions, EntryOf;
    if k > 0 {
      PostingsCursor(gs, k - 1);
      EntryPlaces(gs, k - 1);
      ConcatStep(PostingParts(gs), k - 1);
    }
  }

  lemma {:induction false} PositionsCursor(gs: seq<Group>, k: nat)
    requires SizedGroups(gs) && k <= |gs|
    ensures Cursor(PositionSizes(Entries(gs)), 12, k) == PositionsStart(gs, k)
  {
    hide TermPostings, TermPositions, EntryOf;
    if k > 0 {
      PositionsCursor(gs, k - 1);
      EntryPlaces(gs, k - 1);
      ConcatStep(PositionParts(gs), k - 1);
    }
  }

  lemma ListHeaderBack(k: nat, n: nat)
    requires k < U64 && n < U32
    ensures Width(ListWidths) == 20 && Fields(ListHeader(k, n), ListWidths) == [k, n, Blocks(n)]
  {
    RecordWidths();
    Widths();
    assert Fit([k, n, Blocks(n)], ListWidths);
    ReadBack([k, n, Blocks(n)], ListWidths);
  }

  lemma RunHeaderBack(k: nat, n: nat)
    requires k < U64 && n < U64
    ensures Width(RunWidths) == 16 && Fields(RunHeader(k, n), RunWidths) == [k, n]
  {
    RecordWidths();
    Widths();
    assert Fit([k, n], RunWidths);
    ReadBack([k, n], RunWidths);
  }

  lemma HeadersIn(k: nat, ps: seq<Posting>)
    requires SizedPostings(ps)
    ensures |TermPostings(k, ps)| >= 20 && TermPostings(k, ps)[0..20] == ListHeader(k, |ps|)
    ensures |TermPositions(k, ps)| >= 16 && TermPositions(k, ps)[0..16] == RunHeader(k, |AllPositions(ps)|)
  {
    hide ListHeader, RunHeader, Concat, PostingRows, BlockRows, PositionRows, AllPositions;
  }

  /** Headers of a built term say what the validator expects. */
  lemma ListIsWritten(gs: seq<Group>, t: Totals, k: nat)
    requires SizedGroups(gs) && |t.tokens| == 3 && k < |gs| && WithinCapacity(Built(gs, t)) && |gs| <= MaxPayload
    ensures ListAccepted(Built(gs, t), Entries(gs), k)
    ensures EntryOf(gs, k).positionsAt + 16 <= |Built(gs, t).positions|
    ensures Records(Built(gs, t), EntryOf(gs, k).positionsAt) == |AllPositions(gs[k].postings)| <= MaxPayload
  {
    hide Built, EntryOf, TermPostings, TermPositions, PostingsStart, PositionsStart, Fields, ListHeader, RunHeader, AllPositions,
         SizedGroups, SizedPostings, Cursor, Width, Blocks, PostingSizes, PositionSizes;
    var seg, ps := Built(gs, t), gs[k].postings;
    SizedAt(gs, k);
    EntryBounded(gs, t, k);
    EntryPlaces(gs, k);
    PostingsCursor(gs, k);
    PositionsCursor(gs, k);
    PostingsPart(gs, t, k);
    PositionsPart(gs, t, k);
    HeadersIn(k, ps);
    TermPostingsSize(k, ps);
    TermPositionsSize(k, ps);
    SliceOfSlice(seg.postings, PostingsStart(gs, k), TermPostings(k, ps), 0, 20);
    SliceOfSlice(seg.positions, PositionsStart(gs, k), TermPositions(k, ps), 0, 16);
    ListHeaderBack(k, |ps|);
    RunHeaderBack(k, |AllPositions(ps)|);
  }

  // ---------------------------------------------------------------- a built term is accepted

  /** What the writer's groups guarantee of one term. */
  ghost predicate TermSound(gs: seq<Group>, t: Totals, k: nat)
    requires SizedGroups(gs) && k < |gs|
  {
    && SizedPostings(gs[k].postings) && PostingsGood(gs[k].postings, t.documents, t.passages)
    && LengthsBounded(gs[k].postings) && TotalsOk(t) && |gs| <= MaxPayload && WithinCapacity(Built(gs, t))
  }

  lemma TermReads(gs: seq<Group>, t: Totals, k: nat)
    requires SizedGroups(gs) && k < |gs| && TermSound(gs, t, k)
    ensures ListInRange(Built(gs, t), EntryOf(gs, k)) && Decoded(Built(gs, t), EntryOf(gs, k)) == gs[k].postings
    ensures forall i :: 0 <= i < |gs[k].postings| ==>
      StoredAt(Built(gs, t), EntryOf(gs, k), i).offset + StoredAt(Built(gs, t), EntryOf(gs, k), i).count <= |AllPositions(gs[k].postings)|
  {
    hide Built, EntryOf, AllPositions, TermPostings, PostingsGood, LengthsBounded, SizedGroups, SizedPostings, TermFits, PostingAt, StoredAt,
         TermPositions, PostingsStart, PositionsStart;
    var ps := gs[k].postings;
    EntryPlaces(gs, k);
    EntryBounded(gs, t, k);
    TermPostingsSize(k, ps);
    TermPositionsSize(k, ps);
    PostingsPart(gs, t, k);
    TermNumbersFit(ps, t);
    forall i | 0 <= i < |ps|
      ensures PostingInRange(Built(gs, t), EntryOf(gs, k), i) && RunInRange(Built(gs, t), EntryOf(gs, k), StoredAt(Built(gs, t), EntryOf(gs, k), i))
      ensures PostingAt(Built(gs, t), EntryOf(gs, k), i) == ps[i]
      ensures StoredAt(Built(gs, t), EntryOf(gs, k), i).offset + StoredAt(Built(gs, t), EntryOf(gs, k), i).count <= |AllPositions(ps)|
    {
      PostingIsWritten(gs, t, k, i);
    }
    assert Decoded(Built(gs, t), EntryOf(gs, k)) == ps;
  }

  lemma BlockReads(gs: seq<Group>, t: Totals, k: nat, b: nat)
    requires SizedGroups(gs) && k < |gs| && TermSound(gs, t, k) && b < Blocks(|gs[k].postings|)
    requires ListInRange(Built(gs, t), EntryOf(gs, k)) && Decoded(Built(gs, t), EntryOf(gs, k)) == gs[k].postings
    ensures EntryOf(gs, k).frequency == |gs[k].postings| && BlockAccepted(Built(gs, t), EntryOf(gs, k), b)
  {
    hide Built, EntryOf, AllPositions, PostingsGood, LengthsBounded, SizedGroups, ListInRange, Decoded, BlockAt, BlockFields, MaxFrequency,
         MinLength, TermPostings, TermPositions, PostingsStart, PositionsStart, Fit;
    var ps := gs[k].postings;
    EntryPlaces(gs, k);
    EntryBounded(gs, t, k);
    TermPositionsSize(k, ps);
    BlockNumbers(ps, t, b);
    BlockIsWritten(gs, t, k, b);
  }

  lemma TermIsAccepted(gs: seq<Group>, t: Totals, k: nat)
    requires SizedGroups(gs) && k < |gs| && TermSound(gs, t, k)
    ensures TermAccepted(Built(gs, t), Entries(gs), k, t)
  {
    hide Built, EntryOf, AllPositions, LengthsBounded, SizedGroups, ListInRange, Decoded, ListAccepted, BlockAccepted,
         StoredAt, PostingAccepted, PostingGood, Records, WithinCapacity, PostingBefore, Blocks;
    var ps := gs[k].postings;
    TermReads(gs, t, k);
    ListIsWritten(gs, t, k);
    EntryPlaces(gs, k);
    forall i | 0 <= i < |ps| ensures PostingAccepted(ps[i], t.documents, t.passages) {
      GoodIsAccepted(ps[i], t.documents, t.passages);
    }
    forall b | 0 <= b < Blocks(|ps|) ensures BlockAccepted(Built(gs, t), EntryOf(gs, k), b) {
      BlockReads(gs, t, k, b);
    }
  }

  /**
   The writer takes a posting's frequency as its number of occurrences and its length as the
   shortest field length among them; both are what the reader recomputes from the stored fields.
   */
  lemma WriterAndReaderAgree(p: Posting, t: Totals)
    requires PostingGood(p, t.documents, t.passages)
    ensures Frequency(p) == |p.positions|
    ensures forall j :: 0 <= j < |p.positions| ==> Shortest(p) <= p.length[p.positions[j].field - 1]
    ensures Shortest(p) < U32 - 1 ==> exists j :: 0 <= j < |p.positions| && p.length[p.positions[j].field - 1] == Shortest(p)
  {
    CountSum(p.positions);
    forall j | 0 <= j < |p.positions| ensures p.tf[p.positions[j].field - 1] > 0 { Counted(p.positions, j); }
    if Shortest(p) < U32 - 1 {
      var f :| 0 <= f < 3 && p.tf[f] > 0 && p.length[f] == Shortest(p);
      var j := SomePosition(p.positions, f + 1);
    }
  }

  lemma {:induction false} Counted(ps: seq<Position>, j: nat)
    requires j < |ps|
    ensures CountField(ps, ps[j].field) > 0
  {
    if j < |ps| - 1 { Counted(ps[..|ps| - 1], j); }
  }

  lemma {:induction false} SomePosition(ps: seq<Position>, field: nat) returns (j: nat)
    requires CountField(ps, field) > 0
    ensures j < |ps| && ps[j].field == field
  {
    if ps[|ps| - 1].field == field { j := |ps| - 1; } else { j := SomePosition(ps[..|ps| - 1], field); }
  }
}
