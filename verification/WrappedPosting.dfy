/** A posting whose offset and count add up to more than 64 bits, in a segment that the validator accepts. */
module WrappedPosting {
  import opened Common
  import opened LittleEndian
  import opened Bm25
  import opened Occurrences
  import opened LexicalGroups
  import opened LexicalFormat
  import opened LexicalReader
  import opened LexicalSegment
  import opened LexicalRoundTrip
  import opened GroupsConverse
  import opened TitleCorpus
  import opened WrappedReads
  import A = AcceptedBlocks

  // ---------------------------------------------------------------- numbers of eight bytes

  lemma {:induction false} GetSplit(b: Bytes, n: nat)
    requires n <= |b|
    ensures Get(b) == Get(b[..n]) + Power(n) * Get(b[n..])
  {
    if n > 0 {
      GetSplit(b[1..], n - 1);
      assert b[..n][1..] == b[1..][..n - 1] && b[1..][n - 1..] == b[n..];
      Distribute(b[0] as nat, Get(b[1..][..n - 1]), Power(n - 1), Get(b[n..]));
    } else {
      assert b[..0] == [] && b[0..] == b;
    }
  }

  lemma Distribute(a: nat, x: nat, p: nat, y: nat)
    ensures a + 256 * (x + p * y) == a + 256 * x + 256 * p * y
  {
  }

  /** The number one in eight bytes is the number one in four bytes and then zero. */
  lemma OneInHalves(b: Bytes)
    requires |b| == 8 && Get(b) == 1
    ensures Get(b[..4]) == 1 && Get(b[4..]) == 0
  {
    GetSplit(b, 4);
    GetBound(b[..4]);
    Widths();
    hide Get, Power;
    var low, high := Get(b[..4]), Get(b[4..]);
    assert low + U32 * high == 1;
  }

  // ---------------------------------------------------------------- a segment of one posting

  const Word: Bytes := [1]

  /** The word is the second of two tokens of a title. */
  function BaseGroups(): (gs: seq<Group>)
    ensures SizedGroups(gs) && |gs| == 1
  {
    [Group(Word, [TitlePosting(0, 1, 1, 2)])]
  }

  function BaseTotals(): Totals {
    Totals(1, 0, [2, 0, 0])
  }

  function Base(): Payloads {
    Built(BaseGroups(), BaseTotals())
  }

  function BaseEntries(): (es: seq<Entry>)
    ensures |es| == 1
  {
    Entries(BaseGroups())
  }

  lemma BaseSizes()
    ensures |Base().postings| == 140 && |Base().positions| == 36 && |Base().terms| == 57
  {
    var g := BaseGroups()[0];
    assert g.postings[..0] == [];
    assert AllPositions(g.postings) == AllPositions(g.postings[..0]) + g.postings[0].positions;
    assert |AllPositions(g.postings)| == 1 && Blocks(1) == 1;
    hide Built, AllPositions;
    A.OneGroupSizes(g, BaseTotals());
    assert [g] == BaseGroups();
  }

  lemma BaseIsGood()
    ensures GroupsGood(BaseGroups(), 1, 0) && LexicalGroups.ShortFields(BaseGroups(), MaxPayload)
  {
    TitlePostingGood(0, 1, 1, 2, 1);
    var gs := BaseGroups();
    assert gs[0].postings == [TitlePosting(0, 1, 1, 2)] && ShortPosting(gs[0].postings[0], MaxPayload);
    hide PostingGood, Tight, PostingAccepted, TitlePosting, ShortPosting;
    assert PostingsGood(gs[0].postings, 1, 0);
  }

  lemma BaseIsSound()
    ensures Sound(BaseGroups(), BaseTotals())
  {
    hide GroupsGood, LexicalGroups.ShortFields, SizedGroups, Built, BaseGroups;
    BaseIsGood();
    BaseSizes();
  }

  lemma BasePlaces()
    ensures var e := BaseEntries()[0]; e.frequency == 1 && e.postingsAt == 56 && e.postingsBytes == 84 && e.positionsAt == 12 && e.positionsBytes == 24
  {
    BaseIsSound();
    BaseSizes();
    hide Sound, Built, Decoded, PostingAccepted, BlockAccepted, StoredAt, Fields, TermAccepted, SumsAccepted;
    BuiltIsAccepted(BaseGroups(), BaseTotals());
    BuiltReadsBack(BaseGroups(), BaseTotals());
    A.OneListFills(Base(), BaseEntries());
  }

  lemma BaseIsAccepted()
    ensures ReadTerms(Base().terms) == Ok(BaseEntries()) && SegmentAccepted(Base(), BaseEntries())
    ensures ListInRange(Base(), BaseEntries()[0]) && Decoded(Base(), BaseEntries()[0]) == [TitlePosting(0, 1, 1, 2)]
  {
    BaseIsSound();
    hide Sound, Built, Decoded, SegmentAccepted, ReadTerms, ListInRange, TitlePosting;
    BuiltIsAccepted(BaseGroups(), BaseTotals());
    BuiltReadsBack(BaseGroups(), BaseTotals());
    assert ReadGroups(Base(), BaseEntries())[0] == BaseGroups()[0];
  }

  // ---------------------------------------------------------------- with a wrapped offset

  /** Two occurrences in a title of two tokens, two positions from the last place of 64 bits on. */
  const WrappedFields: seq<nat> := [DocumentType, 0, 2, 0, 0, 2, 0, 0, U64 - 1, 2]

  const WrappedBlock: seq<nat> := [0, 1, 2, 2]

  lemma WrappedFit()
    ensures Fit(WrappedFields, PostingWidths) && Fit(WrappedBlock, BlockWidths)
  {
    Widths();
  }

  /** The same segment with that posting record and the block maxima that go with it. */
  function Wrapped(): Payloads
    requires |Base().postings| >= 76
  {
    Base().(postings := Base().postings[..76] + Layout(WrappedFields, PostingWidths) + Layout(WrappedBlock, BlockWidths))
  }

  lemma WrappedBytes(head: Bytes, p: Bytes, b: Bytes)
    requires |head| == 76 && |p| == 48 && |b| == 16
    ensures var all := head + p + b; |all| == 140 && all[..76] == head && all[76..124] == p && all[124..140] == b
  {
  }

  lemma WrappedRecords()
    ensures |Base().postings| == 140 && |Wrapped().postings| == 140 && Wrapped().postings[..76] == Base().postings[..76]
    ensures var e := BaseEntries()[0]; ListFits(Wrapped(), e) && PostingInRange(Wrapped(), e, 0) && BlockInRange(Wrapped(), e, 0)
    ensures StoredAt(Wrapped(), BaseEntries()[0], 0) == Stored(DocumentType, 0, [2, 0, 0], [2, 0, 0], U64 - 1, 2)
    ensures BlockAt(Wrapped(), BaseEntries()[0], 0) == WrappedBlock
  {
    hide Built, Layout, Fields, BaseEntries;
    BaseSizes();
    BasePlaces();
    PostingWidth();
    RecordWidths();
    WrappedFit();
    ReadBack(WrappedFields, PostingWidths);
    ReadBack(WrappedBlock, BlockWidths);
    WrappedBytes(Base().postings[..76], Layout(WrappedFields, PostingWidths), Layout(WrappedBlock, BlockWidths));
    assert Blocks(1) == 1;
  }

  lemma SecondField(b: Bytes)
    requires |b| == 16
    ensures Width(RunWidths) == 16 && Fields(b, RunWidths)[1] == Get(b[8..16])
  {
    RecordWidths();
    assert b[8..][..8] == b[8..16];
    assert Fields(b, RunWidths)[1] == Fields(b[8..], RunWidths[1..])[0];
  }

  lemma BaseRecords()
    ensures |Base().positions| == 36 && Records(Base(), 12) == 1 && Get(Base().positions[20..28]) == 1
    ensures ListAccepted(Base(), BaseEntries(), 0)
  {
    BaseIsAccepted();
    BaseSizes();
    BasePlaces();
    hide Built, Decoded, PostingAccepted, BlockAccepted, StoredAt, ReadTerms, BaseEntries, Cursor, PostingBefore;
    A.OneListFills(Base(), BaseEntries());
    SecondField(Base().positions[12..28]);
    hide Fields, Get;
    assert Base().positions[12..28][8..16] == Base().positions[20..28];
  }

  lemma FirstRecord()
    ensures PositionInRange(Base(), BaseEntries()[0], 0) && PositionAt(Base(), BaseEntries()[0], 0) == Position(TitleField, 1)
  {
    BaseIsAccepted();
    BaseRecords();
    BasePlaces();
    hide Built, PostingAccepted, BlockAccepted, StoredAt, ReadTerms, BaseEntries, Cursor, Records, PositionAt, ListAccepted;
    A.OneListFills(Base(), BaseEntries());
    var seg, e := Base(), BaseEntries()[0];
    var stored := StoredAt(seg, e, 0);
    assert Decoded(seg, e)[0] == PostingAt(seg, e, 0);
    assert TitlePosting(0, 1, 1, 2).positions[0] == Position(TitleField, 1);
    assert stored.count == 1 && stored.offset == 0;
  }

  lemma HalvesAreFields(b: Bytes)
    requires |b| == 8
    ensures Width(PositionWidths) == 8 && Fields(b, PositionWidths) == [Get(b[..4]), Get(b[4..])]
  {
    RecordWidths();
    assert b[4..][..4] == b[4..];
    assert Fields(b[4..], PositionWidths[1..]) == [Get(b[4..])];
  }

  /** In front of the first record stands the number of records, which reads as the title's first token. */
  lemma ReadInFront(outside: int -> byte)
    ensures |Base().postings| == 140
    ensures PositionRead(Wrapped(), outside, BaseEntries()[0], -1) == Position(TitleField, 0)
    ensures PositionRead(Wrapped(), outside, BaseEntries()[0], 0) == Position(TitleField, 1)
  {
    BaseSizes();
    BasePlaces();
    BaseRecords();
    FirstRecord();
    hide Built, Fields, Get, Layout, BaseEntries, Records, ListAccepted;
    var seg, e := Wrapped(), BaseEntries()[0];
    var a, b := BytesAt(seg, outside, 20, 8), seg.positions[20..28];
    forall i | 0 <= i < 8 ensures a[i] == b[i] { assert a[i] == ByteAt(seg, outside, 20 + i); }
    assert a == b;
    OneInHalves(b);
    HalvesAreFields(b);
    PositionReadInside(seg, outside, e, 0);
    assert PositionAt(seg, e, 0) == PositionAt(Base(), e, 0);
  }

  lemma WrappedIsRead(outside: int -> byte)
    ensures |Base().postings| == 140 && ListFits(Wrapped(), BaseEntries()[0])
    ensures PostingsRead(Wrapped(), outside, BaseEntries()[0]) == [TitlePosting(0, 0, 2, 2)]
  {
    BaseSizes();
    BasePlaces();
    WrappedRecords();
    ReadInFront(outside);
    hide Built, StoredAt, PositionRead, BaseEntries, Layout, BlockAt;
    var p, q := PostingRead(Wrapped(), outside, BaseEntries()[0], 0), TitlePosting(0, 0, 2, 2);
    var s := StoredAt(Wrapped(), BaseEntries()[0], 0);
    assert Place(s, 0) == -1 && Place(s, 1) == 0;
    assert p.positions[0] == q.positions[0] && p.positions[1] == q.positions[1];
    assert p.positions == q.positions;
  }

  lemma WrappedBlockMatches()
    ensures BlockMatches(WrappedBlock, [TitlePosting(0, 0, 2, 2)], 0)
  {
    var p := TitlePosting(0, 0, 2, 2);
    assert [p][..0] == [] && [p][0..1] == [p];
    assert MaxFrequency([p]) == Larger(MaxFrequency([p][..0]), 2) && MinLength([p]) == Smaller(MinLength([p][..0]), 2);
  }

  lemma OnePostingPasses(seg: Payloads, outside: int -> byte, es: seq<Entry>, t: Totals, p: Posting)
    requires |es| == 1 && ListAccepted(seg, es, 0) && ListFits(seg, es[0]) && es[0].frequency == 1
    requires PostingsRead(seg, outside, es[0]) == [p] && PostingAccepted(p, t.documents, t.passages)
    requires (StoredAt(seg, es[0], 0).offset + StoredAt(seg, es[0], 0).count) % U64 <= Records(seg, es[0].positionsAt)
    requires BlockMatches(BlockAt(seg, es[0], 0), [p], 0)
    ensures TermPasses(seg, outside, es, 0, t)
  {
    hide StoredAt, PostingRead, PostingAccepted, BlockMatches, Records, ListAccepted, BlockAt;
    assert PostingsRead(seg, outside, es[0])[0] == PostingRead(seg, outside, es[0], 0);
    assert PostingPasses(seg, outside, es[0], 0, t);
    assert Blocks(1) == 1;
  }

  lemma WrappedTermPasses(outside: int -> byte)
    ensures |Base().postings| == 140 && TermPasses(Wrapped(), outside, BaseEntries(), 0, BaseTotals())
  {
    hide Base, Wrapped, BaseEntries, StoredAt, TitlePosting, PostingAccepted, PostingGood, Tight, BlockMatches, Records, ListAccepted, PostingsRead, BlockAt, ListFits, TermPasses;
    WrappedListAccepted();
    BasePlaces();
    WrappedRecords();
    WrappedIsRead(outside);
    WrappedBlockMatches();
    TitlePostingGood(0, 0, 2, 2, 1);
    OnePostingPasses(Wrapped(), outside, BaseEntries(), BaseTotals(), TitlePosting(0, 0, 2, 2));
  }

  lemma WrappedListAccepted()
    ensures |Base().postings| == 140 && |Wrapped().positions| == 36
    ensures ListAccepted(Wrapped(), BaseEntries(), 0) && ListFits(Wrapped(), BaseEntries()[0]) && Records(Wrapped(), 12) == 1
  {
    BaseSizes();
    BasePlaces();
    BaseRecords();
    WrappedRecords();
    hide Built, StoredAt, BaseEntries, Layout, BlockAt, Cursor, Fields;
    A.SamePart(Base().postings, Wrapped().postings, 76, 56, 76);
  }

  lemma WrappedHeads()
    ensures |Base().postings| == |Wrapped().postings| == 140 && |Wrapped().positions| == |Base().positions| == 36
    ensures PostingsHead(Wrapped()) == PostingsHead(Base()) && TotalsFrom(PostingsHead(Base())) == BaseTotals()
    ensures PositionsHead(Wrapped()) == PositionsHead(Base())
  {
    BaseSizes();
    BaseIsSound();
    SoundCounts(BaseGroups(), BaseTotals());
    HeadersRead(BaseGroups(), BaseTotals());
    TotalsKept(BaseTotals(), PostingTotal(BaseGroups()));
    WrappedRecords();
    hide Built, Fields, TotalFields, Layout;
    A.SamePart(Base().postings, Wrapped().postings, 76, 0, 56);
    assert Base().postings[..56] == Base().postings[0..56] && Wrapped().postings[..56] == Wrapped().postings[0..56];
  }

  /**
   The validator accepts the segment, whatever lies outside the payload, and reads two positions of
   which one is no record of the term; the specification refuses it.
   */
  lemma WrappedSegmentPasses(outside: int -> byte)
    ensures |Base().postings| == 140 && ReadTerms(Wrapped().terms) == Ok(BaseEntries()) && SegmentPasses(Wrapped(), outside, BaseEntries())
    ensures !NothingWraps(Wrapped(), BaseEntries()) && !SegmentAccepted(Wrapped(), BaseEntries())
  {
    BaseIsAccepted();
    BaseSizes();
    BasePlaces();
    WrappedRecords();
    WrappedHeads();
    WrappedTermPasses(outside);
    hide Built, ReadTerms, TermAccepted, TermPasses, BaseEntries, Layout, StoredAt, PostingsHead, PositionsHead, Cursor, FrequencySum, RecordSum, ListFits, BlockAt;
    assert SegmentPasses(Wrapped(), outside, BaseEntries());
    assert TermWraps(Wrapped(), BaseEntries()[0]);
    SegmentPassesExactly(Wrapped(), outside, BaseEntries());
  }
}
