/**
 Block maxima of accepted segments.  The validator takes a block's count from the file: it accepts a
 count smaller than the block's share of the list and then checks the maxima of the counted postings
 only.  Full counts make the maxima cover every posting; with a short count they need not.
 */
module AcceptedBlocks {
  import opened Common
  import opened LittleEndian
  import opened Bm25
  import opened Occurrences
  import opened LexicalGroups
  import opened LexicalFormat
  import opened LexicalReader
  import opened LexicalSegment
  import opened LexicalRoundTrip
  import V = LexicalValidate
  import K = LexicalLookup
  import L = SearchPlan
  import opened TitleCorpus
  import opened GroupsConverse

  /** The maxima stored with a term's blocks. */
  function StoredBlocks(seg: Payloads, e: Entry): (r: seq<Block>)
    requires ListInRange(seg, e)
    ensures |r| == Blocks(e.frequency)
  {
    seq(Blocks(e.frequency), b requires 0 <= b < Blocks(e.frequency) => Block(BlockAt(seg, e, b)[2], BlockAt(seg, e, b)[3]))
  }

  /** What search gets for a term. */
  function FoundIn(seg: Payloads, e: Entry): L.Found
    requires ListInRange(seg, e)
  {
    L.Found(Decoded(seg, e), StoredBlocks(seg, e))
  }

  /** The counts stored with a term's blocks. */
  function StoredCounts(seg: Payloads, e: Entry): (r: seq<nat>)
    requires ListInRange(seg, e)
    ensures |r| == Blocks(e.frequency)
  {
    seq(Blocks(e.frequency), b requires 0 <= b < Blocks(e.frequency) => BlockAt(seg, e, b)[1])
  }

  /** Block b of a list of n postings counts its whole share. */
  predicate FullCount(n: nat, b: nat, count: nat) {
    b * BlockSize + count == BlockEnd(n, b)
  }

  predicate FullCounts(n: nat, counts: seq<nat>) {
    forall b :: 0 <= b < |counts| ==> FullCount(n, b, counts[b])
  }

  /** The posting is among those its block counts. */
  predicate Counted(counts: seq<nat>, i: nat) {
    i / BlockSize < |counts| && i < i / BlockSize * BlockSize + counts[i / BlockSize]
  }

  /** The stored maxima of its block cover the posting. */
  predicate CoveredAt(seg: Payloads, e: Entry, i: nat)
    requires ListInRange(seg, e) && i < e.frequency
  {
    PostingOk(Decoded(seg, e)[i]) && Covers(StoredBlocks(seg, e)[i / BlockSize], Decoded(seg, e)[i])
  }

  /** Whatever a block counts, its maxima cover. */
  lemma CountedIsCovered(seg: Payloads, e: Entry, i: nat)
    requires ListInRange(seg, e) && i < e.frequency && BlockAccepted(seg, e, i / BlockSize)
    requires Counted(StoredCounts(seg, e), i) && PostingOk(Decoded(seg, e)[i])
    ensures CoveredAt(seg, e, i)
  {
    hide MaxFrequency, MinLength, BlockAt, Decoded;
    var b, ps := i / BlockSize, Decoded(seg, e);
    var f := BlockAt(seg, e, b);
    InCounted(f, ps, b, i);
  }

  lemma InCounted(f: seq<nat>, ps: seq<Posting>, b: nat, i: nat)
    requires |f| == 4 && BlockMatches(f, ps, b) && b * BlockSize <= i < b * BlockSize + f[1] && PostingOk(ps[i])
    ensures Covers(Block(f[2], f[3]), ps[i])
  {
    hide MaxFrequency, MinLength;
    var first, end := f[0], f[0] + f[1];
    V.InBlock(ps[first..end], i - first);
    assert ps[first..end][i - first] == ps[i];
  }

  lemma AcceptedPostingOk(p: Posting, documents: nat, passages: nat)
    requires PostingAccepted(p, documents, passages) && documents <= TypeBit && passages <= TypeBit
    ensures PostingOk(p) && p.tf[0] + p.tf[1] + p.tf[2] > 0
  {
  }

  lemma KeyOrder(p: Posting, q: Posting)
    requires PostingOk(p) && PostingOk(q) && PostingBefore(p, q)
    ensures Key(p) < Key(q)
  {
  }

  /** What acceptance alone gives: postings in order, each covered if its block counts it. */
  lemma AcceptedPostings(seg: Payloads, es: seq<Entry>, k: nat, t: Totals)
    requires k < |es| && TermAccepted(seg, es, k, t) && es[k].frequency > 0 && t.documents <= TypeBit && t.passages <= TypeBit
    ensures L.PostingsOk(FoundIn(seg, es[k]))
    ensures forall i :: 0 <= i < es[k].frequency && Counted(StoredCounts(seg, es[k]), i) ==> CoveredAt(seg, es[k], i)
  {
    hide BlockAccepted, PostingAccepted, Decoded, StoredBlocks, StoredCounts, ListAccepted, BlockAt, CoveredAt, PostingBefore, Counted;
    var e := es[k];
    var ps := Decoded(seg, e);
    forall i | 0 <= i < e.frequency
      ensures PostingOk(ps[i]) && ps[i].tf[0] + ps[i].tf[1] + ps[i].tf[2] > 0
      ensures Counted(StoredCounts(seg, e), i) ==> CoveredAt(seg, e, i)
    {
      assert PostingAccepted(ps[i], t.documents, t.passages);
      AcceptedPostingOk(ps[i], t.documents, t.passages);
      assert BlockAccepted(seg, e, i / BlockSize);
      if Counted(StoredCounts(seg, e), i) { CountedIsCovered(seg, e, i); }
    }
    forall i, j | 0 <= i < j < e.frequency ensures Key(ps[i]) < Key(ps[j]) {
      K.AcceptedBefore(seg, es, k, t, i, j);
      KeyOrder(ps[i], ps[j]);
    }
  }

  /** An accepted list meets what search relies on if and only if its maxima cover the postings no block counts. */
  lemma SearchableExactly(seg: Payloads, es: seq<Entry>, k: nat, t: Totals)
    requires k < |es| && TermAccepted(seg, es, k, t) && es[k].frequency > 0 && t.documents <= TypeBit && t.passages <= TypeBit
    ensures L.FoundOk(FoundIn(seg, es[k])) <==>
      forall i :: 0 <= i < es[k].frequency && !Counted(StoredCounts(seg, es[k]), i) ==> CoveredAt(seg, es[k], i)
  {
    hide ListAccepted, BlockAccepted, PostingAccepted, PostingBefore, Decoded, StoredBlocks, StoredCounts, Counted, Covers;
    AcceptedPostings(seg, es, k, t);
    var e, found := es[k], FoundIn(seg, es[k]);
    if L.FoundOk(found) {
      forall i | 0 <= i < e.frequency ensures CoveredAt(seg, e, i) {
        assert Covers(L.BlockOf(found, i), found.postings[i]);
      }
    }
    if forall i :: 0 <= i < e.frequency && !Counted(StoredCounts(seg, e), i) ==> CoveredAt(seg, e, i) {
      forall i | 0 <= i < |found.postings| ensures Covers(L.BlockOf(found, i), found.postings[i]) {
        assert CoveredAt(seg, e, i);
      }
    }
  }

  lemma FullCountsAll(n: nat, counts: seq<nat>, i: nat)
    requires |counts| == Blocks(n) && FullCounts(n, counts) && i < n
    ensures Counted(counts, i)
  {
    assert FullCount(n, i / BlockSize, counts[i / BlockSize]);
  }

  /** In particular an accepted list whose blocks count their whole share does. */
  lemma AcceptedListsAreSearchable(seg: Payloads, es: seq<Entry>, k: nat, t: Totals)
    requires k < |es| && TermAccepted(seg, es, k, t) && es[k].frequency > 0 && t.documents <= TypeBit && t.passages <= TypeBit
    requires FullCounts(es[k].frequency, StoredCounts(seg, es[k]))
    ensures L.FoundOk(FoundIn(seg, es[k]))
  {
    hide ListAccepted, BlockAccepted, PostingAccepted, PostingBefore, FullCounts, StoredCounts, Counted, L.FoundOk, CoveredAt;
    SearchableExactly(seg, es, k, t);
    forall i | 0 <= i < es[k].frequency ensures Counted(StoredCounts(seg, es[k]), i) {
      FullCountsAll(es[k].frequency, StoredCounts(seg, es[k]), i);
    }
  }

  // ---------------------------------------------------------------- other counts in an accepted segment

  /** Counts a validator can accept for a list of n postings. */
  predicate CountsOk(n: nat, counts: seq<nat>) {
    |counts| == Blocks(n) && forall b :: 0 <= b < |counts| ==> 0 < counts[b] && b * BlockSize + counts[b] <= BlockEnd(n, b)
  }

  lemma CountInList(n: nat, counts: seq<nat>, b: nat)
    requires CountsOk(n, counts) && b < |counts|
    ensures 0 < counts[b] <= BlockSize && b * BlockSize + counts[b] <= n
  {
    BlockStarts(n, b);
  }

  /** The record of block b when it counts so many postings. */
  function FieldsFor(ps: seq<Posting>, counts: seq<nat>, b: nat): (f: seq<nat>)
    requires SizedPostings(ps) && CountsOk(|ps|, counts) && b < |counts|
    ensures |f| == 4
  {
    CountInList(|ps|, counts, b);
    var counted := ps[b * BlockSize..b * BlockSize + counts[b]];
    [b * BlockSize, counts[b], MaxFrequency(counted), MinLength(counted)]
  }

  predicate FieldsFit(ps: seq<Posting>, counts: seq<nat>)
    requires SizedPostings(ps) && CountsOk(|ps|, counts)
  {
    forall b :: 0 <= b < |counts| ==> Fit(FieldsFor(ps, counts, b), BlockWidths)
  }

  function RowsFor(ps: seq<Posting>, counts: seq<nat>): (rows: seq<Bytes>)
    requires SizedPostings(ps) && CountsOk(|ps|, counts)
    ensures |rows| == |counts| && forall b :: 0 <= b < |rows| ==> |rows[b]| == 16
  {
    RecordWidths();
    seq(|counts|, b requires 0 <= b < |counts| => Layout(FieldsFor(ps, counts, b), BlockWidths))
  }

  /** A segment of one list with its block records replaced by those for the given counts. */
  function Recounted(seg: Payloads, e: Entry, ps: seq<Posting>, counts: seq<nat>): Payloads
    requires SizedPostings(ps) && CountsOk(|ps|, counts) && e.postingsAt + 20 + 48 * e.frequency <= |seg.postings|
  {
    seg.(postings := seg.postings[..e.postingsAt + 20 + 48 * e.frequency] + Concat(RowsFor(ps, counts)))
  }

  lemma SamePart(a: Bytes, b: Bytes, n: nat, x: nat, y: nat)
    requires n <= |a| && n <= |b| && a[..n] == b[..n] && x <= y <= n
    ensures a[x..y] == b[x..y]
  {
    assert a[x..y] == a[..n][x..y] && b[x..y] == b[..n][x..y];
  }

  /** The postings start alike and the positions are the same. */
  predicate SameLists(seg: Payloads, other: Payloads, e: Entry) {
    && |other.postings| == |seg.postings| && other.positions == seg.positions && other.terms == seg.terms
    && var n := e.postingsAt + 20 + 48 * e.frequency; n <= |seg.postings| && other.postings[..n] == seg.postings[..n]
  }

  lemma SameBytes(seg: Payloads, other: Payloads, e: Entry)
    requires ListInRange(seg, e) && SameLists(seg, other, e)
    ensures ListInRange(other, e) && forall i :: 0 <= i < e.frequency ==> StoredAt(other, e, i) == StoredAt(seg, e, i)
  {
    var n := e.postingsAt + 20 + 48 * e.frequency;
    forall i | 0 <= i < e.frequency ensures StoredAt(other, e, i) == StoredAt(seg, e, i) {
      var at := e.postingsAt + 20 + 48 * i;
      assert PostingInRange(seg, e, i);
      SamePart(seg.postings, other.postings, n, at, at + 48);
    }
  }

  lemma PostingsUnchanged(seg: Payloads, other: Payloads, e: Entry)
    requires ListInRange(seg, e) && SameLists(seg, other, e)
    ensures ListInRange(other, e) && Decoded(other, e) == Decoded(seg, e)
  {
    SameBytes(seg, other, e);
    hide StoredAt;
    forall i | 0 <= i < e.frequency ensures PostingAt(other, e, i) == PostingAt(seg, e, i) {
      var a, b := PostingAt(other, e, i).positions, PostingAt(seg, e, i).positions;
      var at := StoredAt(seg, e, i).offset;
      forall j | 0 <= j < |a| ensures a[j] == b[j] {
        assert a[j] == PositionAt(other, e, at + j) && b[j] == PositionAt(seg, e, at + j);
      }
      assert a == b;
    }
  }

  lemma SameList(seg: Payloads, other: Payloads, es: seq<Entry>)
    requires |es| == 1 && ListAccepted(seg, es, 0) && SameLists(seg, other, es[0])
    ensures ListAccepted(other, es, 0)
  {
    hide Cursor;
    SamePart(seg.postings, other.postings, es[0].postingsAt + 20 + 48 * es[0].frequency, es[0].postingsAt, es[0].postingsAt + 20);
  }

  /** The list and its blocks fill the postings payload. */
  predicate FillsPostings(seg: Payloads, e: Entry) {
    e.postingsAt >= 56 && e.postingsAt + 20 + 48 * e.frequency + 16 * Blocks(e.frequency) == |seg.postings|
  }

  lemma RecountedLists(seg: Payloads, e: Entry, ps: seq<Posting>, counts: seq<nat>)
    requires SizedPostings(ps) && CountsOk(|ps|, counts) && |ps| == e.frequency && FillsPostings(seg, e)
    ensures SameLists(seg, Recounted(seg, e, ps, counts), e)
  {
    hide RowsFor, Concat;
    ConcatRows(RowsFor(ps, counts), 16);
  }

  lemma RecountedBlock(seg: Payloads, e: Entry, ps: seq<Posting>, counts: seq<nat>, b: nat)
    requires SizedPostings(ps) && CountsOk(|ps|, counts) && |ps| == e.frequency && FillsPostings(seg, e) && FieldsFit(ps, counts) && b < |counts|
    ensures BlockInRange(Recounted(seg, e, ps, counts), e, b) && BlockAt(Recounted(seg, e, ps, counts), e, b) == FieldsFor(ps, counts, b)
  {
    hide FieldsFor, Concat, Fit, Layout, Fields;
    RecordWidths();
    var n := e.postingsAt + 20 + 48 * e.frequency;
    RowAt(seg.postings[..n], RowsFor(ps, counts), [], 16, b);
    NoTail(seg.postings[..n] + Concat(RowsFor(ps, counts)));
    ReadBack(FieldsFor(ps, counts, b), BlockWidths);
  }

  lemma RecountedMatches(ps: seq<Posting>, counts: seq<nat>, b: nat)
    requires SizedPostings(ps) && CountsOk(|ps|, counts) && b < |counts|
    ensures BlockMatches(FieldsFor(ps, counts, b), ps, b)
  {
    hide MaxFrequency, MinLength;
    CountInList(|ps|, counts, b);
  }

  /** The list stays accepted and now has the given counts. */
  lemma RecountedTerm(seg: Payloads, other: Payloads, es: seq<Entry>, t: Totals, ps: seq<Posting>, counts: seq<nat>)
    requires |es| == 1 && TermAccepted(seg, es, 0, t) && ps == Decoded(seg, es[0]) && SizedPostings(ps) && FillsPostings(seg, es[0])
    requires CountsOk(|ps|, counts) && FieldsFit(ps, counts) && other == Recounted(seg, es[0], ps, counts)
    ensures TermAccepted(other, es, 0, t) && Decoded(other, es[0]) == ps && StoredCounts(other, es[0]) == counts
    ensures forall b :: 0 <= b < |counts| ==> BlockAt(other, es[0], b) == FieldsFor(ps, counts, b)
  {
    hide StoredAt, Decoded, PostingAccepted, BlockAt, PostingBefore, ListAccepted, FieldsFor, FieldsFit, Recounted, SameLists, FillsPostings, BlockMatches;
    var e := es[0];
    RecountedLists(seg, e, ps, counts);
    SameBytes(seg, other, e);
    PostingsUnchanged(seg, other, e);
    SameList(seg, other, es);
    SamePositions(seg, other, e);
    forall b | 0 <= b < |counts| ensures BlockAccepted(other, e, b) && BlockAt(other, e, b) == FieldsFor(ps, counts, b) && FieldsFor(ps, counts, b)[1] == counts[b] {
      RecountedBlock(seg, e, ps, counts, b);
      RecountedMatches(ps, counts, b);
      CountField1(ps, counts, b);
    }
  }

  lemma SamePositions(seg: Payloads, other: Payloads, e: Entry)
    requires SameLists(seg, other, e)
    ensures other.positions == seg.positions && other.terms == seg.terms
  {
  }

  lemma CountField1(ps: seq<Posting>, counts: seq<nat>, b: nat)
    requires SizedPostings(ps) && CountsOk(|ps|, counts) && b < |counts|
    ensures FieldsFor(ps, counts, b)[1] == counts[b]
  {
  }

  lemma OneListFills(seg: Payloads, es: seq<Entry>)
    requires |es| == 1 && SegmentAccepted(seg, es)
    ensures FillsPostings(seg, es[0]) && |seg.postings| >= 76 && |seg.positions| >= 12 && TermAccepted(seg, es, 0, TotalsFrom(PostingsHead(seg)))
  {
    hide StoredAt, Decoded, PostingAccepted, BlockAccepted, Fields;
    assert Cursor(PostingSizes(es), 56, 1) == Cursor(PostingSizes(es), 56, 0) + es[0].postingsBytes;
    assert TermAccepted(seg, es, 0, TotalsFrom(PostingsHead(seg)));
  }

  lemma SameHeads(seg: Payloads, other: Payloads, e: Entry)
    requires SameLists(seg, other, e) && e.postingsAt >= 56 && |seg.positions| >= 12
    ensures |other.postings| == |seg.postings| >= 56 && PostingsHead(other) == PostingsHead(seg) && PositionsHead(other) == PositionsHead(seg)
  {
    SamePart(seg.postings, other.postings, e.postingsAt + 20 + 48 * e.frequency, 0, 56);
    assert seg.postings[..56] == seg.postings[0..56] && other.postings[..56] == other.postings[0..56];
  }

  /** An accepted segment of one list stays accepted under any counts a block can have. */
  lemma RecountedSegment(seg: Payloads, other: Payloads, es: seq<Entry>, ps: seq<Posting>, counts: seq<nat>)
    requires |es| == 1 && SegmentAccepted(seg, es) && ListInRange(seg, es[0]) && ps == Decoded(seg, es[0]) && SizedPostings(ps)
    requires CountsOk(|ps|, counts) && FieldsFit(ps, counts) && FillsPostings(seg, es[0]) && other == Recounted(seg, es[0], ps, counts)
    ensures SegmentAccepted(other, es) && other.terms == seg.terms
    ensures ListInRange(other, es[0]) && Decoded(other, es[0]) == ps && StoredCounts(other, es[0]) == counts
  {
    hide StoredAt, Decoded, PostingAccepted, BlockAccepted, Recounted, Fit, SizedPostings, PostingsHead, PositionsHead, Cursor, FieldsFit,
         CountsOk, SameLists, StoredCounts, ListAccepted, PostingBefore;
    OneListFills(seg, es);
    RecountedLists(seg, es[0], ps, counts);
    SameHeads(seg, other, es[0]);
    SamePositions(seg, other, es[0]);
    RecountedTerm(seg, other, es, TotalsFrom(PostingsHead(seg)), ps, counts);
  }

  // ---------------------------------------------------------------- documents of one word

  const Word: Bytes := [1]

  /** The word is once in every title and twice in one of them. */
  function Times(p: nat, d: nat): nat {
    if d == p then 2 else 1
  }

  function WordTitles(n: nat, p: nat): (titles: seq<seq<Bytes>>)
    ensures |titles| == n && forall d :: 0 <= d < n ==> titles[d] == seq(Times(p, d), _ => Word)
  {
    seq(n, d requires 0 <= d < n => seq(Times(p, d), _ => Word))
  }

  function WordPostings(n: nat, p: nat): (ps: seq<Posting>)
    ensures |ps| == n && forall d :: 0 <= d < n ==> ps[d] == TitlePosting(d, 0, Times(p, d), Times(p, d))
    ensures n > 0 ==> SizedPostings(ps)
  {
    seq(n, d requires 0 <= d < n => TitlePosting(d, 0, Times(p, d), Times(p, d)))
  }

  function WordGroups(n: nat, p: nat): (gs: seq<Group>)
    requires n > 0
    ensures SizedGroups(gs)
  {
    [Group(Word, WordPostings(n, p))]
  }

  lemma WordsAreGood(n: nat, p: nat)
    requires n > 0
    ensures GroupsGood(WordGroups(n, p), n, 0) && TightGroups(WordGroups(n, p)) && LexicalGroups.ShortFields(WordGroups(n, p), MaxPayload)
  {
    hide PostingGood, Tight, PostingAccepted;
    var ps := WordPostings(n, p);
    forall d | 0 <= d < n ensures PostingGood(ps[d], n, 0) && Tight(ps[d]) && ShortPosting(ps[d], MaxPayload) {
      TitlePostingGood(d, 0, Times(p, d), Times(p, d), n);
    }
    hide TitlePosting;
    assert forall i, j :: 0 <= i < j < n ==> PostingBefore(ps[i], ps[j]) by { WordOrder(n, p); }
    assert PostingsGood(ps, n, 0);
  }

  lemma WordOrder(n: nat, p: nat)
    ensures var ps := WordPostings(n, p); forall i, j :: 0 <= i < j < n ==> PostingBefore(ps[i], ps[j])
  {
  }

  lemma WordsAreTokens(n: nat, p: nat)
    requires n > 0
    ensures OnlyTokens(WordTitles(n, p), WordGroups(n, p)) && AllTokens(WordTitles(n, p), WordGroups(n, p)) && TitlesOk(WordTitles(n, p))
  {
    var titles, gs := WordTitles(n, p), WordGroups(n, p);
    hide WordTitles, WordPostings;
    assert gs[0].postings == WordPostings(n, p);
    forall d, i | 0 <= d < n && 0 <= i < |titles[d]| ensures HasToken(gs, titles[d][i], d, i) {
      assert gs[0].postings[d].positions[i] == Position(TitleField, i);
    }
  }

  lemma WordsGroupTo(n: nat, p: nat)
    requires n > 0
    ensures FieldsInRange(Tokens(WordTitles(n, p))) && Grouped(Tokens(WordTitles(n, p))) == WordGroups(n, p)
  {
    hide Tokens, Grouped, FieldsInRange, GroupsGood, TightGroups, OnlyTokens, AllTokens, TitlesOk, WordPostings;
    WordsAreGood(n, p);
    WordsAreTokens(n, p);
    TitlesGroupTo(WordTitles(n, p), WordGroups(n, p));
  }

  lemma OneGroupSizes(g: Group, t: Totals)
    requires SizedGroups([g]) && |t.tokens| == 3
    ensures var built := Built([g], t);
      && |built.terms| == 56 + |g.term| && |built.postings| == 76 + 48 * |g.postings| + 16 * Blocks(|g.postings|)
      && |built.positions| == 28 + 8 * |AllPositions(g.postings)|
  {
    hide EntryRow, TermPostings, TermPositions, AllPositions, SizedPostings, Concat;
    SizedOne(g);
    TermPostingsSize(0, g.postings);
    TermPositionsSize(0, g.postings);
    OnePart(EntryRows([g])[0]);
    OnePart(TermPostings(0, g.postings));
    OnePart(TermPositions(0, g.postings));
    assert EntryRows([g]) == [EntryRow([g], 0)];
    assert PostingParts([g]) == [TermPostings(0, g.postings)] && PositionParts([g]) == [TermPositions(0, g.postings)];
  }

  lemma OnePart(b: Bytes)
    ensures Concat([b]) == b
  {
    assert [b][..0] == [];
  }

  lemma SizedOne(g: Group)
    requires SizedGroups([g])
    ensures SizedPostings(g.postings)
  {
    assert [g][0] == g;
  }

  lemma {:induction false} FewPositions(ps: seq<Posting>)
    requires forall i :: 0 <= i < |ps| ==> |ps[i].positions| <= 2
    ensures |AllPositions(ps)| <= 2 * |ps|
  {
    if |ps| > 0 { FewPositions(ps[..|ps| - 1]); }
  }

  function WordTotals(n: nat): Totals {
    Totals(n, 0, [n + 1, 0, 0])
  }

  /** A list of n postings fits a segment. */
  predicate ListFits(n: nat) {
    76 + 48 * n + 16 * Blocks(n) <= MaxPayload
  }

  lemma WordsAreSound(n: nat, p: nat)
    requires n > 0 && ListFits(n)
    ensures Sound(WordGroups(n, p), WordTotals(n))
  {
    hide Built, AllPositions, GroupsGood, LexicalGroups.ShortFields, SizedGroups, Blocks;
    WordsAreGood(n, p);
    FewPositions(WordPostings(n, p));
    OneGroupSizes(WordGroups(n, p)[0], WordTotals(n));
    assert WordGroups(n, p) == [WordGroups(n, p)[0]];
  }

  /** The segment of the documents as the writer makes it. */
  function WordSegment(n: nat, p: nat): Payloads
    requires n > 0
  {
    Built(WordGroups(n, p), WordTotals(n))
  }

  function WordEntries(n: nat, p: nat): (es: seq<Entry>)
    requires n > 0
    ensures |es| == 1
  {
    Entries(WordGroups(n, p))
  }

  lemma WordsAreWritten(n: nat, p: nat)
    requires n > 0 && ListFits(n)
    ensures var seg, es := WordSegment(n, p), WordEntries(n, p);
      && ReadTerms(seg.terms) == Ok(es) && SegmentAccepted(seg, es) && TermAccepted(seg, es, 0, WordTotals(n))
      && ListInRange(seg, es[0]) && Decoded(seg, es[0]) == WordPostings(n, p) && FillsPostings(seg, es[0])
  {
    hide Built, ReadTerms, SegmentAccepted, TermAccepted, ListInRange, Decoded, Sound, WordPostings, FillsPostings, EntryOf;
    var gs, t := WordGroups(n, p), WordTotals(n);
    WordsAreSound(n, p);
    BuiltIsAccepted(gs, t);
    BuiltReadsBack(gs, t);
    TermsAccepted(gs, t, 0);
    OneListFills(Built(gs, t), Entries(gs));
    assert ReadGroups(Built(gs, t), Entries(gs))[0] == gs[0];
  }

  // ---------------------------------------------------------------- short counts

  lemma {:induction false} AllOnes(ps: seq<Posting>)
    requires |ps| > 0 && forall i :: 0 <= i < |ps| ==> Sized(ps[i]) && Frequency(ps[i]) == 1 && Shortest(ps[i]) == 1
    ensures MaxFrequency(ps) == 1 && MinLength(ps) == 1
  {
    hide Frequency, Shortest, Sized;
    if |ps| > 1 {
      AllOnes(ps[..|ps| - 1]);
    } else {
      assert ps[..0] == [];
      assert MaxFrequency(ps[..0]) == 0 && MinLength(ps[..0]) == U32 - 1;
    }
  }

  lemma WordNumbers(d: nat, times: nat)
    requires 1 <= times <= 2
    ensures var q := TitlePosting(d, 0, times, times); Sized(q) && Frequency(q) == times && Shortest(q) == times
  {
  }

  /** No block counts the posting with two occurrences, so every record says one. */
  lemma WordFields(n: nat, p: nat, counts: seq<nat>, b: nat)
    requires n > 0 && CountsOk(n, counts) && b < |counts| && !Counted(counts, p)
    ensures FieldsFor(WordPostings(n, p), counts, b) == [b * BlockSize, counts[b], 1, 1]
  {
    hide MaxFrequency, MinLength, Frequency, Shortest, Sized, WordPostings;
    CountInList(n, counts, b);
    var ps, first := WordPostings(n, p), b * BlockSize;
    var counted := ps[first..first + counts[b]];
    forall i | 0 <= i < |counted| ensures Sized(counted[i]) && Frequency(counted[i]) == 1 && Shortest(counted[i]) == 1 {
      assert counted[i] == ps[first + i] && (first + i) / BlockSize == b;
      assert first + i != p;
      WordNumbers(first + i, 1);
    }
    AllOnes(counted);
  }

  lemma WordFieldsFit(n: nat, p: nat, counts: seq<nat>)
    requires n > 0 && ListFits(n) && CountsOk(n, counts) && !Counted(counts, p)
    ensures FieldsFit(WordPostings(n, p), counts)
  {
    hide WordPostings, FieldsFor;
    RecordWidths();
    Widths();
    forall b | 0 <= b < |counts| ensures Fit(FieldsFor(WordPostings(n, p), counts, b), BlockWidths) {
      WordFields(n, p, counts, b);
      CountInList(n, counts, b);
      SmallFields(b * BlockSize, counts[b]);
    }
  }

  lemma SmallFields(first: nat, count: nat)
    requires first < U32 && count < U32
    ensures Fit([first, count, 1, 1], BlockWidths)
  {
    Widths();
  }

  lemma UncountedExists(n: nat, counts: seq<nat>) returns (p: nat)
    requires CountsOk(n, counts) && !FullCounts(n, counts)
    ensures p < n && !Counted(counts, p)
  {
    var b :| 0 <= b < |counts| && !FullCount(n, b, counts[b]);
    CountInList(n, counts, b);
    p := b * BlockSize + counts[b];
    assert p < BlockEnd(n, b) && p / BlockSize == b;
  }

  /** The segment with other counts in its blocks. */
  function ShortSegment(n: nat, p: nat, counts: seq<nat>): Payloads
    requires n > 0 && CountsOk(n, counts) && WordEntries(n, p)[0].postingsAt + 20 + 48 * WordEntries(n, p)[0].frequency <= |WordSegment(n, p).postings|
  {
    Recounted(WordSegment(n, p), WordEntries(n, p)[0], WordPostings(n, p), counts)
  }

  lemma WordPlaces(n: nat, p: nat)
    requires n > 0 && ListFits(n)
    ensures WordEntries(n, p)[0].postingsAt + 20 + 48 * WordEntries(n, p)[0].frequency <= |WordSegment(n, p).postings|
    ensures WordEntries(n, p)[0].frequency == n
  {
    hide Built, ReadTerms, SegmentAccepted, TermAccepted, ListInRange, Decoded;
    WordsAreWritten(n, p);
  }

  /**
   Any counts that leave out a posting: documents, their segment as written, and the same segment
   with those counts.  Both validators accept it, every posting reads back, and the stored maxima do
   not cover the posting left out, so search may prune what it should return.
   */
  lemma ShortCountsDoNotCover(n: nat, counts: seq<nat>, p: nat)
    requires ListFits(n) && CountsOk(n, counts) && p < n && !Counted(counts, p)
    ensures FieldsInRange(Tokens(WordTitles(n, p))) && Grouped(Tokens(WordTitles(n, p))) == WordGroups(n, p)
    ensures WordEntries(n, p)[0].frequency == n && WordEntries(n, p)[0].postingsAt + 20 + 48 * n <= |WordSegment(n, p).postings|
    ensures var short, es := ShortSegment(n, p, counts), WordEntries(n, p);
      && ReadTerms(short.terms) == Ok(es) && SegmentAccepted(short, es) && TermAccepted(short, es, 0, WordTotals(n))
      && ListInRange(short, es[0]) && Decoded(short, es[0]) == WordPostings(n, p) && StoredCounts(short, es[0]) == counts
      && !CoveredAt(short, es[0], p) && !L.FoundOk(FoundIn(short, es[0]))
  {
    hide Tokens, Grouped, FieldsInRange, Built, ReadTerms, SegmentAccepted, TermAccepted, Decoded, WordPostings, FillsPostings, FieldsFit, FieldsFor,
         Counted, CountsOk, Recounted, StoredCounts, StoredBlocks, WordTitles, WordSegment, WordEntries;
    WordsGroupTo(n, p);
    WordsAreWritten(n, p);
    WordPlaces(n, p);
    WordFieldsFit(n, p, counts);
    var seg, es, ps := WordSegment(n, p), WordEntries(n, p), WordPostings(n, p);
    var short := Recounted(seg, es[0], ps, counts);
    RecountedTerm(seg, short, es, WordTotals(n), ps, counts);
    RecountedSegment(seg, short, es, ps, counts);
    LeftOut(short, es[0], n, p, counts);
  }

  lemma LeftOut(short: Payloads, e: Entry, n: nat, p: nat, counts: seq<nat>)
    requires p < n && CountsOk(n, counts) && !Counted(counts, p) && ListInRange(short, e) && e.frequency == n && Decoded(short, e) == WordPostings(n, p)
    requires forall b :: 0 <= b < |counts| ==> BlockAt(short, e, b) == FieldsFor(WordPostings(n, p), counts, b)
    ensures !CoveredAt(short, e, p) && !L.FoundOk(FoundIn(short, e))
  {
    hide Decoded, BlockAt, FieldsFor, WordPostings;
    var b := p / BlockSize;
    WordFields(n, p, counts, b);
    WordNumbers(p, 2);
    hide TitlePosting, Counted, CountsOk;
    assert StoredBlocks(short, e)[b] == Block(1, 1);
    FoundCovers(short, e, p);
  }

  lemma FoundCovers(seg: Payloads, e: Entry, i: nat)
    requires ListInRange(seg, e) && i < e.frequency
    ensures L.FoundOk(FoundIn(seg, e)) ==> CoveredAt(seg, e, i)
  {
    hide Decoded, StoredBlocks, Covers;
    var found := FoundIn(seg, e);
    if L.FoundOk(found) { assert Covers(L.BlockOf(found, i), found.postings[i]); }
  }

  /** An accepted list of n postings with these counts. */
  ghost predicate AcceptedWith(seg: Payloads, es: seq<Entry>, k: nat, t: Totals, n: nat, counts: seq<nat>) {
    && k < |es| && TermAccepted(seg, es, k, t) && es[k].frequency == n && t.documents <= TypeBit && t.passages <= TypeBit
    && ListInRange(seg, es[k]) && StoredCounts(seg, es[k]) == counts
  }

  /** Every accepted list with these counts meets what search relies on if and only if the counts are full. */
  lemma CountsDecide(n: nat, counts: seq<nat>)
    requires n > 0 && ListFits(n) && CountsOk(n, counts)
    ensures (forall seg, es, k, t :: AcceptedWith(seg, es, k, t, n, counts) ==> L.FoundOk(FoundIn(seg, es[k]))) <==> FullCounts(n, counts)
  {
    hide TermAccepted, L.FoundOk, FullCounts, ListInRange, StoredCounts, FoundIn, CountsOk, Counted;
    if FullCounts(n, counts) {
      forall seg, es, k, t | AcceptedWith(seg, es, k, t, n, counts) ensures L.FoundOk(FoundIn(seg, es[k])) {
        AcceptedListsAreSearchable(seg, es, k, t);
      }
    } else {
      var p := UncountedExists(n, counts);
      ShortCountsDoNotCover(n, counts, p);
      assert AcceptedWith(ShortSegment(n, p, counts), WordEntries(n, p), 0, WordTotals(n), n, counts);
    }
  }

  /** The smallest such input: titles of one and of two words, and a block that counts the first only. */
  lemma TwoDocumentsDoNotCover()
    ensures ListFits(2) && CountsOk(2, [1]) && WordTitles(2, 1) == [[Word], [Word, Word]]
    ensures WordEntries(2, 1)[0].postingsAt + 20 + 48 * WordEntries(2, 1)[0].frequency <= |WordSegment(2, 1).postings|
    ensures var short, es := ShortSegment(2, 1, [1]), WordEntries(2, 1);
      SegmentAccepted(short, es) && ListInRange(short, es[0]) && !L.FoundOk(FoundIn(short, es[0]))
  {
    hide *;
    TwoDocuments();
    ShortCountsDoNotCover(2, [1], 1);
  }

  lemma TwoDocuments()
    ensures ListFits(2) && CountsOk(2, [1]) && !Counted([1], 1) && WordTitles(2, 1) == [[Word], [Word, Word]]
  {
    assert BlockEnd(2, 0) == 2 && Blocks(2) == 1;
    var titles := WordTitles(2, 1);
    assert titles[0] == [Word] && titles[1] == [Word, Word];
  }
}
