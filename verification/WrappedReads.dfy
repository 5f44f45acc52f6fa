/**
 What the validator accepts with the arithmetic it has.  The sum of a posting's position offset and
 count wraps around at 2^64; a posting whose sum wraps has its first positions read in front of its
 own records.  Apart from such postings the validator accepts exactly what it should.
 */
module WrappedReads {
  import opened Common
  import opened LittleEndian
  import opened Bm25
  import opened LexicalGroups
  import opened LexicalFormat
  import opened LexicalReader
  import opened LexicalSegment
  import opened LexicalRoundTrip

  // ---------------------------------------------------------------- reads at wrapped places

  /** A byte by its signed place from the start of the positions payload; outside is whatever lies there. */
  function ByteAt(seg: Payloads, outside: int -> byte, at: int): byte {
    if 0 <= at < |seg.positions| then seg.positions[at] else outside(at)
  }

  function BytesAt(seg: Payloads, outside: int -> byte, at: int, n: nat): (b: Bytes)
    ensures |b| == n
  {
    seq(n, i requires 0 <= i < n => ByteAt(seg, outside, at + i))
  }

  predicate Wraps(s: Stored) {
    s.offset + s.count >= U64
  }

  /** The record a posting's position j is read from, counted from the first record of its term. */
  function Place(s: Stored, j: nat): int {
    if Wraps(s) then s.offset + j - U64 else s.offset + j
  }

  function PositionRead(seg: Payloads, outside: int -> byte, e: Entry, x: int): Position {
    RecordWidths();
    var f := Fields(BytesAt(seg, outside, e.positionsAt + 16 + 8 * x, 8), PositionWidths);
    Position(f[0], f[1])
  }

  /** A posting with its positions as the validator reads them. */
  function PostingRead(seg: Payloads, outside: int -> byte, e: Entry, i: nat): (p: Posting)
    requires PostingInRange(seg, e, i)
    ensures |p.tf| == 3 && |p.length| == 3
  {
    var s := StoredAt(seg, e, i);
    Posting(s.objectType, s.ordinal, s.tf, s.length,
            seq(s.count, j requires 0 <= j < s.count => PositionRead(seg, outside, e, Place(s, j))))
  }

  /** The list and its run header lie inside the payloads. */
  predicate ListFits(seg: Payloads, e: Entry) {
    e.postingsAt + 20 + 48 * e.frequency + 16 * Blocks(e.frequency) <= |seg.postings| && e.positionsAt + 16 <= |seg.positions|
  }

  function PostingsRead(seg: Payloads, outside: int -> byte, e: Entry): (ps: seq<Posting>)
    requires ListFits(seg, e)
    ensures |ps| == e.frequency && forall i :: 0 <= i < |ps| ==> ps[i] == PostingRead(seg, outside, e, i)
  {
    seq(e.frequency, i requires 0 <= i < e.frequency => PostingRead(seg, outside, e, i))
  }

  /** What the validator checks of one posting. */
  predicate PostingPasses(seg: Payloads, outside: int -> byte, e: Entry, i: nat, t: Totals)
    requires ListFits(seg, e) && i < e.frequency
  {
    && (StoredAt(seg, e, i).offset + StoredAt(seg, e, i).count) % U64 <= Records(seg, e.positionsAt)
    && PostingAccepted(PostingRead(seg, outside, e, i), t.documents, t.passages)
    && (i > 0 ==> PostingBefore(PostingRead(seg, outside, e, i - 1), PostingRead(seg, outside, e, i)))
  }

  ghost predicate TermPasses(seg: Payloads, outside: int -> byte, es: seq<Entry>, k: nat, t: Totals)
    requires k < |es|
  {
    && ListAccepted(seg, es, k) && ListFits(seg, es[k])
    && (forall i :: 0 <= i < es[k].frequency ==> PostingPasses(seg, outside, es[k], i, t))
    && (forall b :: 0 <= b < Blocks(es[k].frequency) ==> BlockMatches(BlockAt(seg, es[k], b), PostingsRead(seg, outside, es[k]), b))
  }

  /** Everything the validator of the posting and position payloads checks. */
  ghost predicate SegmentPasses(seg: Payloads, outside: int -> byte, es: seq<Entry>) {
    && |seg.postings| >= 56 && |seg.positions| >= 12 && SumsAccepted(seg, es, PostingsHead(seg), PositionsHead(seg))
    && forall k :: 0 <= k < |es| ==> TermPasses(seg, outside, es, k, TotalsFrom(PostingsHead(seg)))
  }

  // ---------------------------------------------------------------- without wrap-around

  lemma PositionReadInside(seg: Payloads, outside: int -> byte, e: Entry, x: nat)
    requires PositionInRange(seg, e, x)
    ensures PositionRead(seg, outside, e, x) == PositionAt(seg, e, x)
  {
    var at := e.positionsAt + 16 + 8 * x;
    var a, b := BytesAt(seg, outside, at, 8), seg.positions[at..at + 8];
    forall i | 0 <= i < 8 ensures a[i] == b[i] { assert a[i] == ByteAt(seg, outside, at + i); }
    assert a == b;
  }

  lemma PostingReadInside(seg: Payloads, outside: int -> byte, e: Entry, i: nat)
    requires PostingInRange(seg, e, i) && RunInRange(seg, e, StoredAt(seg, e, i)) && !Wraps(StoredAt(seg, e, i))
    ensures PostingRead(seg, outside, e, i) == PostingAt(seg, e, i)
  {
    hide StoredAt, PositionRead, PositionAt;
    var s := StoredAt(seg, e, i);
    var a, b := PostingRead(seg, outside, e, i).positions, PostingAt(seg, e, i).positions;
    forall j | 0 <= j < |a| ensures a[j] == b[j] {
      PositionReadInside(seg, outside, e, s.offset + j);
    }
    assert a == b;
  }

  /** Some posting of the term has a sum that wraps. */
  predicate TermWraps(seg: Payloads, e: Entry) {
    exists i :: 0 <= i < e.frequency && PostingInRange(seg, e, i) && Wraps(StoredAt(seg, e, i))
  }

  lemma RecordsInside(seg: Payloads, es: seq<Entry>, k: nat)
    requires k < |es| && ListAccepted(seg, es, k)
    ensures ListFits(seg, es[k]) && es[k].positionsAt + 16 + 8 * Records(seg, es[k].positionsAt) <= |seg.positions|
  {
    hide Cursor, Fields;
  }

  lemma InsideExactly(seg: Payloads, es: seq<Entry>, k: nat, i: nat)
    requires k < |es| && ListAccepted(seg, es, k) && i < es[k].frequency && |seg.positions| < U64 && ListFits(seg, es[k])
    ensures var s := StoredAt(seg, es[k], i); var n := Records(seg, es[k].positionsAt);
      && (s.offset + s.count <= n ==> !Wraps(s) && RunInRange(seg, es[k], s))
      && (!Wraps(s) ==> (s.offset + s.count) % U64 == s.offset + s.count)
  {
    hide StoredAt, Records, ListAccepted;
    RecordsInside(seg, es, k);
  }

  /** Reading inside the records gives the postings the specification speaks of. */
  lemma ReadIsDecoded(seg: Payloads, outside: int -> byte, e: Entry)
    requires ListFits(seg, e) && ListInRange(seg, e) && !TermWraps(seg, e)
    ensures PostingsRead(seg, outside, e) == Decoded(seg, e)
  {
    hide StoredAt, PostingRead, PostingAt;
    forall i | 0 <= i < e.frequency ensures PostingRead(seg, outside, e, i) == PostingAt(seg, e, i) {
      assert !Wraps(StoredAt(seg, e, i));
      PostingReadInside(seg, outside, e, i);
    }
  }

  lemma AcceptedIsInside(seg: Payloads, es: seq<Entry>, k: nat, t: Totals)
    requires k < |es| && |seg.positions| < U64 && TermAccepted(seg, es, k, t)
    ensures ListFits(seg, es[k]) && ListInRange(seg, es[k]) && !TermWraps(seg, es[k])
  {
    hide StoredAt, Decoded, PostingAccepted, BlockAccepted, ListAccepted, Records, PostingBefore;
    RecordsInside(seg, es, k);
    forall i | 0 <= i < es[k].frequency ensures !Wraps(StoredAt(seg, es[k], i)) { InsideExactly(seg, es, k, i); }
  }

  lemma PassingIsInside(seg: Payloads, outside: int -> byte, es: seq<Entry>, k: nat, t: Totals)
    requires k < |es| && |seg.positions| < U64 && TermPasses(seg, outside, es, k, t) && !TermWraps(seg, es[k])
    ensures ListInRange(seg, es[k])
    ensures forall i :: 0 <= i < es[k].frequency ==> StoredAt(seg, es[k], i).offset + StoredAt(seg, es[k], i).count <= Records(seg, es[k].positionsAt)
  {
    hide StoredAt, PostingRead, PostingsRead, PostingAccepted, BlockMatches, ListAccepted, Records, PostingBefore;
    forall i | 0 <= i < es[k].frequency
      ensures PostingInRange(seg, es[k], i) && RunInRange(seg, es[k], StoredAt(seg, es[k], i))
      ensures StoredAt(seg, es[k], i).offset + StoredAt(seg, es[k], i).count <= Records(seg, es[k].positionsAt)
    {
      assert PostingPasses(seg, outside, es[k], i, t);
      assert !Wraps(StoredAt(seg, es[k], i));
      InsideExactly(seg, es, k, i);
    }
  }

  /** On a term without wrap-around code and specification agree; with one, the specification refuses. */
  lemma TermPassesExactly(seg: Payloads, outside: int -> byte, es: seq<Entry>, k: nat, t: Totals)
    requires k < |es| && |seg.positions| < U64
    ensures TermAccepted(seg, es, k, t) <==> TermPasses(seg, outside, es, k, t) && !TermWraps(seg, es[k])
  {
    hide StoredAt, Decoded, PostingRead, PostingsRead, PostingAccepted, BlockMatches, ListAccepted, Records, PostingBefore, TermWraps;
    if TermAccepted(seg, es, k, t) {
      AcceptedIsInside(seg, es, k, t);
      ReadIsDecoded(seg, outside, es[k]);
      AcceptedPasses(seg, outside, es, k, t);
    }
    if TermPasses(seg, outside, es, k, t) && !TermWraps(seg, es[k]) {
      PassingIsInside(seg, outside, es, k, t);
      ReadIsDecoded(seg, outside, es[k]);
      PassingIsAccepted(seg, outside, es, k, t);
    }
  }

  lemma AcceptedPasses(seg: Payloads, outside: int -> byte, es: seq<Entry>, k: nat, t: Totals)
    requires k < |es| && |seg.positions| < U64 && TermAccepted(seg, es, k, t) && ListFits(seg, es[k]) && PostingsRead(seg, outside, es[k]) == Decoded(seg, es[k])
    ensures TermPasses(seg, outside, es, k, t)
  {
    hide StoredAt, Decoded, PostingRead, PostingAccepted, BlockMatches, ListAccepted, Records, PostingBefore;
    var e, ps := es[k], PostingsRead(seg, outside, es[k]);
    forall i | 0 <= i < e.frequency ensures PostingPasses(seg, outside, e, i, t) {
      assert ps[i] == PostingRead(seg, outside, e, i);
      assert PostingAccepted(Decoded(seg, e)[i], t.documents, t.passages);
      InsideExactly(seg, es, k, i);
      if i > 0 {
        assert PostingBefore(Decoded(seg, e)[i - 1], Decoded(seg, e)[i]);
        assert ps[i - 1] == PostingRead(seg, outside, e, i - 1);
      }
    }
    forall b | 0 <= b < Blocks(e.frequency) ensures BlockMatches(BlockAt(seg, e, b), ps, b) { assert BlockAccepted(seg, e, b); }
  }

  lemma PassingIsAccepted(seg: Payloads, outside: int -> byte, es: seq<Entry>, k: nat, t: Totals)
    requires k < |es| && TermPasses(seg, outside, es, k, t) && ListInRange(seg, es[k]) && PostingsRead(seg, outside, es[k]) == Decoded(seg, es[k])
    requires forall i :: 0 <= i < es[k].frequency ==> StoredAt(seg, es[k], i).offset + StoredAt(seg, es[k], i).count <= Records(seg, es[k].positionsAt)
    ensures TermAccepted(seg, es, k, t)
  {
    hide StoredAt, Decoded, PostingRead, PostingAccepted, BlockMatches, ListAccepted, Records, PostingBefore;
    var e, ps := es[k], PostingsRead(seg, outside, es[k]);
    forall i | 0 <= i < e.frequency ensures PostingAccepted(Decoded(seg, e)[i], t.documents, t.passages) {
      assert PostingPasses(seg, outside, e, i, t) && ps[i] == PostingRead(seg, outside, e, i);
    }
    forall i, j | 0 <= i < j < e.frequency && j == i + 1 ensures PostingBefore(Decoded(seg, e)[i], Decoded(seg, e)[j]) {
      assert PostingPasses(seg, outside, e, j, t) && ps[i] == PostingRead(seg, outside, e, i) && ps[j] == PostingRead(seg, outside, e, j);
    }
    forall b | 0 <= b < Blocks(e.frequency) ensures BlockAccepted(seg, e, b) { assert BlockMatches(BlockAt(seg, e, b), ps, b); }
  }

  /** No posting of the segment has a sum that wraps. */
  predicate NothingWraps(seg: Payloads, es: seq<Entry>) {
    forall k :: 0 <= k < |es| ==> !TermWraps(seg, es[k])
  }

  /**
   Everything the specification accepts passes the validator, and what passes is accepted by the
   specification if and only if no posting has offset + count >= 2^64.
   */
  lemma SegmentPassesExactly(seg: Payloads, outside: int -> byte, es: seq<Entry>)
    requires |seg.positions| < U64
    ensures SegmentAccepted(seg, es) ==> SegmentPasses(seg, outside, es)
    ensures SegmentPasses(seg, outside, es) ==> (SegmentAccepted(seg, es) <==> NothingWraps(seg, es))
  {
    hide TermAccepted, TermPasses, TermWraps, SumsAccepted, PostingsHead, PositionsHead, TotalsFrom;
    if |seg.postings| >= 56 && |seg.positions| >= 12 {
      var t := TotalsFrom(PostingsHead(seg));
      forall k | 0 <= k < |es| ensures TermAccepted(seg, es, k, t) <==> TermPasses(seg, outside, es, k, t) && !TermWraps(seg, es[k]) {
        TermPassesExactly(seg, outside, es, k, t);
      }
    }
  }
}
