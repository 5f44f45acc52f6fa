/** The validators as loops over cursors, and what a validated segment gives to search. */
module LexicalValidate {
  import opened Common
  import opened ByteOrder
  import opened LittleEndian
  import opened Bm25
  import opened LexicalGroups
  import opened LexicalFormat
  import opened LexicalReader
  import opened LexicalSegment
  import opened LexicalRoundTrip
  import opened WrappedReads
  import L = SearchPlan

  function Prepend(xs: seq<Entry>, r: Result<seq<Entry>>): Result<seq<Entry>> {
    match r
    case Err(e) => Err(e)
    case Ok(more) => Ok(xs + more)
  }

  lemma PrependOne(xs: seq<Entry>, x: Entry, r: Result<seq<Entry>>)
    ensures Prepend(xs, Prepend([x], r)) == Prepend(xs + [x], r)
  {
    if r.Ok? { assert xs + ([x] + r.value) == xs + [x] + r.value; }
  }

  lemma PrependNone(r: Result<seq<Entry>>)
    ensures Prepend([], r) == r
  {
    if r.Ok? { assert [] + r.value == r.value; }
  }

  /** Reading from an offset: what makes the next entry unreadable, and what it is otherwise. */
  lemma NextEntry(b: Bytes, offset: nat, n: nat, previous: Option<Bytes>)
    requires offset <= |b| && n > 0
    ensures offset + 4 > |b| ==> ReadEntries(b[offset..], n, previous) == Err(InvalidFormat)
    ensures offset + 4 <= |b| ==>
      var length := Get(b[offset..offset + 4]);
      if length == 0 || offset + 44 + length > |b| then ReadEntries(b[offset..], n, previous) == Err(InvalidFormat)
      else
        var term, e := b[offset + 4..offset + 4 + length], EntryAt(b, offset, length);
        if e.frequency == 0 || (previous.Some? && !Less(previous.value, term)) then ReadEntries(b[offset..], n, previous) == Err(InvalidFormat)
        else ReadEntries(b[offset..], n, previous) == Prepend([e], ReadEntries(b[offset + 44 + length..], n - 1, Some(term)))
  {
    hide Fields, Get, Less, Width;
    if offset + 4 <= |b| {
      assert b[offset..][..4] == b[offset..offset + 4];
      var length := Get(b[offset..offset + 4]);
      if offset + 44 + length <= |b| { SubSlices(b, offset, length); }
    }
  }

  function EntryAt(b: Bytes, offset: nat, length: nat): Entry
    requires offset + 44 + length <= |b|
  {
    RecordWidths();
    EntryFrom(b[offset + 4..offset + 4 + length], Fields(b[offset + 4 + length..offset + 44 + length], EntryWidths))
  }

  /** Walk the term stream with a moving offset. */
  method ValidateTerms(b: Bytes) returns (r: Result<seq<Entry>>)
    ensures r == ReadTerms(b)
  {
    RecordWidths();
    if |b| < 12 || Fields(b[..12], CountWidths)[0] != PayloadVersion {
      return Err(InvalidFormat);
    }
    var count := Fields(b[..12], CountWidths)[1];
    if count > MaxPayload / EntryMemory {
      return Err(OutOfRange);
    }
    r := ReadStream(b, count);
  }

  method ReadStream(b: Bytes, count: nat) returns (r: Result<seq<Entry>>)
    requires |b| >= 12
    ensures r == ReadEntries(b[12..], count, None)
  {
    hide ReadEntries, EntryAt, Get, Less;
    var offset := 12;
    var es: seq<Entry> := [];
    var previous: Option<Bytes> := None;
    PrependNone(ReadEntries(b[12..], count, None));
    for i := 0 to count
      invariant 12 <= offset <= |b|
      invariant ReadEntries(b[12..], count, None) == Prepend(es, ReadEntries(b[offset..], count - i, previous))
    {
      NextEntry(b, offset, count - i, previous);
      if offset + 4 > |b| {
        return Err(InvalidFormat);
      }
      var length := Get(b[offset..offset + 4]);
      if length == 0 || offset + 4 + length + 40 > |b| {
        return Err(InvalidFormat);
      }
      var term, e := b[offset + 4..offset + 4 + length], EntryAt(b, offset, length);
      if e.frequency == 0 || (previous.Some? && !Less(previous.value, term)) {
        return Err(InvalidFormat);
      }
      PrependOne(es, e, ReadEntries(b[offset + 44 + length..], count - i - 1, Some(term)));
      es, offset, previous := es + [e], offset + 44 + length, Some(term);
    }
    StreamEnds(b, offset, previous);
    assert es + [] == es;
    r := if offset == |b| then Ok(es) else Err(InvalidFormat);
  }

  lemma StreamEnds(b: Bytes, offset: nat, previous: Option<Bytes>)
    requires offset <= |b|
    ensures ReadEntries(b[offset..], 0, previous) == if offset == |b| then Ok([]) else Err(InvalidFormat)
  {
  }

  lemma SubSlices(b: Bytes, offset: nat, length: nat)
    requires offset + 44 + length <= |b|
    ensures var rest := b[offset..];
      && rest[..4] == b[offset..offset + 4] && rest[4..4 + length] == b[offset + 4..offset + 4 + length]
      && rest[4 + length..44 + length] == b[offset + 4 + length..offset + 44 + length]
      && rest[44 + length..] == b[offset + 44 + length..]
  {
  }

  /** The running counts and last positions per field that the check keeps. */
  predicate Tracked(qs: seq<Position>, n: nat, counts: seq<nat>, last: seq<nat>)
    requires n <= |qs|
  {
    && |counts| == 3 && |last| == 3
    && (forall f :: 0 <= f < 3 ==> counts[f] == CountField(qs[..n], f + 1))
    && (forall i :: 0 <= i < n && 1 <= qs[i].field <= 3 ==> counts[qs[i].field - 1] > 0 && qs[i].position <= last[qs[i].field - 1])
    && (forall f :: 0 <= f < 3 && counts[f] > 0 ==> exists i :: 0 <= i < n && qs[i].field == f + 1 && qs[i].position == last[f])
  }

  lemma CountOneMore(qs: seq<Position>, n: nat, field: nat)
    requires n < |qs|
    ensures CountField(qs[..n + 1], field) == CountField(qs[..n], field) + if qs[n].field == field then 1 else 0
  {
    assert qs[..n + 1][..n] == qs[..n] && qs[..n + 1][n] == qs[n];
  }

  lemma TrackOne(qs: seq<Position>, n: nat, counts: seq<nat>, last: seq<nat>)
    requires n < |qs| && Tracked(qs, n, counts, last) && 1 <= qs[n].field <= 3
    requires counts[qs[n].field - 1] > 0 ==> qs[n].position > last[qs[n].field - 1]
    ensures Tracked(qs, n + 1, counts[qs[n].field - 1 := counts[qs[n].field - 1] + 1], last[qs[n].field - 1 := qs[n].position])
  {
    hide CountField;
    var c, l := counts[qs[n].field - 1 := counts[qs[n].field - 1] + 1], last[qs[n].field - 1 := qs[n].position];
    forall f | 0 <= f < 3 ensures c[f] == CountField(qs[..n + 1], f + 1) { CountOneMore(qs, n, f + 1); }
    forall f | 0 <= f < 3 && c[f] > 0 ensures exists i :: 0 <= i < n + 1 && qs[i].field == f + 1 && qs[i].position == l[f] {
      if f == qs[n].field - 1 {
        assert qs[n].field == f + 1 && qs[n].position == l[f];
      } else {
        var i :| 0 <= i < n && qs[i].field == f + 1 && qs[i].position == last[f];
      }
    }
  }

  lemma TrackedStart(qs: seq<Position>)
    ensures Tracked(qs, 0, [0, 0, 0], [0, 0, 0])
  {
    assert qs[..0] == [];
  }

  lemma TrackedEnd(qs: seq<Position>, counts: seq<nat>, last: seq<nat>)
    requires Tracked(qs, |qs|, counts, last)
    ensures counts == [CountField(qs, 1), CountField(qs, 2), CountField(qs, 3)]
  {
    hide CountField;
    assert qs[..|qs|] == qs;
    assert counts[0] == CountField(qs, 0 + 1) && counts[1] == CountField(qs, 1 + 1) && counts[2] == CountField(qs, 2 + 1);
  }

  /** Against the last position of its field a position is either too small or larger than all before. */
  lemma AgainstLast(qs: seq<Position>, n: nat, counts: seq<nat>, last: seq<nat>)
    requires n < |qs| && Tracked(qs, n, counts, last) && 1 <= qs[n].field <= 3
    ensures if counts[qs[n].field - 1] > 0 && qs[n].position <= last[qs[n].field - 1]
      then exists i :: 0 <= i < n && qs[i].field == qs[n].field && qs[i].position >= qs[n].position
      else forall i :: 0 <= i < n && qs[i].field == qs[n].field ==> qs[i].position < qs[n].position
  {
  }

  /** One pass over the positions of a posting. */
  method CheckPositions(p: Posting) returns (ok: bool)
    requires |p.length| == 3 && |p.tf| == 3
    ensures ok <==> PositionsAccepted(p) && p.tf == [CountField(p.positions, 1), CountField(p.positions, 2), CountField(p.positions, 3)]
  {
    hide Tracked, CountField;
    var qs := p.positions;
    var counts: seq<nat>, last: seq<nat> := [0, 0, 0], [0, 0, 0];
    TrackedStart(qs);
    for n := 0 to |qs|
      invariant |counts| == 3 && |last| == 3 && Tracked(qs, n, counts, last)
      invariant forall j :: 0 <= j < n ==> 1 <= qs[j].field <= 3 && qs[j].position < p.length[qs[j].field - 1]
      invariant forall i, j :: 0 <= i < j < n && qs[i].field == qs[j].field ==> qs[i].position < qs[j].position
    {
      var field, position := qs[n].field, qs[n].position;
      if field < 1 || field > 3 || position >= p.length[field - 1] {
        return false;
      }
      AgainstLast(qs, n, counts, last);
      if counts[field - 1] > 0 && position <= last[field - 1] {
        return false;
      }
      TrackOne(qs, n, counts, last);
      counts, last := counts[field - 1 := counts[field - 1] + 1], last[field - 1 := position];
    }
    TrackedEnd(qs, counts, last);
    return counts[0] == p.tf[0] && counts[1] == p.tf[1] && counts[2] == p.tf[2];
  }

  /** Everything checked of one posting. */
  method CheckPosting(p: Posting, documents: nat, passages: nat) returns (ok: bool)
    requires |p.length| == 3 && |p.tf| == 3
    ensures ok <==> PostingAccepted(p, documents, passages)
  {
    hide PositionsAccepted, CountField;
    if p.objectType != DocumentType && p.objectType != PassageType {
      return false;
    }
    if p.ordinal >= if p.objectType == DocumentType then documents else passages {
      return false;
    }
    if p.tf[0] + p.tf[1] + p.tf[2] == 0 || p.tf[0] + p.tf[1] + p.tf[2] != |p.positions| {
      return false;
    }
    ok := CheckPositions(p);
  }

  // ---------------------------------------------------------------- lists and blocks

  /** Compare a block's stored maxima with those of its postings. */
  method CheckBlock(seg: Payloads, e: Entry, b: nat, ps: seq<Posting>) returns (ok: bool)
    requires BlockInRange(seg, e, b) && forall i :: 0 <= i < |ps| ==> Sized(ps[i])
    ensures ok <==> BlockMatches(BlockAt(seg, e, b), ps, b)
  {
    hide MaxFrequency, MinLength;
    var f := BlockAt(seg, e, b);
    hide BlockAt;
    if f[0] != b * BlockSize || f[1] == 0 || f[1] > BlockSize || f[0] + f[1] > |ps| {
      return false;
    }
    var most, shortest := 0, U32 - 1;
    NoPostings(ps, f[0]);
    for i := f[0] to f[0] + f[1]
      invariant most == MaxFrequency(ps[f[0]..i]) && shortest == MinLength(ps[f[0]..i])
    {
      OneMorePosting(ps, f[0], i);
      most, shortest := Larger(most, Frequency(ps[i])), Smaller(shortest, Shortest(ps[i]));
    }
    return f[2] == most && f[3] == shortest;
  }

  lemma NoPostings(ps: seq<Posting>, at: nat)
    requires at <= |ps|
    ensures MaxFrequency(ps[at..at]) == 0 && MinLength(ps[at..at]) == U32 - 1
  {
  }

  lemma OneMorePosting(ps: seq<Posting>, at: nat, end: nat)
    requires at <= end < |ps| && forall i :: 0 <= i < |ps| ==> Sized(ps[i])
    ensures MaxFrequency(ps[at..end + 1]) == Larger(MaxFrequency(ps[at..end]), Frequency(ps[end]))
    ensures MinLength(ps[at..end + 1]) == Smaller(MinLength(ps[at..end]), Shortest(ps[end]))
  {
    hide Frequency, Shortest;
    var block := ps[at..end + 1];
    assert block[..|block| - 1] == ps[at..end] && block[|block| - 1] == ps[end];
  }

  /** Header and sizes of one list against the cursors. */
  method CheckList(seg: Payloads, es: seq<Entry>, k: nat, postingCursor: nat, positionCursor: nat) returns (ok: bool)
    requires k < |es| && postingCursor == Cursor(PostingSizes(es), 56, k) && positionCursor == Cursor(PositionSizes(es), 12, k)
    ensures ok <==> ListAccepted(seg, es, k)
  {
    hide Cursor, Fields;
    RecordWidths();
    var e := es[k];
    if e.postingsAt != postingCursor || e.positionsAt != positionCursor
      || postingCursor + e.postingsBytes > |seg.postings| || positionCursor + e.positionsBytes > |seg.positions|
      || postingCursor + 20 > |seg.postings| || positionCursor + 16 > |seg.positions|
    {
      return false;
    }
    var list, run := Fields(seg.postings[postingCursor..postingCursor + 20], ListWidths), Fields(seg.positions[positionCursor..positionCursor + 16], RunWidths);
    if list[0] != k || list[1] != e.frequency || run[0] != k || list[2] != Blocks(e.frequency) {
      return false;
    }
    assert list == [k, e.frequency, Blocks(e.frequency)];
    return 20 + 48 * e.frequency + 16 * list[2] == e.postingsBytes && e.positionsBytes == 16 + 8 * run[1];
  }

  /** Decode one posting and check it against its predecessor; the sum of offset and count has 64 bits. */
  method CheckOne(seg: Payloads, outside: int -> byte, e: Entry, t: Totals, i: nat, previous: seq<Posting>) returns (ok: bool, p: Posting)
    requires ListFits(seg, e) && i < e.frequency
    requires i > 0 ==> |previous| == i && previous[i - 1] == PostingRead(seg, outside, e, i - 1)
    ensures ok <==> PostingPasses(seg, outside, e, i, t)
    ensures ok ==> p == PostingRead(seg, outside, e, i) && Sized(p)
  {
    hide StoredAt, PostingRead, PostingAccepted, Records, Sized;
    var stored := StoredAt(seg, e, i);
    if (stored.offset + stored.count) % U64 > Records(seg, e.positionsAt) {
      return false, Posting(0, 0, [], [], []);
    }
    p := PostingRead(seg, outside, e, i);
    ok := CheckPosting(p, t.documents, t.passages);
    if ok {
      AcceptedIsSized(p, t.documents, t.passages);
      ok := i == 0 || PostingBefore(previous[i - 1], p);
    }
  }

  /** Decode and check the postings of one term in order. */
  method CheckPostings(seg: Payloads, outside: int -> byte, e: Entry, t: Totals) returns (ok: bool, ps: seq<Posting>)
    requires ListFits(seg, e)
    ensures ok <==> forall i :: 0 <= i < e.frequency ==> PostingPasses(seg, outside, e, i, t)
    ensures ok ==> ps == PostingsRead(seg, outside, e) && forall i :: 0 <= i < |ps| ==> Sized(ps[i])
  {
    hide PostingPasses, PostingRead, Sized;
    ps := [];
    for i := 0 to e.frequency
      invariant |ps| == i && forall h :: 0 <= h < i ==> PostingPasses(seg, outside, e, h, t) && ps[h] == PostingRead(seg, outside, e, h) && Sized(ps[h])
    {
      var p;
      ok, p := CheckOne(seg, outside, e, t, i, ps);
      if !ok {
        return;
      }
      ps := ps + [p];
    }
    ok := true;
  }

  lemma AcceptedIsSized(p: Posting, documents: nat, passages: nat)
    requires PostingAccepted(p, documents, passages)
    ensures Sized(p)
  {
  }

  /** Everything checked of one term. */
  method CheckTerm(seg: Payloads, outside: int -> byte, es: seq<Entry>, k: nat, t: Totals, postingCursor: nat, positionCursor: nat) returns (ok: bool)
    requires k < |es| && postingCursor == Cursor(PostingSizes(es), 56, k) && positionCursor == Cursor(PositionSizes(es), 12, k)
    ensures ok <==> TermPasses(seg, outside, es, k, t)
  {
    hide Cursor, PostingPasses, PostingsRead, Fields, BlockMatches;
    ok := CheckList(seg, es, k, postingCursor, positionCursor);
    if !ok {
      return;
    }
    RecordsInside(seg, es, k);
    hide ListAccepted;
    var ps;
    ok, ps := CheckPostings(seg, outside, es[k], t);
    if !ok {
      return;
    }
    for b := 0 to Blocks(es[k].frequency)
      invariant forall c :: 0 <= c < b ==> BlockMatches(BlockAt(seg, es[k], c), ps, c)
    {
      ok := CheckBlock(seg, es[k], b, ps);
      if !ok {
        return;
      }
    }
    ok := true;
  }

  lemma CursorStep(es: seq<Entry>, k: nat)
    requires k < |es|
    ensures Cursor(PostingSizes(es), 56, k + 1) == Cursor(PostingSizes(es), 56, k) + es[k].postingsBytes
    ensures Cursor(PositionSizes(es), 12, k + 1) == Cursor(PositionSizes(es), 12, k) + es[k].positionsBytes
    ensures FrequencySum(es[..k + 1]) == FrequencySum(es[..k]) + es[k].frequency
    ensures RecordSum(es[..k + 1]) == RecordSum(es[..k]) + (es[k].positionsBytes - 16) / 8
  {
    assert es[..k + 1][..k] == es[..k];
  }

  lemma PassingSizes(seg: Payloads, outside: int -> byte, es: seq<Entry>, k: nat, t: Totals)
    requires k < |es| && TermPasses(seg, outside, es, k, t)
    ensures es[k].positionsBytes >= 16
  {
    hide Cursor, Fields, PostingPasses, PostingsRead, BlockMatches;
  }

  /** Move the two cursors over all terms and add up what they count. */
  method CheckTerms(seg: Payloads, outside: int -> byte, es: seq<Entry>, t: Totals)
    returns (ok: bool, postingCursor: nat, positionCursor: nat, postings: nat, positions: int)
    ensures ok <==> forall k :: 0 <= k < |es| ==> TermPasses(seg, outside, es, k, t)
    ensures ok ==> postingCursor == Cursor(PostingSizes(es), 56, |es|) && positionCursor == Cursor(PositionSizes(es), 12, |es|)
    ensures ok ==> postings == FrequencySum(es) && positions == RecordSum(es)
  {
    hide TermPasses, Cursor, FrequencySum, RecordSum, PostingSizes, PositionSizes;
    postingCursor, positionCursor, postings, positions := 56, 12, 0, 0;
    CursorStart(es);
    for k := 0 to |es|
      invariant forall j :: 0 <= j < k ==> TermPasses(seg, outside, es, j, t)
      invariant postingCursor == Cursor(PostingSizes(es), 56, k) && positionCursor == Cursor(PositionSizes(es), 12, k)
      invariant postings == FrequencySum(es[..k]) && positions == RecordSum(es[..k])
    {
      ok := CheckTerm(seg, outside, es, k, t, postingCursor, positionCursor);
      if !ok {
        return;
      }
      PassingSizes(seg, outside, es, k, t);
      CursorStep(es, k);
      postings, positions := postings + es[k].frequency, positions + (es[k].positionsBytes - 16) / 8;
      postingCursor, positionCursor := postingCursor + es[k].postingsBytes, positionCursor + es[k].positionsBytes;
    }
    assert es[..|es|] == es;
    ok := true;
  }

  /**
   Check the headers and all terms; the cursors must end exactly at the ends of the payloads.  What
   the loop accepts is what passes with sums of 64 bits.
   */
  method ValidatePayloads(seg: Payloads, outside: int -> byte, es: seq<Entry>) returns (ok: bool)
    ensures ok <==> SegmentPasses(seg, outside, es)
  {
    if |seg.postings| < 56 || |seg.positions| < 12 {
      return false;
    }
    var f, n := PostingsHead(seg), PositionsHead(seg);
    hide PostingsHead, PositionsHead, TermPasses, Cursor, FrequencySum, RecordSum, PostingSizes, PositionSizes, TotalsFrom;
    if f[0] != PayloadVersion || f[1] != BlockSize || n[0] != PayloadVersion {
      return false;
    }
    var good, postingCursor, positionCursor, postings, positions := CheckTerms(seg, outside, es, TotalsFrom(f));
    return good && postingCursor == |seg.postings| && positionCursor == |seg.positions| && postings == f[4] && positions == n[1];
  }

  lemma CursorStart(es: seq<Entry>)
    ensures Cursor(PostingSizes(es), 56, 0) == 56 && Cursor(PositionSizes(es), 12, 0) == 12
    ensures FrequencySum(es[..0]) == 0 && RecordSum(es[..0]) == 0
  {
  }

  // ---------------------------------------------------------------- what search gets

  function BlocksOf(ps: seq<Posting>): (r: seq<Block>)
    requires SizedPostings(ps)
    ensures |r| == Blocks(|ps|)
  {
    seq(Blocks(|ps|), b requires 0 <= b < Blocks(|ps|) => BlockFor(ps, b))
  }

  function BlockFor(ps: seq<Posting>, b: nat): Block
    requires SizedPostings(ps) && b < Blocks(|ps|)
  {
    Block(BlockFields(ps, b)[2], BlockFields(ps, b)[3])
  }

  lemma {:induction false} InBlock(ps: seq<Posting>, i: nat)
    requires i < |ps| && forall j :: 0 <= j < |ps| ==> Sized(ps[j])
    ensures Frequency(ps[i]) <= MaxFrequency(ps) && MinLength(ps) <= Shortest(ps[i])
  {
    hide Frequency, Shortest, Sized;
    if i < |ps| - 1 { InBlock(ps[..|ps| - 1], i); }
  }

  lemma BlockCovers(ps: seq<Posting>, t: Totals, i: nat)
    requires SizedPostings(ps) && PostingsGood(ps, t.documents, t.passages) && LengthsBounded(ps) && t.documents <= TypeBit && t.passages <= TypeBit
    requires |ps| <= MaxPayload && |AllPositions(ps)| <= MaxPayload && i < |ps|
    ensures i / BlockSize < Blocks(|ps|) && PostingOk(ps[i]) && Covers(BlockFor(ps, i / BlockSize), ps[i])
  {
    hide MaxFrequency, MinLength, AllPositions, BlockFields;
    var b := i / BlockSize;
    BlockNumbers(ps, t, b);
    var first, end := b * BlockSize, BlockEnd(|ps|, b);
    InBlock(ps[first..end], i - first);
    assert ps[first..end][i - first] == ps[i];
    assert PostingGood(ps[i], t.documents, t.passages);
  }

  /** The lists of a written segment satisfy everything search relies on. */
  lemma WrittenListsAreSearchable(gs: seq<Group>, t: Totals, k: nat)
    requires SizedGroups(gs) && k < |gs| && TermSound(gs, t, k) && t.documents <= TypeBit && t.passages <= TypeBit
    ensures SizedPostings(gs[k].postings) && L.FoundOk(L.Found(gs[k].postings, BlocksOf(gs[k].postings)))
  {
    hide Built, AllPositions, PostingGood, LengthsBounded, TermPostings, TermPositions, BlockFor, Covers;
    var ps := gs[k].postings;
    EntryBounded(gs, t, k);
    TermPositionsSize(k, ps);
    forall i | 0 <= i < |ps| ensures PostingOk(ps[i]) && Covers(BlocksOf(ps)[i / BlockSize], ps[i]) && ps[i].tf[0] + ps[i].tf[1] + ps[i].tf[2] > 0 {
      BlockCovers(ps, t, i);
      GoodIsAccepted(ps[i], t.documents, t.passages);
    }
  }
}
