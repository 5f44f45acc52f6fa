/** Building the payloads: sort, walk term runs and object runs, append records. */
module LexicalWriter {
  import opened Common
  import opened LittleEndian
  import opened Bm25
  import opened Occurrences
  import opened LexicalGroups
  import opened LexicalFormat

  // ---------------------------------------------------------------- runs of one object

  /** The posting of a run of occurrences of one object. */
  function PostingOf(run: seq<Occurrence>): (p: Posting)
    requires |run| > 0 && FieldsInRange(run)
    ensures Sized(p) && |p.positions| > 0
  {
    if |run| == 1 then NewPosting(run[0]) else AddPosition(PostingOf(run[..|run| - 1]), run[|run| - 1])
  }

  predicate SameRun(a: Occurrence, b: Occurrence) {
    a.term == b.term && SameObject(a, b)
  }

  function AppendPosting(gs: seq<Group>, term: Bytes, p: Posting): seq<Group> {
    if |gs| > 0 && gs[|gs| - 1].term == term then gs[..|gs| - 1] + [Group(term, gs[|gs| - 1].postings + [p])]
    else gs + [Group(term, [p])]
  }

  /** The next occurrence would extend the last posting. */
  predicate Continues(gs: seq<Group>, o: Occurrence) {
    && |gs| > 0 && gs[|gs| - 1].term == o.term && |gs[|gs| - 1].postings| > 0
    && OfObject(gs[|gs| - 1].postings[|gs[|gs| - 1].postings| - 1], o)
  }

  lemma {:induction false} PostingOfObject(run: seq<Occurrence>)
    requires |run| > 0 && FieldsInRange(run) && forall i :: 0 <= i < |run| ==> SameRun(run[0], run[i])
    ensures OfObject(PostingOf(run), run[0])
  {
    if |run| > 1 { PostingOfObject(run[..|run| - 1]); }
  }

  lemma GroupsStep(s: seq<Occurrence>, b: nat)
    requires 0 < b <= |s| && FieldsInRange(s)
    ensures Groups(s[..b]) == Add(Groups(s[..b - 1]), s[b - 1])
  {
    assert s[..b][..b - 1] == s[..b - 1] && s[..b][b - 1] == s[b - 1];
  }

  lemma PostingOfStep(s: seq<Occurrence>, a: nat, b: nat)
    requires a < b < |s| && FieldsInRange(s)
    ensures PostingOf(s[a..b + 1]) == AddPosition(PostingOf(s[a..b]), s[b])
  {
    hide NewPosting, AddPosition;
    var run := s[a..b + 1];
    assert run[..|run| - 1] == s[a..b] && run[|run| - 1] == s[b];
  }

  lemma AddNew(gs: seq<Group>, o: Occurrence)
    requires SizedGroups(gs) && TitleField <= o.field <= PassageField && !Continues(gs, o)
    ensures Add(gs, o) == AppendPosting(gs, o.term, NewPosting(o))
  {
    hide NewPosting, AddPosition;
  }

  /** A whole run of one object adds exactly one posting. */
  lemma {:induction false} GroupsRun(s: seq<Occurrence>, a: nat, b: nat)
    requires a < b <= |s| && FieldsInRange(s) && forall i :: a <= i < b ==> SameRun(s[a], s[i])
    requires !Continues(Groups(s[..a]), s[a])
    ensures Groups(s[..b]) == AppendPosting(Groups(s[..a]), s[a].term, PostingOf(s[a..b]))
  {
    hide NewPosting, AddPosition, Groups, Add, AppendPosting, Continues, SizedGroups;
    GroupsStep(s, b);
    if b == a + 1 {
      assert s[a..b] == [s[a]];
      AddNew(Groups(s[..a]), s[a]);
    } else {
      GroupsRun(s, a, b - 1);
      PostingOfStep(s, a, b - 1);
      RunObject(s, a, b - 1);
      AddToAppended(Groups(s[..a]), PostingOf(s[a..b - 1]), s[b - 1]);
    }
  }

  lemma RunObject(s: seq<Occurrence>, a: nat, b: nat)
    requires a < b < |s| && FieldsInRange(s) && forall i :: a <= i <= b ==> SameRun(s[a], s[i])
    ensures OfObject(PostingOf(s[a..b]), s[b]) && s[b].term == s[a].term
  {
    assert forall i :: 0 <= i < b - a ==> s[a..b][i] == s[a + i];
    PostingOfObject(s[a..b]);
    assert SameRun(s[a], s[b]);
  }

  lemma ExtendLast(ps: seq<Posting>, p: Posting, o: Occurrence)
    requires SizedPostings(ps + [p]) && Sized(p) && OfObject(p, o) && TitleField <= o.field <= PassageField
    ensures AddToPostings(ps + [p], o) == ps + [AddPosition(p, o)]
  {
    assert (ps + [p])[..|ps|] == ps;
  }

  lemma AddToAppended(gs: seq<Group>, p: Posting, o: Occurrence)
    requires SizedGroups(gs) && Sized(p) && OfObject(p, o) && TitleField <= o.field <= PassageField
    requires SizedGroups(AppendPosting(gs, o.term, p))
    ensures Add(AppendPosting(gs, o.term, p), o) == AppendPosting(gs, o.term, AddPosition(p, o))
  {
    hide AddPosition, NewPosting, AddToPostings;
    var n := |gs| - 1;
    if |gs| > 0 && gs[n].term == o.term {
      assert SizedPostings(gs[n].postings + [p]);
      ExtendLast(gs[n].postings, p, o);
      assert AppendPosting(gs, o.term, p)[..n] == gs[..n];
      assert AppendPosting(gs, o.term, AddPosition(p, o)) == gs[..n] + [Group(o.term, gs[n].postings + [AddPosition(p, o)])];
    } else {
      assert [p] == [] + [p] && [AddPosition(p, o)] == [] + [AddPosition(p, o)];
      ExtendLast([], p, o);
      assert AppendPosting(gs, o.term, p)[..|gs|] == gs;
    }
  }

  lemma GroupsEnd(s: seq<Occurrence>)
    requires FieldsInRange(s) && |s| > 0
    ensures EndsWith(Groups(s), s[|s| - 1])
  {
    AddEndsWith(Groups(s[..|s| - 1]), s[|s| - 1]);
  }

  /** In front of a new term or a new object there is nothing to extend. */
  lemma RunBreaks(s: seq<Occurrence>, a: nat)
    requires FieldsInRange(s) && a < |s| && (a > 0 ==> !SameRun(s[a - 1], s[a]))
    ensures !Continues(Groups(s[..a]), s[a])
  {
    if a > 0 { GroupsEnd(s[..a]); }
  }

  method ObjectEnd(s: seq<Occurrence>, start: nat, limit: nat) returns (end: nat)
    requires start < limit <= |s|
    ensures start < end <= limit
    ensures forall i :: start <= i < end ==> SameObject(s[start], s[i])
    ensures end < limit ==> !SameObject(s[start], s[end])
  {
    end := start + 1;
    while end < limit && SameObject(s[start], s[end])
      invariant start < end <= limit && forall i :: start <= i < end ==> SameObject(s[start], s[i])
    {
      end := end + 1;
    }
  }

  method TermEnd(s: seq<Occurrence>, start: nat) returns (end: nat)
    requires start < |s|
    ensures start < end <= |s|
    ensures forall i :: start <= i < end ==> s[start].term == s[i].term
    ensures end < |s| ==> s[start].term != s[end].term
  {
    end := start + 1;
    while end < |s| && s[start].term == s[end].term
      invariant start < end <= |s| && forall i :: start <= i < end ==> s[start].term == s[i].term
    {
      end := end + 1;
    }
  }

  /** Count frequencies, remember field lengths and list positions of one object run. */
  method CollectPosting(s: seq<Occurrence>, a: nat, b: nat) returns (p: Posting)
    requires a < b <= |s| && FieldsInRange(s) && forall i :: a <= i < b ==> SameObject(s[a], s[i])
    ensures p == PostingOf(s[a..b])
  {
    hide PostingOf;
    var tf: seq<nat>, length: seq<nat>, positions := [0, 0, 0], [0, 0, 0], [];
    p := Posting(s[a].objectType, s[a].ordinal, tf, length, positions);
    for i := a to b
      invariant |tf| == 3 && |length| == 3
      invariant p == Posting(s[a].objectType, s[a].ordinal, tf, length, positions)
      invariant if i == a then p == Posting(s[a].objectType, s[a].ordinal, [0, 0, 0], [0, 0, 0], []) else p == PostingOf(s[a..i])
    {
      if i == a { PostingOfOne(s, a); } else { PostingOfStep(s, a, i); }
      var f := s[i].field - 1;
      tf := tf[f := tf[f] + 1];
      length := length[f := s[i].fieldLength];
      positions := positions + [Position(s[i].field, s[i].position)];
      p := Posting(s[a].objectType, s[a].ordinal, tf, length, positions);
    }
  }

  lemma PostingOfOne(s: seq<Occurrence>, a: nat)
    requires a < |s| && FieldsInRange(s)
    ensures PostingOf(s[a..a + 1]) == NewPosting(s[a])
  {
    assert s[a..a + 1] == [s[a]];
  }

  lemma NewTerm(s: seq<Occurrence>, start: nat)
    requires start < |s| && FieldsInRange(s) && (start > 0 ==> s[start - 1].term != s[start].term)
    ensures var before := Groups(s[..start]); |before| > 0 ==> before[|before| - 1].term != s[start].term
  {
    if start > 0 { GroupsEnd(s[..start]); }
  }

  /** The postings of one term run, object by object. */
  method CollectPostings(s: seq<Occurrence>, start: nat, end: nat) returns (ps: seq<Posting>)
    requires start < end <= |s| && FieldsInRange(s)
    requires forall i :: start <= i < end ==> s[start].term == s[i].term
    requires start > 0 ==> s[start - 1].term != s[start].term
    ensures SizedPostings(ps) && Groups(s[..end]) == Groups(s[..start]) + [Group(s[start].term, ps)]
  {
    hide Groups, AppendPosting, PostingOf, Continues;
    ghost var before := Groups(s[..start]);
    ghost var term := s[start].term;
    NewTerm(s, start);
    ps := [];
    var at := start;
    while at < end
      invariant start <= at <= end && (at > start ==> |ps| > 0) && (at == start ==> ps == [])
      invariant forall i :: 0 <= i < |ps| ==> Sized(ps[i])
      invariant start < at < end ==> !SameObject(s[at - 1], s[at])
      invariant Groups(s[..at]) == if at == start then before else before + [Group(term, ps)]
    {
      var stop := ObjectEnd(s, at, end);
      var p := CollectPosting(s, at, stop);
      assert SameObject(s[at], s[stop - 1]);
      RunBreaks(s, at);
      GroupsRun(s, at, stop);
      AppendedLast(before, term, ps, p);
      ps, at := ps + [p], stop;
    }
  }

  lemma AppendedLast(before: seq<Group>, term: Bytes, ps: seq<Posting>, p: Posting)
    requires |before| > 0 ==> before[|before| - 1].term != term
    ensures AppendPosting(before + [Group(term, ps)], term, p) == before + [Group(term, ps + [p])]
    ensures AppendPosting(before, term, p) == before + [Group(term, [p])]
    ensures ps == [] ==> ps + [p] == [p]
  {
    assert (before + [Group(term, ps)])[..|before|] == before;
  }

  // ---------------------------------------------------------------- records of one term

  lemma PositionRowsConcat(a: seq<Position>, b: seq<Position>)
    ensures Concat(PositionRows(a + b)) == Concat(PositionRows(a)) + Concat(PositionRows(b))
  {
    hide PositionRow, Concat;
    ConcatTwo(PositionRows(a), PositionRows(b));
    assert PositionRows(a + b) == PositionRows(a) + PositionRows(b);
  }

  lemma AllPositionsStep(ps: seq<Posting>, j: nat)
    requires j < |ps|
    ensures AllPositions(ps[..j + 1]) == AllPositions(ps[..j]) + ps[j].positions
  {
    assert ps[..j + 1][..j] == ps[..j];
  }

  /** Append the posting records and the position records; the offset counts positions so far. */
  method WritePostings(ps: seq<Posting>) returns (postings: Bytes, positions: Bytes, count: nat)
    requires SizedPostings(ps)
    ensures postings == Concat(PostingRows(ps)) && positions == Concat(PositionRows(AllPositions(ps))) && count == |AllPositions(ps)|
  {
    hide Concat, PositionRows, AllPositions, PostingRow;
    postings, positions, count := [], [], 0;
    NoPositions();
    ConcatEnds(PostingRows(ps));
    for j := 0 to |ps|
      invariant postings == Concat(PostingRows(ps)[..j])
      invariant positions == Concat(PositionRows(AllPositions(ps[..j]))) && count == |AllPositions(ps[..j])|
    {
      AllPositionsStep(ps, j);
      PositionRowsConcat(AllPositions(ps[..j]), ps[j].positions);
      ConcatStep(PostingRows(ps), j);
      var rows := WritePositions(ps[j].positions);
      positions := positions + rows;
      postings := postings + PostingRow(ps[j], count);
      count := count + |ps[j].positions|;
    }
    assert ps[..|ps|] == ps;
  }

  lemma NoPositions()
    ensures AllPositions([]) == [] && Concat(PositionRows([])) == []
  {
    assert PositionRows([]) == [];
  }

  method WritePositions(qs: seq<Position>) returns (bytes: Bytes)
    ensures bytes == Concat(PositionRows(qs))
  {
    bytes := [];
    for i := 0 to |qs|
      invariant bytes == Concat(PositionRows(qs)[..i])
    {
      ConcatStep(PositionRows(qs), i);
      bytes := bytes + PositionRow(qs[i]);
    }
    assert PositionRows(qs)[..|qs|] == PositionRows(qs);
  }

  /** One block of up to 128 postings: the largest frequency and the shortest field in it. */
  method WriteBlock(ps: seq<Posting>, ghost b: nat, at: nat) returns (end: nat, bytes: Bytes)
    requires SizedPostings(ps) && b < Blocks(|ps|) && at == b * BlockSize
    ensures end == BlockEnd(|ps|, b) && bytes == BlockRow(ps, b)
  {
    hide MaxFrequency, MinLength, Layout, Width;
    var most, shortest := 0, U32 - 1;
    end := at;
    BlockStarts(|ps|, b);
    EmptyBlock(ps, at);
    while end < |ps| && end - at < BlockSize
      invariant at <= end <= |ps| && end - at <= BlockSize
      invariant most == MaxFrequency(ps[at..end]) && shortest == MinLength(ps[at..end])
    {
      BlockStep(ps, at, end);
      most, shortest := Larger(most, Frequency(ps[end])), Smaller(shortest, Shortest(ps[end]));
      end := end + 1;
    }
    RecordWidths();
    bytes := Layout([at, end - at, most, if shortest == U32 - 1 then 0 else shortest], BlockWidths);
  }

  lemma EmptyBlock(ps: seq<Posting>, at: nat)
    requires at <= |ps|
    ensures MaxFrequency(ps[at..at]) == 0 && MinLength(ps[at..at]) == U32 - 1
  {
  }

  lemma BlockStep(ps: seq<Posting>, at: nat, end: nat)
    requires at <= end < |ps| && SizedPostings(ps)
    ensures MaxFrequency(ps[at..end + 1]) == Larger(MaxFrequency(ps[at..end]), Frequency(ps[end]))
    ensures MinLength(ps[at..end + 1]) == Smaller(MinLength(ps[at..end]), Shortest(ps[end]))
  {
    hide Frequency, Shortest;
    var block := ps[at..end + 1];
    assert block[..|block| - 1] == ps[at..end] && block[|block| - 1] == ps[end];
  }

  /** Walk the postings in blocks. */
  method WriteBlocks(ps: seq<Posting>) returns (bytes: Bytes)
    requires SizedPostings(ps)
    ensures bytes == Concat(BlockRows(ps))
  {
    hide BlockRow, Concat;
    bytes := [];
    ConcatEnds(BlockRows(ps));
    var at := 0;
    ghost var b := 0;
    while at < |ps|
      invariant at == Smaller(|ps|, b * BlockSize) && b <= Blocks(|ps|) && bytes == Concat(BlockRows(ps)[..b])
      invariant at < |ps| ==> b < Blocks(|ps|)
      decreases |ps| - at
    {
      BlockStarts(|ps|, b);
      ConcatStep(BlockRows(ps), b);
      var end, row := WriteBlock(ps, b, at);
      bytes := bytes + row;
      at, b := end, b + 1;
    }
    assert b == Blocks(|ps|);
  }

  // ---------------------------------------------------------------- one more term

  lemma MorePostings(gs: seq<Group>, g: Group)
    requires SizedGroups(gs) && SizedPostings(g.postings)
    ensures SizedGroups(gs + [g]) && PostingParts(gs + [g]) == PostingParts(gs) + [TermPostings(|gs|, g.postings)]
    ensures Concat(PostingParts(gs + [g])) == Concat(PostingParts(gs)) + TermPostings(|gs|, g.postings)
  {
    hide TermPostings;
    var parts := PostingParts(gs + [g]);
    assert parts == PostingParts(gs) + [TermPostings(|gs|, g.postings)];
    assert parts[..|gs|] == PostingParts(gs);
  }

  lemma MorePositions(gs: seq<Group>, g: Group)
    ensures PositionParts(gs + [g]) == PositionParts(gs) + [TermPositions(|gs|, g.postings)]
    ensures Concat(PositionParts(gs + [g])) == Concat(PositionParts(gs)) + TermPositions(|gs|, g.postings)
  {
    hide TermPositions;
    var parts := PositionParts(gs + [g]);
    assert parts == PositionParts(gs) + [TermPositions(|gs|, g.postings)];
    assert parts[..|gs|] == PositionParts(gs);
  }

  /** Entries already written do not change when a term follows. */
  lemma EntryStable(gs: seq<Group>, g: Group, k: nat)
    requires SizedGroups(gs) && SizedPostings(g.postings) && SizedGroups(gs + [g]) && k < |gs|
    ensures EntryRow(gs + [g], k) == EntryRow(gs, k)
  {
    hide TermPostings, TermPositions, Concat, Layout, Put, SizedPostings;
    MorePostings(gs, g);
    MorePositions(gs, g);
    assert PostingParts(gs + [g])[..k] == PostingParts(gs)[..k];
    assert PositionParts(gs + [g])[..k] == PositionParts(gs)[..k];
  }

  lemma MoreEntries(gs: seq<Group>, g: Group)
    requires SizedGroups(gs) && SizedPostings(g.postings) && SizedGroups(gs + [g])
    ensures EntryRows(gs + [g]) == EntryRows(gs) + [EntryRow(gs + [g], |gs|)]
    ensures Concat(EntryRows(gs + [g])) == Concat(EntryRows(gs)) + EntryRow(gs + [g], |gs|)
  {
    hide EntryRow, SizedPostings;
    forall k | 0 <= k < |gs| ensures EntryRow(gs + [g], k) == EntryRow(gs, k) { EntryStable(gs, g, k); }
    var rows := EntryRows(gs + [g]);
    assert rows == EntryRows(gs) + [EntryRow(gs + [g], |gs|)];
    assert rows[..|gs|] == EntryRows(gs);
  }

  /** The entry of the term just written names where its parts begin and how long they are. */
  lemma NewEntry(gs: seq<Group>, g: Group)
    requires SizedGroups(gs) && SizedPostings(g.postings) && SizedGroups(gs + [g])
    ensures EntryRow(gs + [g], |gs|) == Put(|g.term|, 4) + g.term +
      Layout(FiveFields(|g.postings|, 56 + |Concat(PostingParts(gs))|, |TermPostings(|gs|, g.postings)|,
                        12 + |Concat(PositionParts(gs))|, |TermPositions(|gs|, g.postings)|), EntryWidths)
  {
    hide TermPostings, TermPositions, Concat, Layout, Put, SizedPostings, FiveFields;
    MorePostings(gs, g);
    MorePositions(gs, g);
    assert PostingParts(gs + [g])[..|gs|] == PostingParts(gs);
    assert PositionParts(gs + [g])[..|gs|] == PositionParts(gs);
  }

  lemma MoreTotals(gs: seq<Group>, g: Group)
    ensures PostingTotal(gs + [g]) == PostingTotal(gs) + |g.postings|
    ensures PositionTotal(gs + [g]) == PositionTotal(gs) + |AllPositions(g.postings)|
  {
    hide AllPositions;
    assert (gs + [g])[..|gs|] == gs;
  }

  /** The buffers behind their headers, with the running counts. */
  datatype Buffers = Buffers(terms: Bytes, postings: Bytes, positions: Bytes, termCount: nat, postingCount: nat, positionCount: nat)

  ghost predicate Holds(b: Buffers, gs: seq<Group>)
    requires SizedGroups(gs)
  {
    && b.terms == Concat(EntryRows(gs)) && b.postings == Concat(PostingParts(gs)) && b.positions == Concat(PositionParts(gs))
    && b.termCount == |gs| && b.postingCount == PostingTotal(gs) && b.positionCount == PositionTotal(gs)
  }

  /** Append one term to all three buffers. */
  method WriteTerm(b: Buffers, term: Bytes, ps: seq<Posting>, ghost gs: seq<Group>) returns (c: Buffers)
    requires SizedPostings(ps) && SizedGroups(gs) && Holds(b, gs)
    ensures SizedGroups(gs + [Group(term, ps)]) && Holds(c, gs + [Group(term, ps)])
  {
    hide Concat, PostingRows, PositionRows, BlockRows, AllPositions, Layout, Put, Width, Holds, SizedGroups, SizedPostings;
    RecordWidths();
    var postings, positions, count := WritePostings(ps);
    var blocks := WriteBlocks(ps);
    var list := ListHeader(b.termCount, |ps|) + postings + blocks;
    var run := RunHeader(b.termCount, count) + positions;
    var entry := Put(|term|, 4) + term +
      Layout(FiveFields(|ps|, 56 + |b.postings|, |list|, 12 + |b.positions|, |run|), EntryWidths);
    c := Buffers(b.terms + entry, b.postings + list, b.positions + run, b.termCount + 1, b.postingCount + |ps|, b.positionCount + count);
    Appended(b, c, gs, Group(term, ps), list, run);
  }

  lemma Appended(b: Buffers, c: Buffers, gs: seq<Group>, g: Group, list: Bytes, run: Bytes)
    requires SizedPostings(g.postings) && SizedGroups(gs) && Holds(b, gs) && Width(EntryWidths) == 40
    requires list == ListHeader(b.termCount, |g.postings|) + Concat(PostingRows(g.postings)) + Concat(BlockRows(g.postings))
    requires run == RunHeader(b.termCount, |AllPositions(g.postings)|) + Concat(PositionRows(AllPositions(g.postings)))
    requires c.terms == b.terms + (Put(|g.term|, 4) + g.term +
      Layout(FiveFields(|g.postings|, 56 + |b.postings|, |list|, 12 + |b.positions|, |run|), EntryWidths))
    requires c.postings == b.postings + list && c.positions == b.positions + run && c.termCount == b.termCount + 1
    requires c.postingCount == b.postingCount + |g.postings| && c.positionCount == b.positionCount + |AllPositions(g.postings)|
    ensures SizedGroups(gs + [g]) && Holds(c, gs + [g])
  {
    hide Concat, PostingParts, PositionParts, EntryRows, EntryRow, PostingTotal, PositionTotal, Layout, Width, Put, SizedPostings,
         SizedGroups, AllPositions, TermPostings, TermPositions, FiveFields, ListHeader, RunHeader, PostingRows, PositionRows, BlockRows;
    MorePostings(gs, g);
    MorePositions(gs, g);
    MoreEntries(gs, g);
    NewEntry(gs, g);
    MoreTotals(gs, g);
    TermBytes(|gs|, g.postings);
  }

  lemma TermBytes(k: nat, ps: seq<Posting>)
    requires SizedPostings(ps)
    ensures TermPostings(k, ps) == ListHeader(k, |ps|) + Concat(PostingRows(ps)) + Concat(BlockRows(ps))
    ensures TermPositions(k, ps) == RunHeader(k, |AllPositions(ps)|) + Concat(PositionRows(AllPositions(ps)))
  {
    hide Concat, AllPositions;
  }

  /**
   Sort the occurrences and write the three payloads.  They are those of the groups of the sorted
   list; the only failure is a payload over the size limit of a segment file.
   */
  method BuildPayloads(occurrences: seq<Occurrence>, t: Totals) returns (r: Result<Payloads>)
    requires FieldsInRange(occurrences) && |t.tokens| == 3
    ensures var built := Built(Grouped(occurrences), t);
            r == if WithinCapacity(built) then Ok(built) else Err(CapacityExceeded)
    ensures var built := Built(Grouped(occurrences), t);
            r.Ok? <==> |built.terms| <= 256 * 1024 * 1024 && |built.postings| <= 256 * 1024 * 1024 && |built.positions| <= 256 * 1024 * 1024
  {
    hide Sort, Groups, Concat, EntryRows, PostingParts, PositionParts, TotalHeader, CountHeader, PostingTotal, PositionTotal;
    var s := Sort(occurrences);
    SortFields(occurrences);
    var b := Buffers([], [], [], 0, 0, 0);
    NothingWritten(s);
    var start := 0;
    while start < |s|
      invariant start <= |s| && Holds(b, Groups(s[..start]))
      invariant 0 < start < |s| ==> s[start - 1].term != s[start].term
    {
      var end := TermEnd(s, start);
      assert s[end - 1].term == s[start].term;
      var ps := CollectPostings(s, start, end);
      b := WriteTerm(b, s[start].term, ps, Groups(s[..start]));
      start := end;
    }
    assert s[..|s|] == s;
    var built := Payloads(CountHeader(b.termCount) + b.terms, TotalHeader(t, b.postingCount) + b.postings,
                          CountHeader(b.positionCount) + b.positions);
    r := if WithinCapacity(built) then Ok(built) else Err(CapacityExceeded);
  }

  lemma NothingWritten(s: seq<Occurrence>)
    requires FieldsInRange(s)
    ensures Holds(Buffers([], [], [], 0, 0, 0), Groups(s[..0]))
  {
    assert Groups(s[..0]) == [];
  }

  /** Prepared units and direct tokenization give byte-identical payloads. */
  lemma PreparedPayloadsAreDirect(us: seq<Unit>, t: Totals)
    requires UnitsOk(us) && |t.tokens| == 3
    ensures FieldsInRange(Combined(us)) && FieldsInRange(Direct(us)) && Built(Grouped(Combined(us)), t) == Built(Grouped(Direct(us)), t)
  {
    hide Combined, Direct, Built, Sort;
    CombinedOk(us);
    CombinedIsDirect(us);
    PreparedSortsAsDirect(us);
    forall i | 0 <= i < |Direct(us)| ensures TitleField <= Direct(us)[i].field <= PassageField {
      assert Direct(us)[i] in multiset(Combined(us));
    }
  }
}
