/** From occurrences to payloads and back. */
module LexicalRoundTrip {
  import opened Common
  import opened LittleEndian
  import opened Bm25
  import opened Occurrences
  import opened LexicalGroups
  import opened LexicalFormat
  import opened LexicalReader
  import opened LexicalSegment

  function FrequencySum(es: seq<Entry>): nat {
    if |es| == 0 then 0 else FrequencySum(es[..|es| - 1]) + es[|es| - 1].frequency
  }

  /** Position records of a term, from the size of its run. */
  function RecordSum(es: seq<Entry>): int {
    if |es| == 0 then 0 else RecordSum(es[..|es| - 1]) + (es[|es| - 1].positionsBytes - 16) / 8
  }

  function TotalsFrom(f: seq<nat>): Totals
    requires |f| == 8
  {
    Totals(f[2], f[3], [f[5], f[6], f[7]])
  }

  function PostingsHead(seg: Payloads): (f: seq<nat>)
    requires |seg.postings| >= 56
    ensures |f| == 8
  {
    TotalWidth();
    Fields(seg.postings[..56], TotalWidths)
  }

  function PositionsHead(seg: Payloads): (n: seq<nat>)
    requires |seg.positions| >= 12
    ensures |n| == 2
  {
    RecordWidths();
    Fields(seg.positions[..12], CountWidths)
  }

  /** Versions, and sizes and counts that add up. */
  predicate SumsAccepted(seg: Payloads, es: seq<Entry>, f: seq<nat>, n: seq<nat>)
    requires |f| == 8 && |n| == 2
  {
    && f[0] == PayloadVersion && f[1] == BlockSize && n[0] == PayloadVersion
    && Cursor(PostingSizes(es), 56, |es|) == |seg.postings| && Cursor(PositionSizes(es), 12, |es|) == |seg.positions|
    && FrequencySum(es) == f[4] && RecordSum(es) == n[1]
  }

  ghost predicate BodyAccepted(seg: Payloads, es: seq<Entry>, f: seq<nat>, n: seq<nat>)
    requires |f| == 8 && |n| == 2
  {
    SumsAccepted(seg, es, f, n) && forall k :: 0 <= k < |es| ==> TermAccepted(seg, es, k, TotalsFrom(f))
  }

  /** Everything the validator of the posting and position payloads checks. */
  ghost predicate SegmentAccepted(seg: Payloads, es: seq<Entry>) {
    |seg.postings| >= 56 && |seg.positions| >= 12 && BodyAccepted(seg, es, PostingsHead(seg), PositionsHead(seg))
  }

  /** Every term with its postings and positions, as the reader's lookups return them. */
  function ReadGroups(seg: Payloads, es: seq<Entry>): seq<Group>
    requires forall k :: 0 <= k < |es| ==> ListInRange(seg, es[k])
  {
    seq(|es|, k requires 0 <= k < |es| => Group(es[k].term, Decoded(seg, es[k])))
  }

  // ---------------------------------------------------------------- counts

  lemma {:induction false} CountsAgree(gs: seq<Group>, k: nat)
    requires SizedGroups(gs) && k <= |gs|
    ensures FrequencySum(Entries(gs)[..k]) == PostingTotal(gs[..k]) && RecordSum(Entries(gs)[..k]) == PositionTotal(gs[..k])
  {
    hide AllPositions, EntryOf, TermPostings, TermPositions, SizedGroups, PostingsStart, PositionsStart;
    if k > 0 {
      CountsAgree(gs, k - 1);
      var es := Entries(gs);
      assert es[..k][..k - 1] == es[..k - 1] && gs[..k][..k - 1] == gs[..k - 1];
      EntryPlaces(gs, k - 1);
      TermPositionsSize(k - 1, gs[k - 1].postings);
    }
  }

  lemma {:induction false} FlattenSize(gs: seq<Group>)
    requires SizedGroups(gs)
    ensures |Flatten(gs)| == PositionTotal(gs)
  {
    if |gs| > 0 {
      FlattenSize(gs[..|gs| - 1]);
      ListSize(gs[|gs| - 1].term, gs[|gs| - 1].postings);
    }
  }

  lemma {:induction false} ListSize(term: Bytes, ps: seq<Posting>)
    requires forall i :: 0 <= i < |ps| ==> Sized(ps[i])
    ensures |PostingsList(term, ps)| == |AllPositions(ps)|
  {
    if |ps| > 0 { ListSize(term, ps[..|ps| - 1]); }
  }

  lemma {:induction false} PositionsTake(gs: seq<Group>, k: nat)
    requires k <= |gs|
    ensures |Concat(PositionParts(gs)[..k])| >= 8 * PositionTotal(gs[..k])
  {
    hide AllPositions, TermPositions;
    if k > 0 {
      PositionsTake(gs, k - 1);
      ConcatStep(PositionParts(gs), k - 1);
      TermPositionsSize(k - 1, gs[k - 1].postings);
      assert gs[..k][..k - 1] == gs[..k - 1];
    }
  }

  /** Positions take eight bytes each, so a segment within capacity holds few enough of them. */
  lemma PositionsBounded(gs: seq<Group>, t: Totals)
    requires SizedGroups(gs) && |t.tokens| == 3 && WithinCapacity(Built(gs, t))
    ensures 8 * PositionTotal(gs) <= MaxPayload
  {
    hide TermPositions, EntryRows, PostingParts, TotalHeader, PositionTotal, Concat;
    PositionsTake(gs, |gs|);
    assert PositionParts(gs)[..|gs|] == PositionParts(gs) && gs[..|gs|] == gs;
  }

  // ---------------------------------------------------------------- headers

  lemma TotalsBack(t: Totals, n: nat, tail: Bytes)
    requires TotalsOk(t) && n < U64
    ensures Width(TotalWidths) == 56 && (TotalHeader(t, n) + tail)[..56] == TotalHeader(t, n)
    ensures Fields(TotalHeader(t, n), TotalWidths) == TotalFields(t, n)
  {
    TotalWidth();
    Widths();
    assert Fit(TotalFields(t, n), TotalWidths);
    ReadBack(TotalFields(t, n), TotalWidths);
  }

  lemma HeadersRead(gs: seq<Group>, t: Totals)
    requires SizedGroups(gs) && TotalsOk(t) && PostingTotal(gs) < U64 && PositionTotal(gs) < U64
    ensures var seg := Built(gs, t);
      && |seg.postings| >= 56 && |seg.positions| >= 12
      && PostingsHead(seg) == TotalFields(t, PostingTotal(gs)) && PositionsHead(seg) == [PayloadVersion, PositionTotal(gs)]
  {
    hide EntryRows, PostingParts, PositionParts, Fields, TotalHeader, CountHeader, TotalFields;
    TotalsBack(t, PostingTotal(gs), Concat(PostingParts(gs)));
    CountFields(PositionTotal(gs), Concat(PositionParts(gs)));
  }

  lemma SizesEnd(gs: seq<Group>, t: Totals)
    requires SizedGroups(gs) && |t.tokens| == 3
    ensures Cursor(PostingSizes(Entries(gs)), 56, |gs|) == |Built(gs, t).postings|
    ensures Cursor(PositionSizes(Entries(gs)), 12, |gs|) == |Built(gs, t).positions|
  {
    hide Cursor, Entries, TermPostings, TermPositions, EntryRows, TotalHeader, CountHeader;
    PostingsCursor(gs, |gs|);
    PositionsCursor(gs, |gs|);
    assert PostingParts(gs)[..|gs|] == PostingParts(gs) && PositionParts(gs)[..|gs|] == PositionParts(gs);
  }

  lemma {:induction false} PostingsTake(gs: seq<Group>, k: nat)
    requires SizedGroups(gs) && k <= |gs|
    ensures |Concat(PostingParts(gs)[..k])| >= PostingTotal(gs[..k])
  {
    hide TermPostings, SizedPostings;
    if k > 0 {
      PostingsTake(gs, k - 1);
      ConcatStep(PostingParts(gs), k - 1);
      SizedAt(gs, k - 1);
      TermPostingsSize(k - 1, gs[k - 1].postings);
      assert gs[..k][..k - 1] == gs[..k - 1];
    }
  }

  lemma PostingsBounded(gs: seq<Group>, t: Totals)
    requires SizedGroups(gs) && |t.tokens| == 3 && WithinCapacity(Built(gs, t))
    ensures PostingTotal(gs) <= MaxPayload
  {
    hide TermPostings, EntryRows, PositionParts, TotalHeader, PostingTotal, Concat, SizedGroups;
    PostingsTake(gs, |gs|);
    assert PostingParts(gs)[..|gs|] == PostingParts(gs) && gs[..|gs|] == gs;
  }

  // ---------------------------------------------------------------- the round trip

  /** What the writer's groups guarantee of a whole segment. */
  ghost predicate Sound(gs: seq<Group>, t: Totals) {
    SizedGroups(gs) && GroupsGood(gs, t.documents, t.passages) && TotalsOk(t) && WithinCapacity(Built(gs, t)) && ShortFields(gs, MaxPayload)
  }

  lemma SoundTerm(gs: seq<Group>, t: Totals, k: nat)
    requires Sound(gs, t) && k < |gs|
    ensures TermSound(gs, t, k)
  {
    hide Built, PostingsGood;
    TermCountBounded(gs, t);
    SizedAt(gs, k);
    var ps := gs[k].postings;
    forall i, f | 0 <= i < |ps| && 0 <= f < 3 ensures ps[i].length[f] <= MaxPayload {
      assert ShortPosting(gs[k].postings[i], MaxPayload);
    }
  }

  lemma TermsAccepted(gs: seq<Group>, t: Totals, k: nat)
    requires Sound(gs, t) && k < |gs|
    ensures TermAccepted(Built(gs, t), Entries(gs), k, t)
  {
    hide Built, TermAccepted, TermSound;
    SoundTerm(gs, t, k);
    TermIsAccepted(gs, t, k);
  }

  lemma TotalsKept(t: Totals, n: nat)
    requires |t.tokens| == 3
    ensures TotalsFrom(TotalFields(t, n)) == t && TotalFields(t, n)[0] == PayloadVersion && TotalFields(t, n)[1] == BlockSize && TotalFields(t, n)[4] == n
  {
    assert t.tokens == [t.tokens[0], t.tokens[1], t.tokens[2]];
  }

  lemma AcceptBody(seg: Payloads, es: seq<Entry>, t: Totals, n: nat, m: nat)
    requires |t.tokens| == 3 && |seg.postings| >= 56 && |seg.positions| >= 12
    requires PostingsHead(seg) == TotalFields(t, n) && PositionsHead(seg) == [PayloadVersion, m]
    requires forall k :: 0 <= k < |es| ==> TermAccepted(seg, es, k, t)
    requires Cursor(PostingSizes(es), 56, |es|) == |seg.postings| && Cursor(PositionSizes(es), 12, |es|) == |seg.positions|
    requires FrequencySum(es) == n && RecordSum(es) == m
    ensures SegmentAccepted(seg, es)
  {
    hide PostingsHead, PositionsHead, TermAccepted, Cursor, FrequencySum, RecordSum, TotalFields, TotalsFrom;
    TotalsKept(t, n);
  }

  lemma WholeCounts(gs: seq<Group>)
    requires SizedGroups(gs)
    ensures |Entries(gs)| == |gs| && FrequencySum(Entries(gs)) == PostingTotal(gs) && RecordSum(Entries(gs)) == PositionTotal(gs)
  {
    hide FrequencySum, RecordSum, PostingTotal, PositionTotal, EntryOf, SizedGroups;
    CountsAgree(gs, |gs|);
    assert Entries(gs)[..|gs|] == Entries(gs) && gs[..|gs|] == gs;
  }

  lemma BuiltIsAccepted(gs: seq<Group>, t: Totals)
    requires Sound(gs, t)
    ensures SegmentAccepted(Built(gs, t), Entries(gs))
  {
    hide *;
    SoundSized(gs, t);
    SoundCounts(gs, t);
    WholeCounts(gs);
    forall k | 0 <= k < |Entries(gs)| ensures TermAccepted(Built(gs, t), Entries(gs), k, t) { TermsAccepted(gs, t, k); }
    HeadersRead(gs, t);
    SizesEnd(gs, t);
    AcceptBody(Built(gs, t), Entries(gs), t, PostingTotal(gs), PositionTotal(gs));
  }

  lemma SoundCounts(gs: seq<Group>, t: Totals)
    requires Sound(gs, t)
    ensures SizedGroups(gs) && |t.tokens| == 3 && PostingTotal(gs) < U64 && PositionTotal(gs) < U64
  {
    hide Built, PostingTotal, PositionTotal, SizedGroups, GroupsGood, ShortFields;
    PostingsBounded(gs, t);
    PositionsBounded(gs, t);
  }

  lemma BuiltReadsBack(gs: seq<Group>, t: Totals)
    requires Sound(gs, t)
    ensures ReadTerms(Built(gs, t).terms) == Ok(Entries(gs))
    ensures forall k :: 0 <= k < |gs| ==> ListInRange(Built(gs, t), Entries(gs)[k])
    ensures ReadGroups(Built(gs, t), Entries(gs)) == gs
  {
    hide Built, EntryOf, EntryFits, ReadTerms, Decoded, ListInRange, PostingsGood, ShortFields;
    TermCountBounded(gs, t);
    forall k | 0 <= k < |gs|
      ensures EntryFits(gs, k) && |gs[k].postings| > 0
      ensures ListInRange(Built(gs, t), EntryOf(gs, k)) && Decoded(Built(gs, t), EntryOf(gs, k)) == gs[k].postings
      ensures EntryOf(gs, k).term == gs[k].term
    {
      EntriesFit(gs, t, k);
      SoundTerm(gs, t, k);
      TermReads(gs, t, k);
      EntryPlaces(gs, k);
    }
    TermsRoundTrip(gs, t);
    assert ReadGroups(Built(gs, t), Entries(gs)) == gs;
  }

  lemma SoundGroups(s: seq<Occurrence>, t: Totals)
    requires Ordered(s) && ListOk(s, t.documents, t.passages) && FieldsInRange(s) && TotalsOk(t) && WithinCapacity(Built(Groups(s), t))
    ensures Flatten(Groups(s)) == s && Sound(Groups(s), t)
  {
    hide Built, Groups, Flatten, Before;
    FlattenGroups(s);
    GroupsOfOrdered(s, t.documents, t.passages);
    FlattenSize(Groups(s));
    PositionsBounded(Groups(s), t);
    GroupsShort(s, MaxPayload);
  }

  /**
   For every well-formed list of occurrences whose payloads fit a segment: both validators accept
   the built payloads, and reading every term, posting and position back gives exactly the
   occurrences, term frequencies and field lengths that went in.
   */
  lemma SegmentRoundTrip(occurrences: seq<Occurrence>, t: Totals)
    requires ListOk(occurrences, t.documents, t.passages) && TotalsOk(t) && WithinCapacity(Built(Grouped(occurrences), t))
    ensures var gs := Grouped(occurrences); var seg, es := Built(gs, t), Entries(gs);
      && ReadTerms(seg.terms) == Ok(es) && SegmentAccepted(seg, es)
      && (forall k :: 0 <= k < |es| ==> ListInRange(seg, es[k]))
      && ReadGroups(seg, es) == gs && Flatten(gs) == Sort(occurrences)
      && multiset(Flatten(gs)) == multiset(occurrences)
  {
    hide Sort, Groups, Built, ReadTerms, SegmentAccepted, ReadGroups, Flatten, WithinCapacity, Sound;
    var s := Sort(occurrences);
    SortFields(occurrences);
    SortOrdered(occurrences);
    SortMultiset(occurrences);
    SortedListOk(occurrences, s, t.documents, t.passages);
    SoundGroups(s, t);
    SoundSized(Groups(s), t);
    BuiltIsAccepted(Groups(s), t);
    BuiltReadsBack(Groups(s), t);
  }

  lemma SoundSized(gs: seq<Group>, t: Totals)
    requires Sound(gs, t)
    ensures SizedGroups(gs) && |t.tokens| == 3 && TotalsOk(t) && WithinCapacity(Built(gs, t))
  {
  }

  lemma SortedListOk(a: seq<Occurrence>, s: seq<Occurrence>, documents: nat, passages: nat)
    requires ListOk(a, documents, passages) && Ordered(s) && multiset(s) == multiset(a)
    ensures ListOk(s, documents, passages)
  {
    hide OccurrenceOk, Before;
    assert |multiset(s)| == |s| && |multiset(a)| == |a|;
    forall i | 0 <= i < |s| ensures exists j :: 0 <= j < |a| && a[j] == s[i] {
      assert s[i] in multiset(a);
    }
    forall i, j | 0 <= i < j < |s| ensures !SameKey(s[i], s[j]) { BeforeIrreflexive(s[i], s[j]); }
  }
}
