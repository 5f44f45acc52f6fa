/** Planning, writing and reading joined: what a plan promises about the segments written for it. */
module PlannedSegments {
  import opened Common
  import opened Slices
  import opened Occurrences
  import opened LexicalGroups
  import opened LexicalFormat
  import opened LexicalReader
  import opened LexicalSegment
  import opened LexicalRoundTrip
  import opened SegmentSizer
  import opened SegmentPlanner

  function PartOf(us: seq<PlanUnit>, slice: Slice): seq<PlanUnit>
    requires slice.first + slice.count <= |us|
  {
    us[slice.first..slice.first + slice.count]
  }

  lemma FitsLess(c: Config, us: seq<PlanUnit>, limit: nat, more: nat)
    requires UnitsFit(c, us, limit) && limit <= more
    ensures UnitsFit(c, us, more)
  {
    hide Tally;
  }

  /** Whatever rule produced a slice, it is within the hard limit. */
  lemma SliceFits(c: Config, us: seq<PlanUnit>, p: Policy, slices: seq<Slice>, k: nat)
    requires PolicyOk(p) && PlanOk(c, us, p, slices) && k < |slices|
    ensures slices[k].first + slices[k].count <= |us| && UnitsFit(c, PartOf(us, slices[k]), p.hardMax)
  {
    hide UnitsFit, OrderedPartition;
    var slice := slices[k];
    if UnitsFit(c, PartOf(us, slice), p.target) {
      FitsLess(c, PartOf(us, slice), p.target, p.hardMax);
    } else if UnitsFit(c, PartOf(us, slice), p.softMax) {
      FitsLess(c, PartOf(us, slice), p.softMax, p.hardMax);
    }
  }

  /** The totals a segment's header carries for its documents. */
  predicate TotalsOf(t: Totals, us: seq<PlanUnit>) {
    TotalsOk(t) && t.documents == |Docs(us)| && t.passages == PassageCount(Docs(us))
  }

  /** A slice with documents that fits has lexical sizes within the limit. */
  lemma LexicalSizesFit(c: Config, us: seq<PlanUnit>, limit: nat)
    requires UnitsFit(c, us, limit) && |Docs(us)| > 0
    ensures Tally(us).termPayload <= limit && Tally(us).postingPayload <= limit && Tally(us).positionPayload <= limit
  {
    hide Tally, Fits, Docs;
    TallyDocuments(us);
    ComponentsFit(c, Tally(us), limit);
  }

  lemma TallyDocuments(us: seq<PlanUnit>)
    ensures Tally(us).documents == |Docs(us)|
  {
    hide Docs;
  }

  lemma ComponentsFit(c: Config, s: Sizes, limit: nat)
    requires Fits(c, s, limit) && s.documents > 0
    ensures s.termPayload <= limit && s.postingPayload <= limit && s.positionPayload <= limit
  {
    assert Components(c, s)[1] == s.termPayload && Components(c, s)[2] == s.postingPayload && Components(c, s)[3] == s.positionPayload;
  }

  lemma LexicalFits(c: Config, us: seq<PlanUnit>, limit: nat, t: Totals)
    requires UnitsFit(c, us, limit) && limit <= MaxPayload && UnitsOk(Docs(us)) && |Docs(us)| > 0 && TotalsOf(t, us)
    ensures FieldsInRange(Combined(Docs(us))) && WithinCapacity(Built(Grouped(Combined(Docs(us))), t))
  {
    hide Grouped, Combined, Built, UnitsOk, FieldsInRange, UnitsFit, Tally, Docs, PassageCount;
    LexicalSizesFit(c, us, limit);
    TallyIsExact(us, t);
  }

  /**
   Every slice of a plan can be written without overflowing a lexical payload, and the segment is
   accepted by both validators and gives back exactly the tokens of the slice's documents.
   */
  lemma PlannedSlicesRoundTrip(c: Config, us: seq<PlanUnit>, p: Policy, slices: seq<Slice>, k: nat, t: Totals)
    requires PolicyOk(p) && PlanOk(c, us, p, slices) && k < |slices| && slices[k].first + slices[k].count <= |us|
    requires UnitsOk(Docs(PartOf(us, slices[k]))) && |Docs(PartOf(us, slices[k]))| > 0 && TotalsOf(t, PartOf(us, slices[k]))
    ensures var tokens := Combined(Docs(PartOf(us, slices[k]))); FieldsInRange(tokens) && WithinCapacity(Built(Grouped(tokens), t))
    ensures var tokens := Combined(Docs(PartOf(us, slices[k])));
      var gs := Grouped(tokens); var seg, es := Built(gs, t), Entries(gs);
      && ReadTerms(seg.terms) == Ok(es) && SegmentAccepted(seg, es)
      && (forall i :: 0 <= i < |es| ==> ListInRange(seg, es[i]))
      && ReadGroups(seg, es) == gs && multiset(Flatten(gs)) == multiset(tokens)
  {
    hide UnitsFit, PlanOk, Built, Grouped, Combined, ReadTerms, SegmentAccepted, ListInRange, ReadGroups, Flatten, WithinCapacity, ListOk, UnitsOk, Docs;
    SliceFits(c, us, p, slices, k);
    var part := PartOf(us, slices[k]);
    LexicalFits(c, part, p.hardMax, t);
    CombinedOk(Docs(part));
    SegmentRoundTrip(Combined(Docs(part)), t);
  }
}
