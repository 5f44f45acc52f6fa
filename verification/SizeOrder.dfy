/** Sizes only grow: a slice needs at least what each of its units, and each of its prefixes, needs. */
module SizeOrder {
  import opened Common
  import opened Occurrences
  import opened TermCounts
  import opened SegmentSizer

  /** Every term of a is in b, at least as often. */
  predicate CountsWithin(a: Counts, b: Counts) {
    forall t :: t in a ==> t in b && a[t].occurrences <= b[t].occurrences && a[t].postings <= b[t].postings
  }

  lemma CostGrowsWith(part: Part, t: Bytes, c: Count, d: Count)
    requires c.occurrences <= d.occurrences && c.postings <= d.postings
    ensures Cost(part, t, c) <= Cost(part, t, d)
  {
  }

  lemma {:induction false} TotalGrows(part: Part, a: Counts, b: Counts)
    requires CountsWithin(a, b)
    ensures TotalCost(part, a) <= TotalCost(part, b)
    decreases |a|
  {
    hide Cost, TotalCost;
    if |a| == 0 {
      TotalOfNone(part, a);
    } else {
      var t := TotalChoice(part, a);
      TotalRemove(part, b, t);
      CostGrowsWith(part, t, a[t], b[t]);
      assert (a - {t}).Keys == a.Keys - {t};
      assert |a - {t}| == |(a - {t}).Keys| && |a| == |a.Keys|;
      TotalGrows(part, a - {t}, b - {t});
    }
  }

  lemma TotalOfNone(part: Part, a: Counts)
    requires |a| == 0
    ensures TotalCost(part, a) == 0
  {
  }

  predicate SizesWithin(a: Sizes, b: Sizes) {
    && a.documents <= b.documents && a.passages <= b.passages && a.documentPayload <= b.documentPayload
    && a.metadataPayload <= b.metadataPayload && a.vectorIdBytes <= b.vectorIdBytes && a.tombstones <= b.tombstones
    && a.tombstonePayload <= b.tombstonePayload && a.termPayload <= b.termPayload && a.postingPayload <= b.postingPayload
    && a.positionPayload <= b.positionPayload
  }

  lemma MergeWithin(a: Counts, b: Counts)
    ensures CountsWithin(a, Merge(a, b)) && CountsWithin(b, Merge(a, b))
  {
  }

  /** A slice with one more unit needs at least what it needed before. */
  lemma TallyGrows(us: seq<PlanUnit>, u: PlanUnit)
    ensures SizesWithin(Tally(us), Tally(us + [u]))
  {
    hide Tally;
    if u.TombstoneUnit? {
      TallyTombstone(us, u);
      AtLeastHeader(us);
    } else {
      DocumentGrows(us, u);
    }
  }

  lemma DocumentGrows(us: seq<PlanUnit>, u: PlanUnit)
    requires u.DocumentUnit?
    ensures SizesWithin(Tally(us), Tally(us + [u]))
  {
    hide *;
    TallyDocument(us, u);
    Started(us);
    EmptyParts(us);
    var s, terms := Tally(us), Merge(Tally(us).terms, UnitTerms(u));
    MergeWithin(s.terms, UnitTerms(u));
    TotalGrows(Terms, s.terms, terms);
    TotalGrows(Postings, s.terms, terms);
    TotalGrows(Positions, s.terms, terms);
    GrownDocument(s, u, TotalCost(Terms, terms), TotalCost(Postings, terms), TotalCost(Positions, terms), terms);
  }

  lemma GrownDocument(s: Sizes, u: PlanUnit, t: nat, p: nat, q: nat, terms: Counts)
    requires u.DocumentUnit? && s.termPayload <= 12 + t && s.postingPayload <= 56 + p && s.positionPayload <= 12 + q
    ensures SizesWithin(s, WithDocument(s, u, 12 + t, 56 + p, 12 + q, terms))
  {
  }

  lemma EmptyParts(us: seq<PlanUnit>)
    ensures Tally(us).documents == 0 ==> Tally(us).termPayload == Tally(us).postingPayload == Tally(us).positionPayload == 0
  {
    hide TotalCost, CountsOf, Combined;
  }

  lemma MergeNone(b: Counts)
    ensures Merge(map[], b) == b
  {
    assert forall t :: t in b ==> Plus(Count(0, 0), b[t]) == b[t];
  }

  /** A slice that ends with a unit needs at least what the unit needs alone. */
  lemma UnitWithin(us: seq<PlanUnit>, u: PlanUnit)
    ensures SizesWithin(Tally([u]), Tally(us + [u]))
  {
    hide Tally;
    if u.TombstoneUnit? {
      assert [] + [u] == [u];
      EmptyTally();
      TallyTombstone(us, u);
      TallyTombstone([], u);
      AtLeastHeader(us);
    } else {
      DocumentWithin(us, u);
    }
  }

  lemma DocumentWithin(us: seq<PlanUnit>, u: PlanUnit)
    requires u.DocumentUnit?
    ensures SizesWithin(Tally([u]), Tally(us + [u]))
  {
    hide *;
    assert [] + [u] == [u];
    EmptyTally();
    TallyDocument(us, u);
    TallyDocument([], u);
    MergeNone(UnitTerms(u));
    var s, own, terms := Tally(us), UnitTerms(u), Merge(Tally(us).terms, UnitTerms(u));
    MergeWithin(s.terms, own);
    TotalGrows(Terms, own, terms);
    TotalGrows(Postings, own, terms);
    TotalGrows(Positions, own, terms);
    DocumentAlone(s, u, TotalCost(Terms, own), TotalCost(Postings, own), TotalCost(Positions, own), own,
                  TotalCost(Terms, terms), TotalCost(Postings, terms), TotalCost(Positions, terms), terms);
  }

  lemma DocumentAlone(s: Sizes, u: PlanUnit, t0: nat, p0: nat, q0: nat, own: Counts, t: nat, p: nat, q: nat, terms: Counts)
    requires u.DocumentUnit? && t0 <= t && p0 <= p && q0 <= q
    ensures SizesWithin(WithDocument(Sizes(0, 0, 0, 0, 0, 0, 0, 0, 0, 0, map[]), u, 12 + t0, 56 + p0, 12 + q0, own),
                        WithDocument(s, u, 12 + t, 56 + p, 12 + q, terms))
  {
  }

  lemma AtLeastHeader(us: seq<PlanUnit>)
    ensures if Tally(us).tombstones > 0 then Tally(us).tombstonePayload >= 12 else Tally(us).tombstonePayload == 0
  {
    hide TotalCost, CountsOf, Combined, PassageCount;
  }

  lemma WithinTransitive(a: Sizes, b: Sizes, c: Sizes)
    requires SizesWithin(a, b) && SizesWithin(b, c)
    ensures SizesWithin(a, c)
  {
  }

  /** Every prefix of a slice needs at most what the slice needs. */
  lemma {:induction false} PrefixWithin(us: seq<PlanUnit>, n: nat)
    requires n <= |us|
    ensures SizesWithin(Tally(us[..n]), Tally(us))
    decreases |us| - n
  {
    hide Tally;
    if n == |us| {
      assert us[..n] == us;
    } else {
      hide SizesWithin;
      PrefixWithin(us, n + 1);
      assert us[..n] + [us[n]] == us[..n + 1];
      TallyGrows(us[..n], us[n]);
      WithinTransitive(Tally(us[..n]), Tally(us[..n + 1]), Tally(us));
    }
  }
}
