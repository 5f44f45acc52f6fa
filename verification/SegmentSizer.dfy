/** Incremental size accounting for a slice of units. */
module SegmentSizer {
  import opened Common
  import opened Occurrences
  import opened LexicalGroups
  import opened LexicalFormat
  import opened TermCounts
  import opened PayloadSizes
  import opened UnitCounting

  const MaxDocuments: nat := 1000000
  const MaxPassages: nat := 4000000

  /** An upsert with its tokens and the record sizes of the other components, or a tombstone. */
  datatype PlanUnit =
    | DocumentUnit(tokens: Unit, documentBytes: nat, passageBytes: nat, metadataBytes: nat, vectorIdBytes: nat)
    | TombstoneUnit(idBytes: nat)

  datatype Sizes = Sizes(
    documents: nat, passages: nat, documentPayload: nat, metadataPayload: nat, vectorIdBytes: nat,
    tombstones: nat, tombstonePayload: nat, termPayload: nat, postingPayload: nat, positionPayload: nat, terms: Counts)

  /** The documents of a slice, in order. */
  function Docs(us: seq<PlanUnit>): seq<Unit> {
    if |us| == 0 then []
    else Docs(us[..|us| - 1]) + if us[|us| - 1].DocumentUnit? then [us[|us| - 1].tokens] else []
  }

  function DocumentPayload(us: seq<PlanUnit>): nat {
    if |us| == 0 then 0
    else DocumentPayload(us[..|us| - 1]) + if us[|us| - 1].DocumentUnit? then us[|us| - 1].documentBytes + us[|us| - 1].passageBytes else 0
  }

  function MetadataPayload(us: seq<PlanUnit>): nat {
    if |us| == 0 then 0 else MetadataPayload(us[..|us| - 1]) + if us[|us| - 1].DocumentUnit? then us[|us| - 1].metadataBytes else 0
  }

  function VectorIdBytes(us: seq<PlanUnit>): nat {
    if |us| == 0 then 0 else VectorIdBytes(us[..|us| - 1]) + if us[|us| - 1].DocumentUnit? then us[|us| - 1].vectorIdBytes else 0
  }

  function Tombstones(us: seq<PlanUnit>): nat {
    if |us| == 0 then 0 else Tombstones(us[..|us| - 1]) + if us[|us| - 1].DocumentUnit? then 0 else 1
  }

  function TombstoneBytes(us: seq<PlanUnit>): nat {
    if |us| == 0 then 0 else TombstoneBytes(us[..|us| - 1]) + if us[|us| - 1].DocumentUnit? then 0 else 4 + us[|us| - 1].idBytes
  }

  /** Sizes of a slice stated directly: the lexical parts by the counts of all its tokens together. */
  ghost function Tally(us: seq<PlanUnit>): Sizes {
    var docs, terms := Docs(us), CountsOf(Combined(Docs(us)));
    Sizes(|docs|, PassageCount(docs), DocumentPayload(us), MetadataPayload(us), VectorIdBytes(us),
          Tombstones(us), if Tombstones(us) == 0 then 0 else 12 + TombstoneBytes(us),
          if |docs| == 0 then 0 else 12 + TotalCost(Terms, terms),
          if |docs| == 0 then 0 else 56 + TotalCost(Postings, terms),
          if |docs| == 0 then 0 else 12 + TotalCost(Positions, terms), terms)
  }

  /** The accounted lexical sizes are exactly the lengths of the payloads written for the slice. */
  lemma TallyIsExact(us: seq<PlanUnit>, t: Totals)
    requires UnitsOk(Docs(us)) && |Docs(us)| > 0 && |t.tokens| == 3 && t.documents == |Docs(us)| && t.passages == PassageCount(Docs(us))
    ensures FieldsInRange(Combined(Docs(us)))
    ensures var built := Built(Grouped(Combined(Docs(us))), t);
      && Tally(us).termPayload == |built.terms| && Tally(us).postingPayload == |built.postings| && Tally(us).positionPayload == |built.positions|
  {
    hide Combined, CountsOf, TotalCost, Built, Grouped;
    CombinedOk(Docs(us));
    PayloadSizesExact(Combined(Docs(us)), t);
  }

  ghost function UnitTerms(u: PlanUnit): Counts {
    if u.DocumentUnit? then CountsOf(Prepared(u.tokens)) else map[]
  }

  lemma DocsLast(us: seq<PlanUnit>, u: PlanUnit)
    ensures Docs(us + [u]) == if u.DocumentUnit? then Docs(us) + [u.tokens] else Docs(us)
  {
    assert (us + [u])[..|us|] == us;
  }

  lemma PassageCountLast(us: seq<Unit>, u: Unit)
    ensures PassageCount(us + [u]) == PassageCount(us) + |u.passages|
  {
    assert (us + [u])[..|us|] == us;
  }

  function WithTombstone(s: Sizes, idBytes: nat): Sizes {
    s.(tombstones := s.tombstones + 1, tombstonePayload := (if s.tombstones == 0 then 12 else s.tombstonePayload) + 4 + idBytes)
  }

  /** Everything a document adds except the lexical sums, which are given. */
  function WithDocument(s: Sizes, u: PlanUnit, termPayload: nat, postingPayload: nat, positionPayload: nat, terms: Counts): Sizes
    requires u.DocumentUnit?
  {
    Sizes(s.documents + 1, s.passages + |u.tokens.passages|, s.documentPayload + u.documentBytes + u.passageBytes,
          s.metadataPayload + u.metadataBytes, s.vectorIdBytes + u.vectorIdBytes, s.tombstones, s.tombstonePayload,
          termPayload, postingPayload, positionPayload, terms)
  }

  lemma TallyTombstone(us: seq<PlanUnit>, u: PlanUnit)
    requires u.TombstoneUnit?
    ensures Tally(us + [u]) == WithTombstone(Tally(us), u.idBytes)
  {
    hide CountsOf, Combined, TotalCost, PassageCount;
    DocsLast(us, u);
    assert (us + [u])[..|us|] == us;
    NoTombstones(us);
  }

  lemma {:induction false} NoTombstones(us: seq<PlanUnit>)
    ensures Tombstones(us) == 0 ==> TombstoneBytes(us) == 0
  {
    if |us| > 0 { NoTombstones(us[..|us| - 1]); }
  }

  lemma TallyDocument(us: seq<PlanUnit>, u: PlanUnit)
    requires u.DocumentUnit?
    ensures var s, terms := Tally(us), Merge(Tally(us).terms, UnitTerms(u));
      Tally(us + [u]) == WithDocument(s, u, 12 + TotalCost(Terms, terms), 56 + TotalCost(Postings, terms), 12 + TotalCost(Positions, terms), terms)
  {
    hide CountsOf, Combined, TotalCost, PassageCount, Docs, Merge, Prepared, DocumentPayload, MetadataPayload, VectorIdBytes, Tombstones, TombstoneBytes;
    DocsLast(us, u);
    PassageCountLast(Docs(us), u.tokens);
    CombinedCounts(Docs(us), u.tokens);
    PlainSums(us, u);
  }

  lemma PlainSums(us: seq<PlanUnit>, u: PlanUnit)
    requires u.DocumentUnit?
    ensures DocumentPayload(us + [u]) == DocumentPayload(us) + u.documentBytes + u.passageBytes
    ensures MetadataPayload(us + [u]) == MetadataPayload(us) + u.metadataBytes && VectorIdBytes(us + [u]) == VectorIdBytes(us) + u.vectorIdBytes
    ensures Tombstones(us + [u]) == Tombstones(us) && TombstoneBytes(us + [u]) == TombstoneBytes(us)
  {
    assert (us + [u])[..|us|] == us;
  }

  lemma NoDocuments(us: seq<PlanUnit>)
    requires Tally(us).documents == 0
    ensures Tally(us).terms == map[]
  {
    assert Docs(us) == [] && Combined([]) == [];
    EmptyTerms();
  }

  // ---------------------------------------------------------------- adding one term

  /** Merged counts when only the terms in done have been added. */
  function MergeSome(before: Counts, terms: Counts, done: set<Bytes>): Counts
    requires done <= terms.Keys
  {
    map t | t in before.Keys + done :: if t in done then Plus(Lookup(before, t), terms[t]) else before[t]
  }

  lemma MergeStep(before: Counts, terms: Counts, done: set<Bytes>, t: Bytes)
    requires done <= terms.Keys && t in terms && t !in done
    ensures Lookup(MergeSome(before, terms, done), t) == Lookup(before, t) && (t in MergeSome(before, terms, done) <==> t in before)
    ensures MergeSome(before, terms, done + {t}) == MergeSome(before, terms, done)[t := Plus(Lookup(before, t), terms[t])]
  {
  }

  lemma MergeEnds(before: Counts, terms: Counts)
    ensures MergeSome(before, terms, {}) == before && MergeSome(before, terms, terms.Keys) == Merge(before, terms)
  {
  }

  /** What one term adds to each payload, given how often it was there before. */
  function Delta(part: Part, fresh_: bool, term: Bytes, was: nat, c: Count): int {
    match part
    case Terms => if fresh_ then 44 + |term| else 0
    case Postings => (if fresh_ then 20 else 0) + 48 * c.postings + 16 * (Blocks(was + c.postings) - Blocks(was))
    case Positions => (if fresh_ then 16 else 0) + 8 * c.occurrences
  }

  /** The increment is the difference of the closed forms, block counts included. */
  lemma DeltaIsExact(part: Part, m: Counts, t: Bytes, c: Count)
    ensures TotalCost(part, m[t := Plus(Lookup(m, t), c)]) == TotalCost(part, m) + Delta(part, t !in m, t, Lookup(m, t).postings, c)
  {
    hide TotalCost;
    TotalPut(part, m, t, Plus(Lookup(m, t), c));
  }

  /** Adding one of the remaining terms: the new counts and what they add to the sums. */
  lemma StepCosts(before: Counts, terms: Counts, done: set<Bytes>, t: Bytes)
    requires done <= terms.Keys && t in terms && t !in done
    ensures var m, c := MergeSome(before, terms, done), terms[t];
      && Lookup(m, t) == Lookup(before, t) && (t in m <==> t in before)
      && MergeSome(before, terms, done + {t}) == m[t := Plus(Lookup(before, t), c)]
      && CostGrows(Terms, before, t, c, m) && CostGrows(Postings, before, t, c, m) && CostGrows(Positions, before, t, c, m)
  {
    hide TotalCost, Plus, Delta, MergeSome;
    MergeStep(before, terms, done, t);
    var m := MergeSome(before, terms, done);
    DeltaIsExact(Terms, m, t, terms[t]);
    DeltaIsExact(Postings, m, t, terms[t]);
    DeltaIsExact(Positions, m, t, terms[t]);
  }

  ghost predicate CostGrows(part: Part, before: Counts, t: Bytes, c: Count, m: Counts) {
    TotalCost(part, m[t := Plus(Lookup(before, t), c)]) == TotalCost(part, m) + Delta(part, t !in before, t, Lookup(before, t).postings, c)
  }

  // ---------------------------------------------------------------- the sizer

  class Sizer {
    var sizes: Sizes
    ghost var units: seq<PlanUnit>

    ghost predicate Valid()
      reads this
    {
      sizes == Tally(units)
    }

    constructor ()
      ensures Valid() && units == []
    {
      sizes := Sizes(0, 0, 0, 0, 0, 0, 0, 0, 0, 0, map[]);
      units := [];
      new;
      EmptyTally();
    }

    /** Account for one more unit; its counts per term were taken when it was prepared. */
    method Add(u: PlanUnit, terms: Counts)
      requires Valid() && terms == UnitTerms(u)
      modifies this
      ensures Valid() && units == old(units) + [u]
    {
      hide Tally, UnitTerms, WithTombstone, WithDocument;
      if u.TombstoneUnit? {
        TallyTombstone(units, u);
        sizes := WithTombstone(sizes, u.idBytes);
      } else {
        sizes := AddDocument(sizes, u, terms, units);
      }
      units := units + [u];
    }

    /** The sizes the slice would have with one more unit; the term map is only looked at. */
    method Project(u: PlanUnit, terms: Counts) returns (s: Sizes)
      requires Valid() && terms == UnitTerms(u)
      ensures s == Tally(units + [u]).(terms := sizes.terms)
    {
      hide Tally, UnitTerms, WithDocument;
      if u.TombstoneUnit? {
        TallyTombstone(units, u);
        s := WithTombstone(sizes, u.idBytes);
      } else {
        s := ProjectDocument(sizes, u, terms, units);
      }
    }
  }

  method AddDocument(s: Sizes, u: PlanUnit, terms: Counts, ghost us: seq<PlanUnit>) returns (r: Sizes)
    requires u.DocumentUnit? && s == Tally(us) && terms == UnitTerms(u)
    ensures r == Tally(us + [u])
  {
    hide *;
    TallyDocument(us, u);
    Started(us);
    var t, p, q := s.termPayload, s.postingPayload, s.positionPayload;
    if s.documents == 0 { t, p, q := 12, 56, 12; }
    var merged;
    t, p, q, merged := AddTerms(s.terms, terms, t, p, q);
    r := WithDocument(s, u, t, p, q, merged);
  }

  method ProjectDocument(s: Sizes, u: PlanUnit, terms: Counts, ghost us: seq<PlanUnit>) returns (r: Sizes)
    requires u.DocumentUnit? && s == Tally(us) && terms == UnitTerms(u)
    ensures r == Tally(us + [u]).(terms := s.terms)
  {
    hide *;
    TallyDocument(us, u);
    Started(us);
    var t, p, q := s.termPayload, s.postingPayload, s.positionPayload;
    if s.documents == 0 { t, p, q := 12, 56, 12; }
    t, p, q := ProjectTerms(s.terms, terms, t, p, q);
    SameButTerms(s, u, t, p, q, s.terms, Merge(s.terms, terms));
    r := WithDocument(s, u, t, p, q, s.terms);
  }

  lemma SameButTerms(s: Sizes, u: PlanUnit, t: nat, p: nat, q: nat, a: Counts, b: Counts)
    requires u.DocumentUnit?
    ensures WithDocument(s, u, t, p, q, b).(terms := a) == WithDocument(s, u, t, p, q, a)
  {
  }

  lemma EmptyTally()
    ensures Tally([]) == Sizes(0, 0, 0, 0, 0, 0, 0, 0, 0, 0, map[])
  {
    NoDocuments([]);
  }

  /** With documents the payloads are header plus costs; without, there are no terms yet. */
  lemma Started(us: seq<PlanUnit>)
    ensures var s := Tally(us);
      if s.documents == 0 then s.terms == map[] && TotalCost(Terms, map[]) == TotalCost(Postings, map[]) == TotalCost(Positions, map[]) == 0
      else
        && s.termPayload == 12 + TotalCost(Terms, s.terms) && s.postingPayload == 56 + TotalCost(Postings, s.terms)
        && s.positionPayload == 12 + TotalCost(Positions, s.terms)
  {
    if Tally(us).documents == 0 {
      NoDocuments(us);
      TotalEmpty(Terms);
      TotalEmpty(Postings);
      TotalEmpty(Positions);
    }
  }

  /** Walk the unit's terms in any order, update the map and the three sums. */
  method AddTerms(before: Counts, terms: Counts, t0: nat, p0: nat, q0: nat) returns (t: nat, p: nat, q: nat, merged: Counts)
    requires t0 == 12 + TotalCost(Terms, before) && p0 == 56 + TotalCost(Postings, before) && q0 == 12 + TotalCost(Positions, before)
    ensures merged == Merge(before, terms)
    ensures t == 12 + TotalCost(Terms, merged) && p == 56 + TotalCost(Postings, merged) && q == 12 + TotalCost(Positions, merged)
  {
    hide TotalCost, MergeSome, Merge, Lookup, Plus, Blocks;
    t, p, q, merged := t0, p0, q0, before;
    MergeEnds(before, terms);
    var todo := terms.Keys;
    assert terms.Keys - todo == {};
    while todo != {}
      invariant todo <= terms.Keys && merged == MergeSome(before, terms, terms.Keys - todo)
      invariant t == 12 + TotalCost(Terms, merged) && p == 56 + TotalCost(Postings, merged) && q == 12 + TotalCost(Positions, merged)
      decreases |todo|
    {
      var term :| term in todo;
      assert terms.Keys - (todo - {term}) == terms.Keys - todo + {term};
      StepNumbers(before, terms, terms.Keys - todo, term);
      var c := terms[term];
      var old_ := 0;
      if term !in merged {
        t, p, q := t + 44 + |term|, p + 20, q + 16;
      } else {
        old_ := merged[term].postings;
      }
      p := p + 48 * c.postings + 16 * (Blocks(old_ + c.postings) - Blocks(old_));
      q := q + 8 * c.occurrences;
      merged := merged[term := Plus(Lookup(merged, term), c)];
      todo := todo - {term};
    }
    assert terms.Keys - {} == terms.Keys;
  }

  /** What one term adds to the three sizes, in numbers. */
  lemma StepNumbers(before: Counts, terms: Counts, done: set<Bytes>, t: Bytes)
    requires done <= terms.Keys && t in terms && t !in done
    ensures var m, c := MergeSome(before, terms, done), terms[t];
      var after, was := m[t := Plus(Lookup(m, t), c)], if t in m then m[t].postings else 0;
      && MergeSome(before, terms, done + {t}) == after
      && TotalCost(Terms, after) == TotalCost(Terms, m) + (if t in m then 0 else 44 + |t|)
      && TotalCost(Postings, after) == TotalCost(Postings, m) + (if t in m then 0 else 20) + 48 * c.postings + 16 * (Blocks(was + c.postings) - Blocks(was))
      && TotalCost(Positions, after) == TotalCost(Positions, m) + (if t in m then 0 else 16) + 8 * c.occurrences
  {
    hide TotalCost, MergeSome;
    StepCosts(before, terms, done, t);
  }

  /** A term not yet merged counts as it did before. */
  lemma SameBefore(before: Counts, terms: Counts, done: set<Bytes>, t: Bytes)
    requires done <= terms.Keys && t in terms && t !in done
    ensures var m := MergeSome(before, terms, done); (t in m <==> t in before) && (t in m ==> m[t] == before[t])
  {
    hide TotalCost, MergeSome, CostGrows;
    StepCosts(before, terms, done, t);
  }

  lemma NoBlocks()
    ensures Blocks(0) == 0
  {
  }

  method ProjectTerms(before: Counts, terms: Counts, t0: nat, p0: nat, q0: nat) returns (t: nat, p: nat, q: nat)
    requires t0 == 12 + TotalCost(Terms, before) && p0 == 56 + TotalCost(Postings, before) && q0 == 12 + TotalCost(Positions, before)
    ensures var merged := Merge(before, terms);
      t == 12 + TotalCost(Terms, merged) && p == 56 + TotalCost(Postings, merged) && q == 12 + TotalCost(Positions, merged)
  {
    hide TotalCost, MergeSome, Merge, Lookup, Plus, Blocks;
    t, p, q := t0, p0, q0;
    NoBlocks();
    ghost var merged := before;
    MergeEnds(before, terms);
    var todo := terms.Keys;
    assert terms.Keys - todo == {};
    while todo != {}
      invariant todo <= terms.Keys && merged == MergeSome(before, terms, terms.Keys - todo)
      invariant t == 12 + TotalCost(Terms, merged) && p == 56 + TotalCost(Postings, merged) && q == 12 + TotalCost(Positions, merged)
      decreases |todo|
    {
      var term :| term in todo;
      assert terms.Keys - (todo - {term}) == terms.Keys - todo + {term};
      StepNumbers(before, terms, terms.Keys - todo, term);
      SameBefore(before, terms, terms.Keys - todo, term);
      var c := terms[term];
      var old_, oldBlocks := 0, 0;
      if term !in before {
        t, p, q := t + 44 + |term|, p + 20, q + 16;
      } else {
        old_ := before[term].postings;
        oldBlocks := Blocks(old_);
      }
      p := p + 48 * c.postings + 16 * (Blocks(old_ + c.postings) - oldBlocks);
      q := q + 8 * c.occurrences;
      merged := merged[term := Plus(Lookup(merged, term), c)];
      todo := todo - {term};
    }
    assert terms.Keys - {} == terms.Keys;
  }
}
