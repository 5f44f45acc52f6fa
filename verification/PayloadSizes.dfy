/** The byte lengths of built payloads in terms of counts per term. */
module PayloadSizes {
  import opened Common
  import opened ByteOrder
  import opened LittleEndian
  import opened Bm25
  import opened Occurrences
  import opened LexicalGroups
  import opened LexicalFormat
  import opened TermCounts

  function GroupCount(g: Group): Count {
    Count(|AllPositions(g.postings)|, |g.postings|)
  }

  function GroupMap(gs: seq<Group>): Counts {
    if |gs| == 0 then map[] else GroupMap(gs[..|gs| - 1])[gs[|gs| - 1].term := GroupCount(gs[|gs| - 1])]
  }

  lemma {:induction false} GroupMapKeys(gs: seq<Group>, t: Bytes)
    ensures t in GroupMap(gs) <==> exists k :: 0 <= k < |gs| && gs[k].term == t
  {
    hide GroupCount;
    if |gs| > 0 {
      var init := gs[..|gs| - 1];
      GroupMapKeys(init, t);
      assert forall k :: 0 <= k < |init| ==> init[k] == gs[k];
      if k :| 0 <= k < |gs| && gs[k].term == t && k < |gs| - 1 { assert init[k].term == t; }
    }
  }

  predicate DistinctTerms(gs: seq<Group>) {
    forall i, j :: 0 <= i < j < |gs| ==> gs[i].term != gs[j].term
  }

  lemma GroupMapStep(gs: seq<Group>, k: nat, part: Part)
    requires k < |gs| && DistinctTerms(gs)
    ensures TotalCost(part, GroupMap(gs[..k + 1])) == TotalCost(part, GroupMap(gs[..k])) + Cost(part, gs[k].term, GroupCount(gs[k]))
  {
    hide Cost, TotalCost, GroupCount;
    assert gs[..k + 1][..k] == gs[..k] && gs[..k + 1][k] == gs[k];
    GroupMapKeys(gs[..k], gs[k].term);
    TotalPut(part, GroupMap(gs[..k]), gs[k].term, GroupCount(gs[k]));
  }

  /** Each payload body is as long as the costs of the terms say. */
  lemma {:induction false} BodySizes(gs: seq<Group>, k: nat)
    requires SizedGroups(gs) && DistinctTerms(gs) && k <= |gs|
    ensures |Concat(EntryRows(gs)[..k])| == TotalCost(Terms, GroupMap(gs[..k]))
    ensures |Concat(PostingParts(gs)[..k])| == TotalCost(Postings, GroupMap(gs[..k]))
    ensures |Concat(PositionParts(gs)[..k])| == TotalCost(Positions, GroupMap(gs[..k]))
  {
    hide TotalCost, GroupMap, Concat, EntryRow, EntryRows, PostingParts, PositionParts, TermPostings, TermPositions, AllPositions, SizedPostings,
         DistinctTerms, Cost;
    if k == 0 {
      NoBodies(gs);
    } else {
      BodySizes(gs, k - 1);
      RowsAt(gs, k - 1);
      ConcatStep(EntryRows(gs), k - 1);
      ConcatStep(PostingParts(gs), k - 1);
      ConcatStep(PositionParts(gs), k - 1);
      TermSizes(gs, k - 1);
      GroupMapStep(gs, k - 1, Terms);
      GroupMapStep(gs, k - 1, Postings);
      GroupMapStep(gs, k - 1, Positions);
    }
  }

  lemma NoBodies(gs: seq<Group>)
    requires SizedGroups(gs)
    ensures |EntryRows(gs)| == |PostingParts(gs)| == |PositionParts(gs)| == |gs|
    ensures |Concat(EntryRows(gs)[..0])| == TotalCost(Terms, GroupMap(gs[..0]))
    ensures |Concat(PostingParts(gs)[..0])| == TotalCost(Postings, GroupMap(gs[..0]))
    ensures |Concat(PositionParts(gs)[..0])| == TotalCost(Positions, GroupMap(gs[..0]))
  {
    TotalEmpty(Terms);
    TotalEmpty(Postings);
    TotalEmpty(Positions);
    assert gs[..0] == [];
  }

  lemma RowsAt(gs: seq<Group>, k: nat)
    requires SizedGroups(gs) && k < |gs|
    ensures |EntryRows(gs)| == |PostingParts(gs)| == |PositionParts(gs)| == |gs|
    ensures EntryRows(gs)[k] == EntryRow(gs, k) && PostingParts(gs)[k] == TermPostings(k, gs[k].postings)
    ensures PositionParts(gs)[k] == TermPositions(k, gs[k].postings)
  {
    hide EntryRow, TermPostings, TermPositions;
  }

  lemma TermSizes(gs: seq<Group>, k: nat)
    requires SizedGroups(gs) && k < |gs|
    ensures |EntryRow(gs, k)| == Cost(Terms, gs[k].term, GroupCount(gs[k]))
    ensures |TermPostings(k, gs[k].postings)| == Cost(Postings, gs[k].term, GroupCount(gs[k]))
    ensures |TermPositions(k, gs[k].postings)| == Cost(Positions, gs[k].term, GroupCount(gs[k]))
  {
    hide AllPositions;
    TermPostingsSize(k, gs[k].postings);
    TermPositionsSize(k, gs[k].postings);
  }

  lemma BuiltSizes(gs: seq<Group>, t: Totals)
    requires SizedGroups(gs) && DistinctTerms(gs) && |t.tokens| == 3
    ensures |Built(gs, t).terms| == 12 + TotalCost(Terms, GroupMap(gs))
    ensures |Built(gs, t).postings| == 56 + TotalCost(Postings, GroupMap(gs))
    ensures |Built(gs, t).positions| == 12 + TotalCost(Positions, GroupMap(gs))
  {
    hide TotalCost, GroupMap, Concat, EntryRows, PostingParts, PositionParts, CountHeader, TotalHeader, SizedGroups, DistinctTerms;
    BodySizes(gs, |gs|);
    WholeParts(gs);
  }

  lemma WholeParts(gs: seq<Group>)
    requires SizedGroups(gs)
    ensures gs[..|gs|] == gs && EntryRows(gs)[..|gs|] == EntryRows(gs)
    ensures PostingParts(gs)[..|gs|] == PostingParts(gs) && PositionParts(gs)[..|gs|] == PositionParts(gs)
  {
  }

  // ---------------------------------------------------------------- groups count their occurrences

  lemma {:induction false} AllOfTerm(s: seq<Occurrence>, t: Bytes)
    requires forall i :: 0 <= i < |s| ==> s[i].term == t
    ensures CountTerm(s, t) == |s|
  {
    if |s| > 0 { AllOfTerm(s[..|s| - 1], t); }
  }

  ghost function PostingObjects(ps: seq<Posting>): set<Object> {
    set i | 0 <= i < |ps| :: (ps[i].objectType, ps[i].ordinal)
  }

  lemma {:induction false} PostingObjectsSize(ps: seq<Posting>)
    requires forall i, j :: 0 <= i < j < |ps| ==> PostingBefore(ps[i], ps[j])
    ensures |PostingObjects(ps)| == |ps|
  {
    if |ps| > 0 {
      var init, p := ps[..|ps| - 1], ps[|ps| - 1];
      PostingObjectsSize(init);
      assert forall i :: 0 <= i < |init| ==> init[i] == ps[i];
      assert PostingObjects(ps) == PostingObjects(init) + {(p.objectType, p.ordinal)};
      assert (p.objectType, p.ordinal) !in PostingObjects(init);
    }
  }

  /** A posting list mentions only its term, once per position, and each object once. */
  lemma {:induction false} ListFacts(term: Bytes, ps: seq<Posting>)
    requires forall i :: 0 <= i < |ps| ==> Sized(ps[i]) && |ps[i].positions| > 0
    ensures |PostingsList(term, ps)| == |AllPositions(ps)|
    ensures forall i :: 0 <= i < |PostingsList(term, ps)| ==> PostingsList(term, ps)[i].term == term
    ensures Objects(PostingsList(term, ps), term) == PostingObjects(ps)
  {
    if |ps| > 0 {
      var init, p := ps[..|ps| - 1], ps[|ps| - 1];
      ListFacts(term, init);
      ObjectsConcat(PostingsList(term, init), PostingList(term, p, |p.positions|), term);
      OneObject(term, p);
      assert forall i :: 0 <= i < |init| ==> init[i] == ps[i];
      assert PostingObjects(ps) == PostingObjects(init) + {(p.objectType, p.ordinal)};
    } else {
      assert PostingsList(term, ps) == [];
    }
  }

  lemma OneObject(term: Bytes, p: Posting)
    requires Sized(p) && |p.positions| > 0
    ensures Objects(PostingList(term, p, |p.positions|), term) == {(p.objectType, p.ordinal)}
  {
    var list := PostingList(term, p, |p.positions|);
    assert ObjectOf(list[0]) == (p.objectType, p.ordinal) && list[0].term == term;
  }

  lemma OnlyTerm(s: seq<Occurrence>, term: Bytes, t: Bytes)
    requires (forall i :: 0 <= i < |s| ==> s[i].term == term) && t != term
    ensures t !in TermSet(s) && Objects(s, t) == {}
  {
  }

  lemma GroupCounts(g: Group, documents: nat, passages: nat)
    requires SizedPostings(g.postings) && PostingsGood(g.postings, documents, passages)
    ensures CountsOf(PostingsList(g.term, g.postings)) == map[g.term := GroupCount(g)]
    ensures forall i :: 0 <= i < |PostingsList(g.term, g.postings)| ==> PostingsList(g.term, g.postings)[i].term == g.term
  {
    hide CountTerm, AllPositions, PostingsList, Objects;
    var ps := g.postings;
    forall i | 0 <= i < |ps| ensures |ps[i].positions| > 0 { assert PostingGood(ps[i], documents, passages); }
    ListFacts(g.term, ps);
    var list := PostingsList(g.term, ps);
    AllOfTerm(list, g.term);
    PostingObjectsSize(ps);
    NonEmptyList(g.term, ps);
    assert list[0].term == g.term;
    assert TermSet(list) == {g.term};
  }

  lemma NonEmptyList(term: Bytes, ps: seq<Posting>)
    requires |ps| > 0 && forall i :: 0 <= i < |ps| ==> Sized(ps[i]) && |ps[i].positions| > 0
    ensures |PostingsList(term, ps)| > 0
  {
  }

  lemma {:induction false} FlattenTerms(gs: seq<Group>, documents: nat, passages: nat)
    requires SizedGroups(gs) && GroupsGood(gs, documents, passages)
    ensures forall t :: t in TermSet(Flatten(gs)) ==> exists k :: 0 <= k < |gs| && gs[k].term == t
  {
    hide PostingsGood, PostingsList, Less;
    if |gs| > 0 {
      var init, g := gs[..|gs| - 1], gs[|gs| - 1];
      FlattenTerms(init, documents, passages);
      GroupCounts(g, documents, passages);
      TermSetConcat(Flatten(init), PostingsList(g.term, g.postings));
      assert forall k :: 0 <= k < |init| ==> init[k] == gs[k];
    }
  }

  /** The groups of an ordered list count exactly its occurrences and objects per term. */
  lemma {:induction false} GroupMapIsCounts(gs: seq<Group>, documents: nat, passages: nat)
    requires SizedGroups(gs) && GroupsGood(gs, documents, passages)
    ensures GroupMap(gs) == CountsOf(Flatten(gs))
  {
    if |gs| > 0 {
      var init, g := gs[..|gs| - 1], gs[|gs| - 1];
      GroupMapIsCounts(init, documents, passages);
      GroupsLast(gs, documents, passages);
      hide CountsOf, PostingsList, GroupCount, TermSet;
      LastGroupCounts(Flatten(init), PostingsList(g.term, g.postings), g);
    } else {
      assert Flatten(gs) == [] && TermSet([]) == {};
    }
  }

  lemma GroupsLast(gs: seq<Group>, documents: nat, passages: nat)
    requires SizedGroups(gs) && GroupsGood(gs, documents, passages) && |gs| > 0
    ensures var init, g := gs[..|gs| - 1], gs[|gs| - 1];
      && SizedGroups(init) && SizedPostings(g.postings)
      && CountsOf(PostingsList(g.term, g.postings)) == map[g.term := GroupCount(g)]
      && (forall i :: 0 <= i < |PostingsList(g.term, g.postings)| ==> PostingsList(g.term, g.postings)[i].term == g.term)
      && g.term !in TermSet(Flatten(init))
  {
    hide PostingsGood, Flatten, PostingsList, CountsOf, TermSet, Less;
    var init, g := gs[..|gs| - 1], gs[|gs| - 1];
    GroupCounts(g, documents, passages);
    FlattenTerms(init, documents, passages);
    LessIrreflexive(g.term);
  }

  lemma LastGroupCounts(a: seq<Occurrence>, b: seq<Occurrence>, g: Group)
    requires CountsOf(b) == map[g.term := GroupCount(g)] && g.term !in TermSet(a)
    requires forall i :: 0 <= i < |b| ==> b[i].term == g.term
    ensures CountsOf(a + b) == CountsOf(a)[g.term := GroupCount(g)]
  {
    forall t ensures Objects(a, t) !! Objects(b, t) {
      if t != g.term { OnlyTerm(b, g.term, t); } else { AbsentTerm(a, t); }
    }
    hide CountTerm, Objects, TermSet, GroupCount;
    CountsConcat(a, b);
    MergeOne(CountsOf(a), g.term, GroupCount(g));
  }

  lemma MergeOne(m: Counts, t: Bytes, c: Count)
    requires t !in m
    ensures Merge(m, map[t := c]) == m[t := c]
  {
  }

  /**
   The exact size of each payload of any well-formed occurrence list, from the counts per term alone:
   12 + sum(44 + |t|), 56 + sum(20 + 48p + 16 ceil(p/128)) and 12 + sum(16 + 8o).
   */
  lemma PayloadSizesExact(s: seq<Occurrence>, t: Totals)
    requires ListOk(s, t.documents, t.passages) && |t.tokens| == 3
    ensures var built := Built(Grouped(s), t);
      && |built.terms| == 12 + TotalCost(Terms, CountsOf(s))
      && |built.postings| == 56 + TotalCost(Postings, CountsOf(s))
      && |built.positions| == 12 + TotalCost(Positions, CountsOf(s))
  {
    hide TotalCost, CountsOf, Built, Sort, Groups, GroupMap, Flatten, GroupsGood, Before, SizedGroups;
    SortOrdered(s);
    SortFields(s);
    SortMultiset(s);
    CountsSort(s);
    var gs := Grouped(s);
    SortedKeeps(s, Sort(s), t.documents, t.passages);
    GroupsOfOrdered(Sort(s), t.documents, t.passages);
    FlattenGroups(Sort(s));
    GroupMapIsCounts(gs, t.documents, t.passages);
    IncreasingTerms(gs, t.documents, t.passages);
    BuiltSizes(gs, t);
  }

  lemma IncreasingTerms(gs: seq<Group>, documents: nat, passages: nat)
    requires GroupsGood(gs, documents, passages)
    ensures DistinctTerms(gs)
  {
    hide PostingsGood, Less;
    forall i, j | 0 <= i < j < |gs| ensures gs[i].term != gs[j].term { LessIrreflexive(gs[i].term); }
  }

  lemma SortedKeeps(a: seq<Occurrence>, s: seq<Occurrence>, documents: nat, passages: nat)
    requires ListOk(a, documents, passages) && multiset(s) == multiset(a)
    ensures FieldsAgree(s) && forall i :: 0 <= i < |s| ==> OccurrenceOk(s[i], documents, passages)
  {
    hide OccurrenceOk;
    forall i | 0 <= i < |s| ensures exists j :: 0 <= j < |a| && a[j] == s[i] {
      assert s[i] in multiset(a);
    }
  }
}
