/** Grouping is onto: well-formed groups are the groups of the list they flatten to, and of no other. */
module GroupsConverse {
  import opened Common
  import opened ByteOrder
  import opened Bm25
  import opened Occurrences
  import opened LexicalGroups
  import opened LexicalWriter

  // ---------------------------------------------------------------- one posting

  /** A field that does not occur has no length. */
  predicate Tight(p: Posting) {
    |p.tf| == 3 && |p.length| == 3 && forall f :: 0 <= f < 3 && p.tf[f] == 0 ==> p.length[f] == 0
  }

  function LengthOf(p: Posting, n: nat, f: nat): nat
    requires |p.length| == 3 && f < 3 && n <= |p.positions|
  {
    if CountField(p.positions[..n], f + 1) == 0 then 0 else p.length[f]
  }

  /** The first n positions of a posting, counted. */
  function Prefix(p: Posting, n: nat): (q: Posting)
    requires Sized(p) && n <= |p.positions|
    ensures Sized(q)
  {
    var ps := p.positions[..n];
    Posting(p.objectType, p.ordinal, [CountField(ps, 1), CountField(ps, 2), CountField(ps, 3)],
            [LengthOf(p, n, 0), LengthOf(p, n, 1), LengthOf(p, n, 2)], ps)
  }

  function OccurrenceAt(term: Bytes, p: Posting, i: nat): Occurrence
    requires Sized(p) && i < |p.positions|
  {
    Occurrence(term, p.objectType, p.ordinal, p.positions[i].field, p.positions[i].position, p.length[p.positions[i].field - 1])
  }

  lemma PrefixStep(term: Bytes, p: Posting, n: nat)
    requires Sized(p) && n < |p.positions|
    ensures AddPosition(Prefix(p, n), OccurrenceAt(term, p, n)) == Prefix(p, n + 1)
  {
    var ps := p.positions[..n + 1];
    assert ps[..n] == p.positions[..n] && ps == p.positions[..n] + [p.positions[n]];
    assert forall f :: CountField(ps, f) == CountField(p.positions[..n], f) + if p.positions[n].field == f then 1 else 0;
  }

  lemma ListPrefix(term: Bytes, p: Posting, n: nat)
    requires Sized(p) && n < |p.positions|
    ensures PostingList(term, p, n + 1) == PostingList(term, p, n) + [OccurrenceAt(term, p, n)]
    ensures FieldsInRange(PostingList(term, p, n + 1))
  {
  }

  lemma {:induction false} PostingOfList(term: Bytes, p: Posting, n: nat)
    requires Sized(p) && 0 < n <= |p.positions|
    ensures FieldsInRange(PostingList(term, p, n)) && PostingOf(PostingList(term, p, n)) == Prefix(p, n)
  {
    hide PostingList, AddPosition, FieldsInRange, Prefix;
    ListPrefix(term, p, n - 1);
    PrefixStep(term, p, n - 1);
    var run := PostingList(term, p, n);
    assert |run| == n by { ListSize(term, p, n); }
    if n == 1 {
      assert PostingList(term, p, 0) == [] by { ListSize(term, p, 0); }
      assert Prefix(p, 0) == Posting(p.objectType, p.ordinal, [0, 0, 0], [0, 0, 0], []) by { PrefixZero(p); }
    } else {
      PostingOfList(term, p, n - 1);
      ListSize(term, p, n - 1);
      assert run[..n - 1] == PostingList(term, p, n - 1) && run[n - 1] == OccurrenceAt(term, p, n - 1);
    }
  }

  lemma ListSize(term: Bytes, p: Posting, n: nat)
    requires Sized(p) && n <= |p.positions|
    ensures |PostingList(term, p, n)| == n && forall i :: 0 <= i < n ==> PostingList(term, p, n)[i] == OccurrenceAt(term, p, i)
  {
  }

  lemma PrefixZero(p: Posting)
    requires Sized(p)
    ensures Prefix(p, 0) == Posting(p.objectType, p.ordinal, [0, 0, 0], [0, 0, 0], [])
  {
  }

  /** A posting whose frequencies count its positions is the posting of its own list. */
  lemma PostingBack(term: Bytes, p: Posting, documents: nat, passages: nat)
    requires PostingGood(p, documents, passages) && Tight(p)
    ensures FieldsInRange(PostingList(term, p, |p.positions|)) && PostingOf(PostingList(term, p, |p.positions|)) == p
  {
    hide CountField, PositionsGood, Tight, Prefix, PostingList, PostingOf, FieldsInRange;
    PositionsSome(p, documents, passages);
    PostingOfList(term, p, |p.positions|);
    PrefixWhole(p);
  }

  lemma PositionsSome(p: Posting, documents: nat, passages: nat)
    requires PostingGood(p, documents, passages)
    ensures |p.positions| > 0
  {
    hide CountField;
  }

  lemma PrefixWhole(p: Posting)
    requires Sized(p) && Tight(p) && p.tf == [CountField(p.positions, 1), CountField(p.positions, 2), CountField(p.positions, 3)]
    ensures Prefix(p, |p.positions|) == p
  {
    hide CountField;
    assert p.positions[..|p.positions|] == p.positions;
    assert Prefix(p, |p.positions|).tf == p.tf;
    assert Prefix(p, |p.positions|).length == p.length;
  }

  // ---------------------------------------------------------------- one term

  predicate TightGroups(gs: seq<Group>) {
    forall k, i :: 0 <= k < |gs| && 0 <= i < |gs[k].postings| ==> Tight(gs[k].postings[i])
  }

  /** Adding a run of one object to a list that does not continue into it. */
  lemma GroupsPlusRun(s: seq<Occurrence>, run: seq<Occurrence>)
    requires |run| > 0 && FieldsInRange(s) && FieldsInRange(run) && forall i :: 0 <= i < |run| ==> SameRun(run[0], run[i])
    requires !Continues(Groups(s), run[0])
    ensures FieldsInRange(s + run) && Groups(s + run) == AppendPosting(Groups(s), run[0].term, PostingOf(run))
  {
    hide Groups, AppendPosting, PostingOf, Continues;
    var all := s + run;
    assert all[..|s|] == s && all[..|all|] == all && all[|s|..|all|] == run && all[|s|] == run[0];
    assert forall i :: |s| <= i < |all| ==> all[i] == run[i - |s|];
    GroupsRun(all, |s|, |all|);
  }

  /** One more posting of the term. */
  lemma TermStep(s: seq<Occurrence>, base: seq<Group>, term: Bytes, done: seq<Posting>, p: Posting, documents: nat, passages: nat)
    requires FieldsInRange(s) && PostingGood(p, documents, passages) && Tight(p) && Sized(p) && (|base| > 0 ==> base[|base| - 1].term != term)
    requires Groups(s) == if done == [] then base else base + [Group(term, done)]
    requires done != [] ==> PostingBefore(done[|done| - 1], p)
    ensures var run := PostingList(term, p, |p.positions|); FieldsInRange(s + run) && Groups(s + run) == base + [Group(term, done + [p])]
  {
    hide PostingList, PostingGood, Groups, PostingOf, AppendPosting, Tight, Sized;
    PostingBack(term, p, documents, passages);
    ListSize(term, p, |p.positions|);
    GoodHasPositions(p, documents, passages);
    GroupsPlusRun(s, PostingList(term, p, |p.positions|));
    AppendedLast(base, term, done, p);
  }

  lemma {:induction false} TermBack(s: seq<Occurrence>, term: Bytes, ps: seq<Posting>, n: nat, documents: nat, passages: nat)
    requires FieldsInRange(s) && PostingsGood(ps, documents, passages) && n <= |ps| && forall i :: 0 <= i < |ps| ==> Tight(ps[i])
    requires var gs := Groups(s); |gs| > 0 ==> gs[|gs| - 1].term != term
    ensures forall i :: 0 <= i < n ==> Sized(ps[..n][i])
    ensures FieldsInRange(s + PostingsList(term, ps[..n]))
    ensures Groups(s + PostingsList(term, ps[..n])) == if n == 0 then Groups(s) else Groups(s) + [Group(term, ps[..n])]
  {
    hide PostingList, PostingGood, Groups, Tight, Sized;
    GoodIsSized(ps, documents, passages);
    if n == 0 {
      assert s + PostingsList(term, ps[..0]) == s;
    } else {
      TermBack(s, term, ps, n - 1, documents, passages);
      var p, before := ps[n - 1], s + PostingsList(term, ps[..n - 1]);
      assert ps[..n][..n - 1] == ps[..n - 1];
      assert s + PostingsList(term, ps[..n]) == before + PostingList(term, p, |p.positions|);
      assert n > 1 ==> PostingBefore(ps[n - 2], p);
      TermStep(before, Groups(s), term, ps[..n - 1], p, documents, passages);
      assert ps[..n - 1] + [p] == ps[..n];
    }
  }

  lemma GoodHasPositions(p: Posting, documents: nat, passages: nat)
    requires PostingGood(p, documents, passages)
    ensures |p.positions| > 0 && Sized(p)
  {
  }

  lemma GoodIsSized(ps: seq<Posting>, documents: nat, passages: nat)
    requires PostingsGood(ps, documents, passages)
    ensures SizedPostings(ps)
  {
  }

  /** Grouping what well-formed groups flatten to gives them back. */
  lemma {:induction false} GroupsOfFlatten(gs: seq<Group>, documents: nat, passages: nat)
    requires GroupsGood(gs, documents, passages) && TightGroups(gs)
    ensures SizedGroups(gs) && FieldsInRange(Flatten(gs)) && Groups(Flatten(gs)) == gs
  {
    hide PostingsGood, Tight, Less, GroupsGood, SizedGroups;
    GoodGroupsSized(gs, documents, passages);
    if |gs| > 0 {
      var init := gs[..|gs| - 1];
      GoodInit(gs, documents, passages);
      GroupsOfFlatten(init, documents, passages);
      hide Flatten, Groups, TightGroups;
      FlattenBack(gs, Flatten(init), documents, passages);
      FlattenLast(gs);
    }
  }

  lemma GoodInit(gs: seq<Group>, documents: nat, passages: nat)
    requires GroupsGood(gs, documents, passages) && TightGroups(gs) && |gs| > 0
    ensures GroupsGood(gs[..|gs| - 1], documents, passages) && TightGroups(gs[..|gs| - 1])
  {
    hide PostingsGood, Tight, Less;
  }

  lemma FlattenBack(gs: seq<Group>, s: seq<Occurrence>, documents: nat, passages: nat)
    requires GroupsGood(gs, documents, passages) && TightGroups(gs) && |gs| > 0 && SizedGroups(gs)
    requires FieldsInRange(s) && Groups(s) == gs[..|gs| - 1]
    ensures var g := gs[|gs| - 1]; FieldsInRange(s + PostingsList(g.term, g.postings)) && Groups(s + PostingsList(g.term, g.postings)) == gs
  {
    hide PostingsGood, Tight, Less, Groups, FieldsInRange, PostingsList;
    var init, g := gs[..|gs| - 1], gs[|gs| - 1];
    if |init| > 0 {
      assert Less(init[|init| - 1].term, g.term);
      LessIrreflexive(g.term);
    }
    assert PostingsGood(g.postings, documents, passages);
    TermBack(s, g.term, g.postings, |g.postings|, documents, passages);
    assert g.postings[..|g.postings|] == g.postings;
  }

  lemma FlattenLast(gs: seq<Group>)
    requires SizedGroups(gs) && |gs| > 0
    ensures Flatten(gs) == Flatten(gs[..|gs| - 1]) + PostingsList(gs[|gs| - 1].term, gs[|gs| - 1].postings)
  {
  }

  lemma GoodGroupsSized(gs: seq<Group>, documents: nat, passages: nat)
    requires GroupsGood(gs, documents, passages)
    ensures SizedGroups(gs)
  {
    forall k | 0 <= k < |gs| ensures SizedPostings(gs[k].postings) { GoodIsSized(gs[k].postings, documents, passages); }
  }

  // ---------------------------------------------------------------- what a flattened list holds

  /** Where an entry of a term's list comes from. */
  lemma {:induction false} PlaceInTerm(term: Bytes, ps: seq<Posting>, x: nat) returns (j: nat, m: nat)
    requires (forall i :: 0 <= i < |ps| ==> Sized(ps[i])) && x < |PostingsList(term, ps)|
    ensures j < |ps| && m < |ps[j].positions| && PostingsList(term, ps)[x] == OccurrenceAt(term, ps[j], m)
  {
    hide Sized;
    var init, p := ps[..|ps| - 1], ps[|ps| - 1];
    ListSize(term, p, |p.positions|);
    if x < |PostingsList(term, init)| {
      j, m := PlaceInTerm(term, init, x);
    } else {
      j, m := |ps| - 1, x - |PostingsList(term, init)|;
    }
  }

  lemma {:induction false} PlaceInGroups(gs: seq<Group>, x: nat) returns (k: nat, j: nat, m: nat)
    requires SizedGroups(gs) && x < |Flatten(gs)|
    ensures k < |gs| && j < |gs[k].postings| && m < |gs[k].postings[j].positions|
    ensures Flatten(gs)[x] == OccurrenceAt(gs[k].term, gs[k].postings[j], m)
  {
    hide PostingsList;
    var init, g := gs[..|gs| - 1], gs[|gs| - 1];
    FlattenLast(gs);
    if x < |Flatten(init)| {
      k, j, m := PlaceInGroups(init, x);
    } else {
      k := |gs| - 1;
      j, m := PlaceInTerm(g.term, g.postings, x - |Flatten(init)|);
    }
  }

  lemma {:induction false} TermHas(term: Bytes, ps: seq<Posting>, j: nat, m: nat)
    requires (forall i :: 0 <= i < |ps| ==> Sized(ps[i])) && j < |ps| && m < |ps[j].positions|
    ensures OccurrenceAt(term, ps[j], m) in PostingsList(term, ps)
  {
    hide Sized;
    var init, p := ps[..|ps| - 1], ps[|ps| - 1];
    if j < |ps| - 1 {
      TermHas(term, init, j, m);
    } else {
      ListSize(term, p, |p.positions|);
      assert PostingList(term, p, |p.positions|)[m] in PostingList(term, p, |p.positions|);
    }
  }

  /** Every position of every posting is in the list. */
  lemma {:induction false} GroupsHave(gs: seq<Group>, k: nat, j: nat, m: nat)
    requires SizedGroups(gs) && k < |gs| && j < |gs[k].postings| && m < |gs[k].postings[j].positions|
    ensures OccurrenceAt(gs[k].term, gs[k].postings[j], m) in Flatten(gs)
  {
    hide PostingsList;
    FlattenLast(gs);
    if k < |gs| - 1 {
      GroupsHave(gs[..|gs| - 1], k, j, m);
    } else {
      TermHas(gs[k].term, gs[k].postings, j, m);
    }
  }

  // ---------------------------------------------------------------- order

  lemma OrderedConcat(a: seq<Occurrence>, b: seq<Occurrence>)
    requires Ordered(a) && Ordered(b) && forall i, j :: 0 <= i < |a| && 0 <= j < |b| ==> Before(a[i], b[j])
    ensures Ordered(a + b)
  {
    hide Before;
  }

  lemma PostingOrdered(term: Bytes, p: Posting, documents: nat, passages: nat)
    requires PostingGood(p, documents, passages)
    ensures Ordered(PostingList(term, p, |p.positions|))
  {
    hide Less;
    ListSize(term, p, |p.positions|);
  }

  lemma {:induction false} TermOrdered(term: Bytes, ps: seq<Posting>, n: nat, documents: nat, passages: nat)
    requires PostingsGood(ps, documents, passages) && n <= |ps|
    ensures forall i :: 0 <= i < n ==> Sized(ps[..n][i])
    ensures Ordered(PostingsList(term, ps[..n]))
  {
    GoodIsSized(ps, documents, passages);
    hide Less, Sized, PostingGood, PostingList, Before;
    if n > 0 {
      TermOrdered(term, ps, n - 1, documents, passages);
      var p := ps[n - 1];
      PostingOrdered(term, p, documents, passages);
      var a, b := PostingsList(term, ps[..n - 1]), PostingList(term, p, |p.positions|);
      ListSize(term, p, |p.positions|);
      forall x, y | 0 <= x < |a| && 0 <= y < |b| ensures Before(a[x], b[y]) {
        var j, m := PlaceInTerm(term, ps[..n - 1], x);
        LaterPosting(term, ps[j], m, p, y);
      }
      OrderedConcat(a, b);
      assert ps[..n][..n - 1] == ps[..n - 1];
    }
  }

  lemma LaterPosting(term: Bytes, p: Posting, i: nat, q: Posting, j: nat)
    requires Sized(p) && Sized(q) && i < |p.positions| && j < |q.positions| && PostingBefore(p, q)
    ensures Before(OccurrenceAt(term, p, i), OccurrenceAt(term, q, j))
  {
    hide Less;
  }

  lemma {:induction false} FlattenOrdered(gs: seq<Group>, documents: nat, passages: nat)
    requires GroupsGood(gs, documents, passages)
    ensures SizedGroups(gs) && Ordered(Flatten(gs))
  {
    hide Less, PostingsGood, PostingsList, Before;
    GoodGroupsSized(gs, documents, passages);
    if |gs| > 0 {
      var init, g := gs[..|gs| - 1], gs[|gs| - 1];
      FlattenOrdered(init, documents, passages);
      FlattenLast(gs);
      hide Flatten;
      var a, b := Flatten(init), PostingsList(g.term, g.postings);
      TermOrdered(g.term, g.postings, |g.postings|, documents, passages);
      assert g.postings[..|g.postings|] == g.postings;
      forall x, y | 0 <= x < |a| && 0 <= y < |b| ensures Before(a[x], b[y]) {
        var k, j, m := PlaceInGroups(init, x);
        var i, l := PlaceInTerm(g.term, g.postings, y);
        EarlierTerm(a[x], b[y]);
      }
      OrderedConcat(a, b);
    }
  }

  lemma EarlierTerm(a: Occurrence, b: Occurrence)
    requires Less(a.term, b.term)
    ensures Before(a, b)
  {
  }

  // ---------------------------------------------------------------- uniqueness

  lemma {:induction false} EachOnce(s: seq<Occurrence>, o: Occurrence)
    requires DistinctKeys(s)
    ensures multiset(s)[o] == if o in s then 1 else 0
  {
    if |s| > 0 {
      var init, last := s[..|s| - 1], s[|s| - 1];
      EachOnce(init, o);
      assert s == init + [last];
      forall i | 0 <= i < |init| ensures init[i] != last { assert !SameKey(s[i], s[|s| - 1]); }
    }
  }

  lemma OrderedDistinct(s: seq<Occurrence>)
    requires Ordered(s)
    ensures DistinctKeys(s)
  {
    forall i, j | 0 <= i < j < |s| ensures !SameKey(s[i], s[j]) { BeforeIrreflexive(s[i], s[j]); }
  }

  lemma SameMultiset(s: seq<Occurrence>, t: seq<Occurrence>)
    requires DistinctKeys(s) && DistinctKeys(t) && forall o :: o in s <==> o in t
    ensures multiset(s) == multiset(t)
  {
    forall o ensures multiset(s)[o] == multiset(t)[o] {
      EachOnce(s, o);
      EachOnce(t, o);
    }
  }

  /** Well-formed groups that hold exactly the occurrences of a list are what sorting and grouping the list gives. */
  lemma GroupsAreUnique(s: seq<Occurrence>, gs: seq<Group>, documents: nat, passages: nat)
    requires FieldsInRange(s) && DistinctKeys(s) && GroupsGood(gs, documents, passages) && TightGroups(gs)
    requires SizedGroups(gs) && forall o :: o in s <==> o in Flatten(gs)
    ensures Grouped(s) == gs
  {
    hide GroupsGood, TightGroups, SizedGroups, Flatten, Groups, Sort, DistinctKeys, Ordered;
    FlattenOrdered(gs, documents, passages);
    OrderedDistinct(Flatten(gs));
    SameMultiset(s, Flatten(gs));
    SortFields(s);
    SortOrdered(s);
    SortMultiset(s);
    SortUnique(Sort(s), Flatten(gs));
    GroupsOfFlatten(gs, documents, passages);
  }
}
