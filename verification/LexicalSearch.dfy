/** Search of one segment: argument checks, the choice of algorithm, and what comes back. */
module LexicalSearch {
  import opened Common
  import opened Bm25
  import opened TopHits
  import opened MatchLists
  import opened SearchPlan
  import I = Intersection
  import P = Pruning
  import E = PruningExact
  import S = PruningSound

  /** The list the loop walks for one term. */
  function ItemsOf(s: Scoring, f: TypeFrequency, found: Found, filter: nat): (list: seq<Item>)
    requires |s.stats.fieldTokens| == 3 && |s.boost| == 3 && FoundOk(found)
  {
    seq(|found.postings|, i requires 0 <= i < |found.postings| =>
      Item(Key(found.postings[i]), PostingScore(s, f, found.postings[i]),
           BlockBound(s, f, BlockOf(found, i), filter), found.postings[i].positions))
  }

  function Lists(s: Scoring, terms: seq<Term>, filter: nat): seq<seq<Item>>
    requires |s.stats.fieldTokens| == 3 && |s.boost| == 3 && forall t :: 0 <= t < |terms| ==> TermOk(terms[t])
  {
    if |terms| == 0 then []
    else
      var init := Lists(s, terms[..|terms| - 1], filter);
      var last := terms[|terms| - 1];
      assert TermOk(last);
      if last.found.None? then init else init + [ItemsOf(s, last.frequency, last.found.value, filter)]
  }

  function QueryOf(s: Scoring, p: Plan, o: Options): Query
    requires |s.stats.fieldTokens| == 3 && |s.boost| == 3 && PlanOk(p)
  {
    Query(Lists(s, p.terms, o.filter), o.filter, o.topK, o.accept, o.phrase,
          if o.conjunctive || o.phrase then p.tokens else [0])
  }

  predicate AllFound(p: Plan) {
    forall t :: 0 <= t < |p.terms| ==> p.terms[t].found.Some?
  }

  /** When every term is found, the lists are those of the terms, in order. */
  lemma {:induction false} ListedInOrder(s: Scoring, terms: seq<Term>, filter: nat)
    requires |s.stats.fieldTokens| == 3 && |s.boost| == 3 && forall t :: 0 <= t < |terms| ==> TermOk(terms[t]) && terms[t].found.Some?
    ensures |Lists(s, terms, filter)| == |terms|
    ensures forall t :: 0 <= t < |terms| ==> TermOk(terms[t]) && Lists(s, terms, filter)[t] == ItemsOf(s, terms[t].frequency, terms[t].found.value, filter)
  {
    hide FoundOk, ItemsOf;
    if |terms| > 0 { ListedInOrder(s, terms[..|terms| - 1], filter); }
  }

  /** Every list is the list of some term that the segment has. */
  ghost predicate FromTerm(s: Scoring, terms: seq<Term>, filter: nat, list: seq<Item>, t: nat)
    requires |s.stats.fieldTokens| == 3 && |s.boost| == 3
  {
    t < |terms| && TermOk(terms[t]) && terms[t].found.Some? && list == ItemsOf(s, terms[t].frequency, terms[t].found.value, filter)
  }

  lemma {:induction false} ListsFromTerms(s: Scoring, terms: seq<Term>, filter: nat, j: nat) returns (t: nat)
    requires |s.stats.fieldTokens| == 3 && |s.boost| == 3 && forall t :: 0 <= t < |terms| ==> TermOk(terms[t])
    requires j < |Lists(s, terms, filter)|
    ensures FromTerm(s, terms, filter, Lists(s, terms, filter)[j], t)
  {
    var init := Lists(s, terms[..|terms| - 1], filter);
    if j < |init| {
      t := ListsFromTerms(s, terms[..|terms| - 1], filter, j);
    } else {
      t := |terms| - 1;
    }
  }

  lemma ItemsOk(s: Scoring, f: TypeFrequency, found: Found, filter: nat, i: nat)
    requires ScoringOk(s) && FoundOk(found) && i < |found.postings|
    ensures var item := ItemsOf(s, f, found, filter)[i];
      && 0.0 <= item.score && 0.0 <= item.bound && item.key == Key(found.postings[i])
      && TypeOf(item.key) == found.postings[i].objectType && OrdinalOf(item.key) == found.postings[i].ordinal
      && (Wanted(TypeOf(item.key), filter) ==> item.score <= item.bound)
  {
    var p, b := found.postings[i], BlockOf(found, i);
    BlockBoundsScore(s, f, b, p, 0);
    if Wanted(p.objectType, filter) { BlockBoundsScore(s, f, b, p, filter); }
  }

  lemma QueryIsOk(s: Scoring, p: Plan, o: Options)
    requires ScoringOk(s) && PlanOk(p) && o.topK > 0 && |p.tokens| > 0
    requires o.conjunctive || o.phrase ==> AllFound(p)
    requires |Lists(s, p.terms, o.filter)| > 0
    ensures QueryOk(QueryOf(s, p, o)) && P.BoundsOk(QueryOf(s, p, o))
  {
    hide ItemsOf, FoundOk;
    var q := QueryOf(s, p, o);
    if o.conjunctive || o.phrase { ListedInOrder(s, p.terms, o.filter); }
    forall j, i | 0 <= j < |q.lists| && 0 <= i < |q.lists[j]|
      ensures q.lists[j][i].score >= 0.0 && q.lists[j][i].bound >= 0.0
      ensures WantedKey(q, q.lists[j][i].key) ==> q.lists[j][i].score <= q.lists[j][i].bound
    {
      ListItemOk(s, p, o, j, i);
    }
    forall j | 0 <= j < |q.lists| ensures Increasing(q.lists[j]) { ListIncreasing(s, p, o, j); }
  }

  lemma ListItemOk(s: Scoring, p: Plan, o: Options, j: nat, i: nat)
    requires ScoringOk(s) && PlanOk(p) && j < |Lists(s, p.terms, o.filter)| && i < |Lists(s, p.terms, o.filter)[j]|
    ensures var item := Lists(s, p.terms, o.filter)[j][i];
      && 0.0 <= item.score && 0.0 <= item.bound
      && (Wanted(TypeOf(item.key), o.filter) ==> item.score <= item.bound)
  {
    var t := ListsFromTerms(s, p.terms, o.filter, j);
    ItemsOk(s, p.terms[t].frequency, p.terms[t].found.value, o.filter, i);
  }

  lemma ListIncreasing(s: Scoring, p: Plan, o: Options, j: nat)
    requires ScoringOk(s) && PlanOk(p) && j < |Lists(s, p.terms, o.filter)|
    ensures Increasing(Lists(s, p.terms, o.filter)[j])
  {
    var t := ListsFromTerms(s, p.terms, o.filter, j);
    hide PostingScore, BlockBound;
  }

  // ---------------------------------------------------------------- the lists say what the terms say

  function ObjectOf(key: nat): Object {
    Object(TypeOf(key), OrdinalOf(key))
  }

  lemma KeyOfPosting(p: Posting, key: nat)
    requires PostingOk(p)
    ensures Key(p) == key <==> Describes(p, ObjectOf(key))
  {
  }

  lemma ItemsIncrease(s: Scoring, f: TypeFrequency, found: Found, filter: nat)
    requires |s.stats.fieldTokens| == 3 && |s.boost| == 3 && FoundOk(found)
    ensures Increasing(ItemsOf(s, f, found, filter))
  {
    hide PostingScore, BlockBound;
  }

  /** The list of a term has an object exactly when the term does, with the same score and positions. */
  lemma ListIs(s: Scoring, t: Term, filter: nat, key: nat)
    requires |s.stats.fieldTokens| == 3 && |s.boost| == 3 && TermOk(t) && t.found.Some?
    ensures var list := ItemsOf(s, t.frequency, t.found.value, filter);
      && (Has(list, key) <==> Occurs(t, ObjectOf(key))) && ScoreIn(list, key) == TermScore(s, t, ObjectOf(key))
      && (Has(list, key) ==> ItemOf(list, key).positions == PostingIn(t, ObjectOf(key)).positions)
  {
    hide PostingScore, BlockBound;
    var list, ps, x := ItemsOf(s, t.frequency, t.found.value, filter), t.found.value.postings, ObjectOf(key);
    ItemsIncrease(s, t.frequency, t.found.value, filter);
    forall i | 0 <= i < |ps| ensures list[i].key == key <==> Describes(ps[i], x) { KeyOfPosting(ps[i], key); }
    if Has(list, key) {
      var i :| 0 <= i < |list| && list[i].key == key;
      ItemOfAt(list, i);
      PostingIsUnique(t, x, i);
    }
  }

  lemma {:induction false} TotalIs(s: Scoring, terms: seq<Term>, q: Query, key: nat)
    requires |s.stats.fieldTokens| == 3 && |s.boost| == 3 && TermsOk(terms) && q.lists == Lists(s, terms, q.filter)
    ensures Total(q, key) == ObjectScore(s, terms, ObjectOf(key))
  {
    hide TermOk, ItemsOf, TermScore, ScoreIn, Has;
    if |terms| > 0 {
      var init, last := terms[..|terms| - 1], terms[|terms| - 1];
      var front := q.(lists := Lists(s, init, q.filter));
      TotalIs(s, init, front, key);
      assert TermOk(last);
      if last.found.Some? {
        ListIs(s, last, q.filter, key);
        assert Scores(q, key) == Scores(front, key) + [TermScore(s, last, ObjectOf(key))];
      } else {
        assert Scores(q, key) == Scores(front, key);
        NotFoundNoScore(s, last, ObjectOf(key));
      }
    }
  }

  lemma NotFoundNoScore(s: Scoring, t: Term, x: Object)
    requires |s.stats.fieldTokens| == 3 && |s.boost| == 3 && TermOk(t) && t.found.None?
    ensures TermScore(s, t, x) == 0.0 && !Occurs(t, x)
  {
  }

  lemma {:induction false} HoldersAre(s: Scoring, terms: seq<Term>, q: Query, key: nat)
    requires |s.stats.fieldTokens| == 3 && |s.boost| == 3 && TermsOk(terms) && q.lists == Lists(s, terms, q.filter)
    ensures |Holders(q, key)| == MatchedTerms(terms, ObjectOf(key))
  {
    hide TermOk, ItemsOf, Has, Occurs;
    if |terms| > 0 {
      var init, last := terms[..|terms| - 1], terms[|terms| - 1];
      var front := q.(lists := Lists(s, init, q.filter));
      HoldersAre(s, init, front, key);
      assert TermOk(last);
      if last.found.Some? {
        ListIs(s, last, q.filter, key);
        var n := |front.lists|;
        assert Holders(q, key) == Holders(front, key) + if Has(q.lists[n], key) then {n} else {};
        assert n !in Holders(front, key);
      } else {
        assert Holders(q, key) == Holders(front, key);
        NotFoundNoScore(s, last, ObjectOf(key));
      }
    }
  }

  lemma HitIs(s: Scoring, p: Plan, o: Options, key: nat)
    requires |s.stats.fieldTokens| == 3 && |s.boost| == 3 && PlanOk(p)
    ensures var q := QueryOf(s, p, o);
      && HitFor(q, key) == HitOf(s, p, ObjectOf(key)) && Total(q, key) == ObjectScore(s, p.terms, ObjectOf(key))
      && |Holders(q, key)| == MatchedTerms(p.terms, ObjectOf(key))
  {
    TotalIs(s, p.terms, QueryOf(s, p, o), key);
    HoldersAre(s, p.terms, QueryOf(s, p, o), key);
  }

  lemma {:induction false} ListCount(s: Scoring, terms: seq<Term>, filter: nat)
    requires |s.stats.fieldTokens| == 3 && |s.boost| == 3 && TermsOk(terms)
    ensures |Lists(s, terms, filter)| == FoundTerms(terms)
  {
    hide TermOk, ItemsOf;
    if |terms| > 0 {
      ListCount(s, terms[..|terms| - 1], filter);
      assert TermOk(terms[|terms| - 1]);
    }
  }

  /** Every object under some term has a key. */
  lemma KeyOfObject(terms: seq<Term>, x: Object) returns (key: nat)
    requires TermsOk(terms) && x in Objects(terms)
    ensures ObjectOf(key) == x
  {
    var t, y :| 0 <= t < |terms| && y in PostingsIn(terms[t]) && y == x;
    assert TermOk(terms[t]);
    var i :| 0 <= i < |terms[t].found.value.postings| && x == Object(terms[t].found.value.postings[i].objectType, terms[t].found.value.postings[i].ordinal);
    key := Key(terms[t].found.value.postings[i]);
  }

  lemma MatchIs(s: Scoring, p: Plan, o: Options, key: nat)
    requires |s.stats.fieldTokens| == 3 && |s.boost| == 3 && PlanOk(p)
    ensures P.Matches(QueryOf(s, p, o), key) <==> Admitted(s, p, o, ObjectOf(key))
  {
    HitIs(s, p, o, key);
    hide Total, ObjectScore, PlanOk, Lists;
  }

  /** A disjunction over the lists ranks what the plan asks for. */
  lemma RankedAny(s: Scoring, p: Plan, o: Options)
    requires |s.stats.fieldTokens| == 3 && |s.boost| == 3 && PlanOk(p) && !o.conjunctive && !o.phrase
    ensures P.AllMatches(QueryOf(s, p, o)) == Ranked(s, p, o)
  {
    hide PlanOk, QueryOf, Admitted, HitOf, HitFor, P.Matches;
    var q := QueryOf(s, p, o);
    forall h | h in P.AllMatches(q) ensures h in Ranked(s, p, o) {
      var k :| k in P.AllKeys(q) && P.Matches(q, k) && h == HitFor(q, k);
      MatchIs(s, p, o, k);
      HitIs(s, p, o, k);
      assert Sought(s, p, o, ObjectOf(k));
      SoughtListed(s, p, o, ObjectOf(k));
    }
    forall h | h in Ranked(s, p, o) ensures h in P.AllMatches(q) {
      var x :| x in Objects(p.terms) && Sought(s, p, o, x) && h == HitOf(s, p, x);
      TermsOfPlan(p);
      var k := KeyOfObject(p.terms, x);
      MatchIs(s, p, o, k);
      HitIs(s, p, o, k);
      P.MatchIsListed(q, k);
    }
  }

  lemma TermsOfPlan(p: Plan)
    requires PlanOk(p)
    ensures TermsOk(p.terms)
  {
  }

  // ---------------------------------------------------------------- conjunctions and phrases

  lemma AllIs(s: Scoring, p: Plan, o: Options, key: nat)
    requires |s.stats.fieldTokens| == 3 && |s.boost| == 3 && PlanOk(p) && AllFound(p)
    ensures I.InAll(QueryOf(s, p, o), key) <==> HasAll(p.terms, ObjectOf(key))
  {
    hide ItemsOf, TermOk, Has, Occurs;
    var q := QueryOf(s, p, o);
    ListedInOrder(s, p.terms, o.filter);
    forall t | 0 <= t < |p.terms| ensures Has(q.lists[t], key) <==> Occurs(p.terms[t], ObjectOf(key)) {
      ListIs(s, p.terms[t], o.filter, key);
    }
  }

  /** The positions the phrase check reads are those of the tokens' postings. */
  lemma PhraseIs(s: Scoring, p: Plan, o: Options, key: nat)
    requires |s.stats.fieldTokens| == 3 && |s.boost| == 3 && PlanOk(p) && AllFound(p) && o.phrase && |p.tokens| > 0
    requires QueryOk(QueryOf(s, p, o)) && I.InAll(QueryOf(s, p, o), key) && HasAll(p.terms, ObjectOf(key))
    ensures I.Consecutive(I.TokenPositions(QueryOf(s, p, o), key)) <==> exists base :: PhraseAt(p, ObjectOf(key), base)
  {
    hide ItemsOf, TermOk, Has, Occurs, QueryOk;
    var q, x := QueryOf(s, p, o), ObjectOf(key);
    var positions := I.TokenPositions(q, key);
    ListedInOrder(s, p.terms, o.filter);
    forall j | 0 <= j < |p.tokens| ensures positions[j] == PostingIn(p.terms[p.tokens[j]], x).positions {
      ListIs(s, p.terms[p.tokens[j]], o.filter, key);
    }
    hide I.TokenPositions;
    forall base ensures (base in positions[0] && I.FollowsFrom(positions, base)) <==> PhraseAt(p, x, base) {
      PhraseFrom(positions, base);
      assert PhraseAt(p, x, base) <==> forall j :: 0 <= j < |positions| ==> Position(base.field, base.position + j) in positions[j];
    }
  }

  lemma PhraseFrom(positions: seq<seq<Position>>, base: Position)
    requires |positions| > 0
    ensures base in positions[0] && I.FollowsFrom(positions, base) <==> forall j :: 0 <= j < |positions| ==> Position(base.field, base.position + j) in positions[j]
  {
    assert Position(base.field, base.position + 0) == base;
  }

  lemma QualifiesIs(s: Scoring, p: Plan, o: Options, key: nat)
    requires |s.stats.fieldTokens| == 3 && |s.boost| == 3 && PlanOk(p) && AllFound(p) && (o.conjunctive || o.phrase) && |p.tokens| > 0
    requires QueryOk(QueryOf(s, p, o))
    ensures I.Qualifies(QueryOf(s, p, o), key) <==> Sought(s, p, o, ObjectOf(key))
  {
    hide Total, ObjectScore, PlanOk, Lists, I.InAll, HasAll, I.Consecutive, I.TokenPositions, PhraseAt, QueryOk;
    HitIs(s, p, o, key);
    AllIs(s, p, o, key);
    if o.phrase && I.InAll(QueryOf(s, p, o), key) {
      PhraseIs(s, p, o, key);
    }
  }

  /** The intersection of the lists ranks what the plan asks for. */
  lemma RankedAll(s: Scoring, p: Plan, o: Options)
    requires |s.stats.fieldTokens| == 3 && |s.boost| == 3 && PlanOk(p) && AllFound(p) && (o.conjunctive || o.phrase) && |p.tokens| > 0
    requires QueryOk(QueryOf(s, p, o))
    ensures I.AllHits(QueryOf(s, p, o)) == Ranked(s, p, o)
  {
    hide PlanOk, QueryOf, Sought, HitOf, HitFor, I.Qualifies, AllFound;
    var q := QueryOf(s, p, o);
    forall h | h in I.AllHits(q) ensures h in Ranked(s, p, o) {
      var k :| k in I.Keys(q.lists[0]) && I.Qualifies(q, k) && h == HitFor(q, k);
      QualifiesIs(s, p, o, k);
      HitIs(s, p, o, k);
      SoughtListed(s, p, o, ObjectOf(k));
    }
    forall h | h in Ranked(s, p, o) ensures h in I.AllHits(q) {
      var x :| x in Objects(p.terms) && Sought(s, p, o, x) && h == HitOf(s, p, x);
      TermsOfPlan(p);
      var k := KeyOfObject(p.terms, x);
      QualifiesIs(s, p, o, k);
      HitIs(s, p, o, k);
      I.AllHitsComplete(q, k);
    }
  }

  /** A term the segment does not have leaves a conjunction without objects. */
  lemma MissingTermNoHits(s: Scoring, p: Plan, o: Options, t: nat)
    requires |s.stats.fieldTokens| == 3 && |s.boost| == 3 && PlanOk(p) && (o.conjunctive || o.phrase)
    requires t < |p.terms| && p.terms[t].found.None?
    ensures Ranked(s, p, o) == {}
  {
    hide PlanOk, Admitted, PhraseAt;
    forall x ensures !Sought(s, p, o, x) { assert !Occurs(p.terms[t], x); }
  }

  /** Without a found term nothing scores. */
  lemma NothingFoundNoHits(s: Scoring, p: Plan, o: Options)
    requires |s.stats.fieldTokens| == 3 && |s.boost| == 3 && PlanOk(p) && FoundTerms(p.terms) == 0
    ensures Ranked(s, p, o) == {}
  {
    hide PlanOk, Sought, HitOf;
    forall t | 0 <= t < |p.terms| ensures p.terms[t].found.None? {
      if p.terms[t].found.Some? { FoundCounted(p.terms, t); }
    }
    assert Objects(p.terms) == {};
  }

  lemma {:induction false} FoundCounted(terms: seq<Term>, t: nat)
    requires t < |terms| && terms[t].found.Some?
    ensures FoundTerms(terms) > 0
  {
    if t < |terms| - 1 { FoundCounted(terms[..|terms| - 1], t); }
  }

  // ---------------------------------------------------------------- when disjunctive search is exact

  lemma ShortLists(s: Scoring, p: Plan, o: Options)
    requires ScoringOk(s) && PlanOk(p) && forall t :: 0 <= t < |p.terms| ==> OneBlock(p.terms[t])
    ensures E.OneBlockEach(QueryOf(s, p, o))
  {
    var q := QueryOf(s, p, o);
    forall j, a, b | 0 <= j < |q.lists| && 0 <= a < |q.lists[j]| && 0 <= b < |q.lists[j]| ensures q.lists[j][a].bound == q.lists[j][b].bound {
      var t := ListsFromTerms(s, p.terms, o.filter, j);
      assert OneBlock(p.terms[t]);
      SameBlock(s, p.terms[t].frequency, p.terms[t].found.value, o.filter, a, b);
    }
  }

  lemma SameBlock(s: Scoring, f: TypeFrequency, found: Found, filter: nat, a: nat, b: nat)
    requires ScoringOk(s) && FoundOk(found) && |found.postings| <= BlockSize && a < |found.postings| && b < |found.postings|
    ensures ItemsOf(s, f, found, filter)[a].bound == ItemsOf(s, f, found, filter)[b].bound
  {
    assert a / BlockSize == 0 && b / BlockSize == 0;
  }

  ghost predicate FrequenciesFit(s: Scoring, p: Plan) {
    forall t :: 0 <= t < |p.terms| ==> p.terms[t].frequency.documents <= s.stats.documentCount && p.terms[t].frequency.passages <= s.stats.passageCount
  }

  lemma PositiveBound(s: Scoring, f: TypeFrequency, found: Found, filter: nat, field: nat, i: nat)
    requires ScoringOk(s) && FoundOk(found) && i < |found.postings| && field < 3 && s.boost[field] > 0.0
    requires 0 < FrequencyOf(f, found.postings[i].objectType) <= ObjectCount(s.stats, found.postings[i].objectType)
    requires Wanted(found.postings[i].objectType, filter)
    ensures ItemsOf(s, f, found, filter)[i].bound > 0.0
  {
    BoundIsPositive(s, f, BlockOf(found, i), found.postings[i], field, filter);
  }

  lemma PositiveBounds(s: Scoring, p: Plan, o: Options, field: nat)
    requires ScoringOk(s) && PlanOk(p) && FrequenciesFit(s, p) && field < 3 && s.boost[field] > 0.0
    ensures E.BoundsPositive(QueryOf(s, p, o))
  {
    var q := QueryOf(s, p, o);
    forall j, i | 0 <= j < |q.lists| && 0 <= i < |q.lists[j]| && WantedKey(q, q.lists[j][i].key) ensures q.lists[j][i].bound > 0.0 {
      PositiveAt(s, p, o, field, j, i);
    }
  }

  lemma PositiveAt(s: Scoring, p: Plan, o: Options, field: nat, j: nat, i: nat)
    requires ScoringOk(s) && PlanOk(p) && FrequenciesFit(s, p) && field < 3 && s.boost[field] > 0.0
    requires j < |Lists(s, p.terms, o.filter)| && i < |Lists(s, p.terms, o.filter)[j]|
    requires Wanted(TypeOf(Lists(s, p.terms, o.filter)[j][i].key), o.filter)
    ensures Lists(s, p.terms, o.filter)[j][i].bound > 0.0
  {
    var t := ListsFromTerms(s, p.terms, o.filter, j);
    hide BlockBound, PostingScore, Covers;
    var term := p.terms[t];
    ItemsOk(s, term.frequency, term.found.value, o.filter, i);
    assert TermOk(term);
    PositiveBound(s, term.frequency, term.found.value, o.filter, field, i);
  }

  predicate SomeBoost(s: Scoring)
    requires |s.boost| == 3
  {
    exists f :: 0 <= f < 3 && s.boost[f] > 0.0
  }

  lemma ExactlyTame(s: Scoring, p: Plan, o: Options)
    requires ScoringOk(s) && PlanOk(p) && FrequenciesFit(s, p) && PrunesExactly(s, p, o) && SomeBoost(s)
    requires !o.conjunctive && !o.phrase
    ensures E.Tame(QueryOf(s, p, o))
  {
    var q := QueryOf(s, p, o);
    ListCount(s, p.terms, o.filter);
    RankedAny(s, p, o);
    if |q.lists| <= 2 && forall t :: 0 <= t < |p.terms| ==> OneBlock(p.terms[t]) {
      ShortLists(s, p, o);
    } else if |q.lists| != 1 {
      var f :| 0 <= f < 3 && s.boost[f] > 0.0;
      PositiveBounds(s, p, o, f);
    }
  }

  // ---------------------------------------------------------------- no boost at all

  lemma NoBoostNoScore(s: Scoring, f: TypeFrequency, p: Posting)
    requires ScoringOk(s) && !SomeBoost(s) && PostingOk(p)
    ensures PostingScore(s, f, p) == 0.0
  {
    assert s.boost[0] == 0.0 && s.boost[1] == 0.0 && s.boost[2] == 0.0;
    hide Norm, Saturate, Idf;
    forall i | 0 <= i < 3 ensures FieldWeight(s, p, i) == 0.0 {
      assert s.boost[i] == 0.0;
    }
  }

  /** Without any boost nothing scores, so there is nothing to find. */
  lemma NoBoostNoMatch(s: Scoring, p: Plan, o: Options, key: nat)
    requires ScoringOk(s) && PlanOk(p) && !SomeBoost(s)
    ensures Total(QueryOf(s, p, o), key) == 0.0
  {
    var q := QueryOf(s, p, o);
    hide ItemsOf, PostingScore, BlockBound;
    forall j, i | 0 <= j < |q.lists| && 0 <= i < |q.lists[j]| ensures q.lists[j][i].score == 0.0 {
      var t := ListsFromTerms(s, p.terms, o.filter, j);
      ItemWithoutBoost(s, p.terms[t].frequency, p.terms[t].found.value, o.filter, i);
    }
    SumZeros(Scores(q, key));
  }

  lemma ItemWithoutBoost(s: Scoring, f: TypeFrequency, found: Found, filter: nat, i: nat)
    requires ScoringOk(s) && !SomeBoost(s) && FoundOk(found) && i < |ItemsOf(s, f, found, filter)|
    ensures ItemsOf(s, f, found, filter)[i].score == 0.0
  {
    NoBoostNoScore(s, f, found.postings[i]);
  }

  lemma NoBoostNoHits(s: Scoring, p: Plan, o: Options, hits: seq<Hit>)
    requires ScoringOk(s) && PlanOk(p) && !SomeBoost(s) && forall h :: h in hits ==> S.RealHit(QueryOf(s, p, o), h)
    requires !o.conjunctive && !o.phrase
    ensures hits == [] && IsTop(hits, Ranked(s, p, o), o.topK)
  {
    var q := QueryOf(s, p, o);
    RankedAny(s, p, o);
    hide QueryOf, Total;
    if |hits| > 0 {
      assert hits[0] in hits;
      var k: nat :| 0.0 < hits[0].score <= Total(q, k);
      NoBoostNoMatch(s, p, o, k);
      assert false;
    }
    forall key ensures Total(q, key) == 0.0 { NoBoostNoMatch(s, p, o, key); }
    assert P.AllMatches(q) == {};
  }

  // ---------------------------------------------------------------- the entry point

  predicate ArgumentsOk(s: Scoring, o: Options, capacity: nat)
    requires |s.boost| == 3
  {
    0 < o.topK <= capacity && o.filter <= 2 && forall f :: 0 <= f < 3 ==> s.boost[f] >= 0.0
  }

  method Search(s: Scoring, p: Plan, o: Options, capacity: nat) returns (r: Result<seq<Hit>>)
    requires |s.stats.fieldTokens| == 3 && |s.boost| == 3 && PlanOk(p)
    requires forall x: real :: x > 0.0 ==> s.log1p(x) > 0.0
    ensures !ArgumentsOk(s, o, capacity) <==> r == Err(InvalidArgument)
    ensures r == Err(Conflict) <==> ArgumentsOk(s, o, capacity) && |p.tokens| > 0 && !FrequenciesFit(s, p)
    ensures r.Err? ==> r.error == InvalidArgument || r.error == Conflict
    ensures r.Ok? ==> Answers(s, p, o, r.value) && |r.value| <= capacity
    ensures r.Ok? ==> forall h :: h in r.value ==> o.accept(h.objectType, h.ordinal) && (o.filter == 0 || h.objectType == o.filter) && h.score > 0.0
    ensures r.Ok? ==> forall i, j :: 0 <= i < j < |r.value| ==> InHitOrder(r.value[i], r.value[j])
  {
    if o.topK == 0 || o.topK > capacity || o.filter > 2 || s.boost[0] < 0.0 || s.boost[1] < 0.0 || s.boost[2] < 0.0 {
      return Err(InvalidArgument);
    }
    if |p.tokens| == 0 {
      NoTermsNoHits(s, p, o);
      return Ok([]);
    }
    for t := 0 to |p.terms|
      invariant forall u :: 0 <= u < t ==>
        p.terms[u].frequency.documents <= s.stats.documentCount && p.terms[u].frequency.passages <= s.stats.passageCount
    {
      if p.terms[t].frequency.documents > s.stats.documentCount || p.terms[t].frequency.passages > s.stats.passageCount {
        assert !FrequenciesFit(s, p);
        return Err(Conflict);
      }
    }
    var hits := SearchTerms(s, p, o);
    AnswersAdmitted(s, p, o, hits);
    return Ok(hits);
  }

  lemma AnyIsAnswered(s: Scoring, p: Plan, o: Options, run: seq<P.State>, hits: seq<Hit>)
    requires ScoringOk(s) && PlanOk(p) && FrequenciesFit(s, p) && o.topK > 0
    requires var q := QueryOf(s, p, o); QueryOk(q) && P.BoundsOk(q) && P.Answers(q, run, hits)
    requires !o.conjunctive && !o.phrase
    ensures Answers(s, p, o, hits)
  {
    hide IsTop, PrunesExactly, TrueHit, SomeBoost, FrequenciesFit, PlanOk, Lists, E.Tame, DistinctObjects, S.RealHit, Ranked, P.AllMatches;
    var q, last := QueryOf(s, p, o), |run| - 1;
    SortedHits(q, run);
    RankedAny(s, p, o);
    forall h | h in hits ensures TrueHit(s, p, o, h) { S.AnswersAreReal(q, run); RealIsTrue(s, p, o, h); }
    S.AnswersAreReal(q, run);
    E.BufferBounded(q, run, last);
    S.SortKeepsSize(q, run);
    if !SomeBoost(s) {
      NoBoostNoHits(s, p, o, hits);
    } else {
      if PrunesExactly(s, p, o) {
        ExactlyTame(s, p, o);
        E.PruningIsExact(q, run);
      } else if |hits| < o.topK {
        AllBoundsPositive(s, p, o);
        E.ShortAnswersAreComplete(q, run);
      }
    }
  }

  lemma AllBoundsPositive(s: Scoring, p: Plan, o: Options)
    requires ScoringOk(s) && PlanOk(p) && FrequenciesFit(s, p) && SomeBoost(s)
    ensures E.BoundsPositive(QueryOf(s, p, o))
  {
    var f :| 0 <= f < 3 && s.boost[f] > 0.0;
    PositiveBounds(s, p, o, f);
  }

  lemma RealIsTrue(s: Scoring, p: Plan, o: Options, h: Hit)
    requires |s.stats.fieldTokens| == 3 && |s.boost| == 3 && PlanOk(p) && S.RealHit(QueryOf(s, p, o), h)
    ensures TrueHit(s, p, o, h)
  {
    hide PlanOk, Total, Holders, Lists, ObjectScore, MatchedTerms;
    var q := QueryOf(s, p, o);
    var k: nat :| h.objectType == TypeOf(k) && h.ordinal == OrdinalOf(k) && WantedKey(q, k)
      && q.accept(TypeOf(k), OrdinalOf(k)) && 0.0 < h.score <= Total(q, k) && 0 < h.matchedTerms <= |Holders(q, k)|;
    HitIs(s, p, o, k);
  }

  lemma SortedHits(q: Query, run: seq<P.State>)
    requires QueryOk(q) && P.Run(q, run)
    ensures Sorted(Sort(run[|run| - 1].hits))
  {
    var d := S.RunSound(q, run, |run| - 1);
    SortCorrect(run[|run| - 1].hits);
  }

  lemma NothingRanked(s: Scoring, p: Plan, o: Options)
    requires |s.stats.fieldTokens| == 3 && |s.boost| == 3 && PlanOk(p) && Ranked(s, p, o) == {}
    ensures Answers(s, p, o, [])
  {
    hide PrunesExactly, PlanOk;
  }

  lemma NoTermsNoHits(s: Scoring, p: Plan, o: Options)
    requires |s.stats.fieldTokens| == 3 && |s.boost| == 3 && PlanOk(p) && |p.tokens| == 0
    ensures Answers(s, p, o, [])
  {
    NothingFoundNoHits(s, p, o);
    hide PrunesExactly;
  }

  /** Higher scores first, documents in front of passages, then by ordinal. */
  predicate InHitOrder(a: Hit, b: Hit) {
    && a.score >= b.score
    && (a.score == b.score ==> a.objectType <= b.objectType)
    && (a.score == b.score && a.objectType == b.objectType ==> a.ordinal < b.ordinal)
  }

  lemma AnswersAdmitted(s: Scoring, p: Plan, o: Options, hits: seq<Hit>)
    requires |s.stats.fieldTokens| == 3 && |s.boost| == 3 && PlanOk(p) && Answers(s, p, o, hits)
    ensures forall h :: h in hits ==> o.accept(h.objectType, h.ordinal) && (o.filter == 0 || h.objectType == o.filter) && h.score > 0.0
    ensures forall i, j :: 0 <= i < j < |hits| ==> InHitOrder(hits[i], hits[j])
  {
    hide PlanOk, PrunesExactly, ObjectScore, MatchedTerms;
    assert Sorted(hits);
    if o.conjunctive || o.phrase {
      forall h | h in hits ensures h in Ranked(s, p, o) {
        var i :| 0 <= i < |hits| && hits[i] == h;
      }
    }
  }

  method SearchTerms(s: Scoring, p: Plan, o: Options) returns (hits: seq<Hit>)
    requires ScoringOk(s) && PlanOk(p) && FrequenciesFit(s, p) && o.topK > 0 && |p.tokens| > 0
    ensures Answers(s, p, o, hits)
  {
    hide IsTop, PrunesExactly, QueryOk, FrequenciesFit, P.BoundsOk, PlanOk;
    var conjunctive := o.conjunctive || o.phrase;
    if conjunctive && exists t :: 0 <= t < |p.terms| && p.terms[t].found.None? {
      ghost var t: nat :| 0 <= t < |p.terms| && p.terms[t].found.None?;
      MissingTermNoHits(s, p, o, t);
      NothingRanked(s, p, o);
      return [];
    }
    var q := QueryOf(s, p, o);
    TermsOfPlan(p);
    ListCount(s, p.terms, o.filter);
    if |q.lists| == 0 {
      NothingFoundNoHits(s, p, o);
      NothingRanked(s, p, o);
      return [];
    }
    QueryIsOk(s, p, o);
    if conjunctive {
      RankedAll(s, p, o);
      hits := I.SearchAll(q);
    } else {
      hits := P.SearchAny(q);
      ghost var run :| P.Answers(q, run, hits);
      AnyIsAnswered(s, p, o, run, hits);
    }
  }
}
