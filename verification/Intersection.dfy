/** Conjunctive and phrase search: leapfrog over all posting lists. */
module Intersection {
  import opened Bm25
  import opened TopHits
  import opened MatchLists
  import opened Probing

  /** The tokens stand at consecutive positions of one field. */
  predicate Consecutive(positions: seq<seq<Position>>)
    requires |positions| > 0
  {
    exists base :: base in positions[0] && FollowsFrom(positions, base)
  }

  predicate FollowsFrom(positions: seq<seq<Position>>, base: Position) {
    forall j :: 0 < j < |positions| ==> Position(base.field, base.position + j) in positions[j]
  }

  predicate InAll(q: Query, key: nat) {
    forall t :: 0 <= t < |q.lists| ==> Has(q.lists[t], key)
  }

  ghost function TokenPositions(q: Query, key: nat): seq<seq<Position>>
    requires QueryOk(q) && InAll(q, key)
  {
    seq(|q.tokens|, j requires 0 <= j < |q.tokens| => ItemOf(q.lists[q.tokens[j]], key).positions)
  }

  /** Every term has the object, the object is wanted and accepted, and its score is positive. */
  ghost predicate Qualifies(q: Query, key: nat)
    requires QueryOk(q)
  {
    && InAll(q, key) && WantedKey(q, key)
    && (q.phrase ==> Consecutive(TokenPositions(q, key)))
    && q.accept(TypeOf(key), OrdinalOf(key))
    && Total(q, key) > 0.0
  }

  ghost function Keys(list: seq<Item>): set<nat> {
    set i | 0 <= i < |list| :: list[i].key
  }

  /** The hits of all qualifying objects in front of a key. */
  ghost function HitsBelow(q: Query, d: nat): set<Hit>
    requires QueryOk(q)
  {
    set k | k in Keys(q.lists[0]) && k < d && Qualifies(q, k) :: HitFor(q, k)
  }

  /** Everything a conjunctive search should rank. */
  ghost function AllHits(q: Query): set<Hit>
    requires QueryOk(q)
  {
    set k | k in Keys(q.lists[0]) && Qualifies(q, k) :: HitFor(q, k)
  }

  /** AllHits leaves nothing out: each qualifying object is in it. */
  lemma AllHitsComplete(q: Query, key: nat)
    requires QueryOk(q) && Qualifies(q, key)
    ensures HitFor(q, key) in AllHits(q)
  {
    assert Has(q.lists[0], key);
    assert key in Keys(q.lists[0]);
  }

  // ---------------------------------------------------------------- one object

  method FindPosition(positions: seq<Position>, wanted: Position) returns (found: bool)
    ensures found <==> wanted in positions
  {
    for p := 0 to |positions|
      invariant wanted !in positions[..p]
    {
      if positions[p].field == wanted.field && positions[p].position == wanted.position {
        return true;
      }
    }
    return false;
  }

  /** Try each position of the first token as the base of the phrase. */
  method PhraseMatches(positions: seq<seq<Position>>) returns (found: bool)
    requires |positions| > 0
    ensures found <==> Consecutive(positions)
  {
    for i := 0 to |positions[0]|
      invariant forall h :: 0 <= h < i ==> !FollowsFrom(positions, positions[0][h])
    {
      var base := positions[0][i];
      var q, matched := 1, true;
      while q < |positions| && matched
        invariant 1 <= q <= |positions| || !matched
        invariant matched ==> forall j :: 0 < j < q ==> Position(base.field, base.position + j) in positions[j]
        invariant !matched ==> !FollowsFrom(positions, base)
        decreases |positions| - q, matched
      {
        matched := FindPosition(positions[q], Position(base.field, base.position + q));
        if matched { q := q + 1; }
      }
      if matched {
        assert FollowsFrom(positions, base);
        return true;
      }
    }
    return false;
  }

  // ---------------------------------------------------------------- the loop invariant

  /** Objects in front of d are settled; no common object at or behind d has been passed. */
  ghost predicate Frontier(q: Query, index: seq<nat>, d: nat) {
    && Indexed(q, index)
    && (forall t :: 0 <= t < |index| && index[t] < |q.lists[t]| ==> d <= q.lists[t][index[t]].key)
    && (forall t, i :: 0 <= t < |index| && 0 <= i < index[t] && Kept(q, q.lists[t][i].key) ==> q.lists[t][i].key < d)
  }

  predicate Kept(q: Query, key: nat) {
    WantedKey(q, key) && InAll(q, key)
  }

  lemma StartFrontier(q: Query, index: seq<nat>)
    requires QueryOk(q) && |index| == |q.lists|
    requires forall t :: 0 <= t < |index| ==> index[t] == NextFrom(q, q.lists[t], 0, 0)
    ensures Frontier(q, index, 0)
  {
    forall t, i | 0 <= t < |index| && 0 <= i < index[t] ensures !WantedKey(q, q.lists[t][i].key) {
      NextFromSkips(q, q.lists[t], 0, 0, i);
    }
  }

  /** A cursor may leap to the key another cursor stands on: nothing in between is common. */
  lemma LeapOne(q: Query, index: seq<nat>, d: nat, t: nat, last: nat)
    requires QueryOk(q) && Frontier(q, index, d) && Alive(q, index, t) && Alive(q, index, last)
    requires KeyAt(q, index, t) < KeyAt(q, index, last)
    ensures Indexed(q, index[t := NextFrom(q, q.lists[t], index[t] + 1, KeyAt(q, index, last))])
    ensures Frontier(q, index[t := NextFrom(q, q.lists[t], index[t] + 1, KeyAt(q, index, last))], d)
  {
    var key := KeyAt(q, index, last);
    var next := NextFrom(q, q.lists[t], index[t] + 1, key);
    forall i | index[t] <= i < next ensures !Kept(q, q.lists[t][i].key) { LeapSkips(q, index, d, t, last, i); }
  }

  lemma LeapSkips(q: Query, index: seq<nat>, d: nat, t: nat, last: nat, i: nat)
    requires QueryOk(q) && Frontier(q, index, d) && Alive(q, index, t) && Alive(q, index, last)
    requires KeyAt(q, index, t) < KeyAt(q, index, last)
    requires index[t] <= i < NextFrom(q, q.lists[t], index[t] + 1, KeyAt(q, index, last))
    ensures !Kept(q, q.lists[t][i].key)
  {
    var key, k := KeyAt(q, index, last), q.lists[t][i].key;
    if index[t] < i { NextFromSkips(q, q.lists[t], index[t] + 1, key, i); }
    if Kept(q, k) {
      assert Has(q.lists[last], k);
      var j :| 0 <= j < |q.lists[last]| && q.lists[last][j].key == k;
      BeforeCursor(q.lists[last], index[last], j);
      assert false;
    }
  }

  /** After an object was evaluated the frontier lies right behind it. */
  lemma PassedFrontier(q: Query, index: seq<nat>, d: nat, key: nat)
    requires QueryOk(q) && Frontier(q, index, d) && d <= key
    requires forall t :: 0 <= t < |index| ==> AtKey(q, index, t, key)
    ensures Indexed(q, Passed(q, index, key)) && Frontier(q, Passed(q, index, key), key + 1)
  {
    var moved := Passed(q, index, key);
    forall t, i | 0 <= t < |index| && index[t] < i < moved[t] ensures !(WantedKey(q, q.lists[t][i].key) && q.lists[t][i].key >= key + 1) {
      assert AtKey(q, index, t, key);
      NextFromSkips(q, q.lists[t], index[t] + 1, key + 1, i);
    }
    forall t | 0 <= t < |moved| ensures moved[t] == NextFrom(q, q.lists[t], index[t] + 1, key + 1) {
      assert AtKey(q, index, t, key);
    }
  }

  lemma BelowStep(q: Query, d: nat, key: nat)
    requires QueryOk(q) && d <= key && forall k :: d <= k < key ==> !Qualifies(q, k)
    ensures HitsBelow(q, key + 1) == HitsBelow(q, d) + if Qualifies(q, key) then {HitFor(q, key)} else {}
  {
    hide Qualifies, HitFor;
    forall h | h in HitsBelow(q, key + 1) ensures h in HitsBelow(q, d) || (Qualifies(q, key) && h == HitFor(q, key)) {
      var k :| k in Keys(q.lists[0]) && k < key + 1 && Qualifies(q, k) && h == HitFor(q, k);
      assert k == key || k < d;
    }
    if Qualifies(q, key) {
      QualifiesListed(q, key);
    }
  }

  lemma QualifiesListed(q: Query, key: nat)
    requires QueryOk(q) && Qualifies(q, key)
    ensures key in Keys(q.lists[0])
  {
    assert Has(q.lists[0], key);
  }

  /** No object strictly between the frontier and the common key qualifies. */
  lemma NothingBetween(q: Query, index: seq<nat>, d: nat, key: nat, k: nat)
    requires QueryOk(q) && Frontier(q, index, d) && AtKey(q, index, 0, key) && d <= k < key
    ensures !Qualifies(q, k)
  {
    if Has(q.lists[0], k) {
      var i :| 0 <= i < |q.lists[0]| && q.lists[0][i].key == k;
      BeforeCursor(q.lists[0], index[0], i);
      assert !Kept(q, q.lists[0][i].key);
    }
  }

  /** Once a list is used up, everything that qualifies has been seen. */
  lemma ExhaustedSawAll(q: Query, index: seq<nat>, d: nat, t: nat)
    requires QueryOk(q) && Frontier(q, index, d) && t < |index| && index[t] == |q.lists[t]|
    ensures HitsBelow(q, d) == AllHits(q)
  {
    forall k | k in Keys(q.lists[0]) && Qualifies(q, k) ensures k < d {
      assert Has(q.lists[t], k);
      var i :| 0 <= i < |q.lists[t]| && q.lists[t][i].key == k;
      assert Kept(q, q.lists[t][i].key);
    }
    assert forall h :: h in AllHits(q) ==> h in HitsBelow(q, d);
  }

  lemma HitsDistinct(q: Query)
    requires QueryOk(q)
    ensures OnePerObject(AllHits(q))
  {
    hide Qualifies;
    forall a, b | a in AllHits(q) && b in AllHits(q) && SameObject(a, b) ensures a == b {
      var j :| j in Keys(q.lists[0]) && Qualifies(q, j) && a == HitFor(q, j);
      var k :| k in Keys(q.lists[0]) && Qualifies(q, k) && b == HitFor(q, k);
      SameHitSameKey(q, j, k);
    }
  }

  lemma NewHit(q: Query, d: nat, key: nat)
    requires QueryOk(q) && d <= key && Qualifies(q, key)
    ensures HitFor(q, key) !in HitsBelow(q, d) && OnePerObject(HitsBelow(q, d) + {HitFor(q, key)})
  {
    hide Qualifies;
    QualifiesListed(q, key);
    HitsDistinct(q);
    assert HitsBelow(q, d) + {HitFor(q, key)} <= AllHits(q);
    forall k | k in Keys(q.lists[0]) && k < d && HitFor(q, k) == HitFor(q, key) ensures false {
      SameHitSameKey(q, k, key);
    }
  }

  // ---------------------------------------------------------------- the search

  /** All cursors that lag behind the last one leap to its key. */
  method Leap(q: Query, index: seq<nat>, active: seq<nat>, ghost d: nat) returns (moved: seq<nat>)
    requires QueryOk(q) && Indexed(q, index) && Frontier(q, index, d) && Arranged(q, index, active) && |active| > 0
    requires KeyAt(q, index, active[0]) != KeyAt(q, index, active[|active| - 1])
    ensures Indexed(q, moved) && Frontier(q, moved, d) && Left(q, moved) < Left(q, index)
  {
    hide Frontier, Left;
    var last := active[|active| - 1];
    var key := KeyAt(q, index, last);
    moved := index;
    for i := 0 to |active| - 1
      invariant Indexed(q, moved) && Frontier(q, moved, d)
      invariant forall a :: i <= a < |active| ==> moved[active[a]] == index[active[a]]
      invariant forall t :: 0 <= t < |index| ==> index[t] <= moved[t]
      invariant i > 0 ==> index[active[0]] < moved[active[0]]
    {
      var t := active[i];
      if q.lists[t][moved[t]].key < key {
        LeapOne(q, moved, d, t, last);
        var next := AdvanceTo(q, q.lists[t], moved[t], key);
        moved := moved[t := next];
      }
    }
    LeftDecreases(q, index, moved, active[0]);
  }

  /** Are the tokens consecutive in the object under the cursors? */
  method CheckPhrase(q: Query, index: seq<nat>, key: nat) returns (ok: bool)
    requires QueryOk(q) && Indexed(q, index) && InAll(q, key)
    requires forall t :: 0 <= t < |index| ==> AtKey(q, index, t, key)
    ensures ok <==> (q.phrase ==> Consecutive(TokenPositions(q, key)))
  {
    if !q.phrase { return true; }
    FullEvaluation(q, index, key);
    var positions := seq(|q.tokens|, j requires 0 <= j < |q.tokens| && AtKey(q, index, q.tokens[j], key) =>
      q.lists[q.tokens[j]][index[q.tokens[j]]].positions);
    assert positions == TokenPositions(q, key);
    ok := PhraseMatches(positions);
  }

  /**
   Conjunctive search returns exactly the first topK, in hit order, of all qualifying objects,
   whatever the number and the length of the lists.
   */
  method SearchAll(q: Query) returns (r: seq<Hit>)
    requires QueryOk(q)
    ensures IsTop(r, AllHits(q), q.topK)
  {
    var index := Start(q);
    StartFrontier(q, index);
    var hits: seq<Hit> := [];
    ghost var d := 0;
    while true
      invariant Frontier(q, index, d) && HoldsTop(hits, HitsBelow(q, d), q.topK)
      decreases Left(q, index)
    {
      var active := Arrange(q, index);
      if |active| < |q.lists| {
        FewerActive(q, index, active, d);
        break;
      }
      AllActive(q, index, active);
      var key := KeyAt(q, index, active[|active| - 1]);
      if KeyAt(q, index, active[0]) != key {
        index := Leap(q, index, active, d);
      } else {
        forall t | 0 <= t < |index| ensures AtKey(q, index, t, key) { AllOnKey(q, index, active, t); }
        index, hits, d := TakeObject(q, index, active, key, hits, d);
      }
    }
    HitsDistinct(q);
    SortedTop(hits, AllHits(q), q.topK);
    r := Sort(hits);
  }

  /** Evaluate the object all cursors stand on and offer it. */
  method TakeObject(q: Query, index: seq<nat>, active: seq<nat>, key: nat, hits: seq<Hit>, ghost d: nat)
    returns (moved: seq<nat>, after: seq<Hit>, ghost e: nat)
    requires QueryOk(q) && Indexed(q, index) && Frontier(q, index, d) && Arranged(q, index, active) && |active| > 0
    requires HoldsTop(hits, HitsBelow(q, d), q.topK)
    requires forall t :: 0 <= t < |index| ==> AtKey(q, index, t, key)
    ensures Indexed(q, moved) && Frontier(q, moved, e) && HoldsTop(after, HitsBelow(q, e), q.topK) && Left(q, moved) < Left(q, index)
  {
    hide Frontier, HitsBelow, HoldsTop, Passed, Current, Standing, Scores, Holders, Sum, Consecutive, TokenPositions, Left;
    EveryList(q, index, key, d);
    var phraseOk := CheckPhrase(q, index, key);
    FullEvaluation(q, index, key);
    var score, matched;
    moved, score, matched := Evaluate(q, index, active, key);
    forall k | d <= k < key ensures !Qualifies(q, k) { NothingBetween(q, index, d, key, k); }
    BelowStep(q, d, key);
    PassedFrontier(q, index, d, key);
    PassedProgress(q, index, key, active[0]);
    e := key + 1;
    if phraseOk && q.accept(TypeOf(key), OrdinalOf(key)) && score > 0.0 {
      NewHit(q, d, key);
      after := AddHit(hits, q.topK, Hit(TypeOf(key), OrdinalOf(key), score, matched));
      AddedKeepsTop(hits, q.topK, HitFor(q, key), after, HitsBelow(q, d));
      assert HitsBelow(q, e) == HitsBelow(q, d) + {HitFor(q, key)};
    } else {
      assert !Qualifies(q, key);
      assert HitsBelow(q, e) == HitsBelow(q, d);
      after := hits;
    }
  }

  lemma EveryList(q: Query, index: seq<nat>, key: nat, d: nat)
    requires QueryOk(q) && Frontier(q, index, d) && forall t :: 0 <= t < |index| ==> AtKey(q, index, t, key)
    ensures InAll(q, key) && WantedKey(q, key) && d <= key
  {
    forall t | 0 <= t < |index| ensures Has(q.lists[t], key) {
      assert AtKey(q, index, t, key);
    }
    assert AtKey(q, index, 0, key);
  }

  /** With as many live cursors as lists, every cursor is live. */
  lemma AllActive(q: Query, index: seq<nat>, active: seq<nat>)
    requires QueryOk(q) && Arranged(q, index, active) && |active| >= |q.lists|
    ensures forall t :: 0 <= t < |index| ==> Alive(q, index, t)
  {
    MembersSize(active);
    forall t | 0 <= t < |index| ensures Alive(q, index, t) {
      if t !in active {
        assert Members(active) <= Range(|index|) - {t};
        SubsetSize(Members(active), Range(|index|) - {t});
      }
    }
  }

  /** When the first and the last of the order stand on one key, all do. */
  lemma AllOnKey(q: Query, index: seq<nat>, active: seq<nat>, t: nat)
    requires Arranged(q, index, active) && |active| > 0 && Alive(q, index, t)
    requires KeyAt(q, index, active[0]) == KeyAt(q, index, active[|active| - 1])
    ensures AtKey(q, index, t, KeyAt(q, index, active[0]))
  {
    var a :| 0 <= a < |active| && active[a] == t;
    hide KeyAt, Alive;
    assert KeyAt(q, index, active[0]) <= KeyAt(q, index, active[a]) <= KeyAt(q, index, active[|active| - 1]);
  }

  lemma FewerActive(q: Query, index: seq<nat>, active: seq<nat>, d: nat)
    requires QueryOk(q) && Frontier(q, index, d) && Arranged(q, index, active) && |active| < |q.lists|
    ensures HitsBelow(q, d) == AllHits(q)
  {
    MembersSize(active);
    var t := FreeSlot(Members(active), |q.lists|);
    assert t !in active;
    ExhaustedSawAll(q, index, d, t);
  }
}
