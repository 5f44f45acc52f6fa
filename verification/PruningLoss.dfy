/**
 Pruning can lose the best answer: with three terms or more because a cursor that already stands on
 the pivot's key is stepped over it, and with two terms because the bound of a list's present block
 says nothing about its later blocks.  Both happen for every number of places, so the cases in which
 pruning is exact are the only ones a caller can rely on.
 */
module PruningLoss {
  import opened Bm25
  import opened TopHits
  import opened MatchLists
  import opened Pruning
  import E = PruningExact

  ghost predicate Complete(q: Query, run: seq<State>)
    requires q.topK > 0
  {
    Run(q, run) && Finished(q, run[|run| - 1])
  }

  /** The run ends with exactly the first topK of all matches. */
  ghost predicate Answered(q: Query, run: seq<State>)
    requires |run| > 0
  {
    IsTop(Sort(run[|run| - 1].hits), AllMatches(q), q.topK)
  }

  /** Every complete run gives the answer, whatever the order of equal keys. */
  ghost predicate AlwaysAnswered(q: Query)
    requires q.topK > 0
  {
    forall run: seq<State> :: Complete(q, run) ==> Answered(q, run)
  }

  /** There are complete runs, and none gives the answer, whatever the order of equal keys. */
  ghost predicate Loses(q: Query)
    requires q.topK > 0
  {
    && (exists run: seq<State> :: Complete(q, run))
    && forall run: seq<State> :: Complete(q, run) ==> !Answered(q, run)
  }

  ghost predicate AcceptsAll(q: Query) {
    q.filter == DocumentType && forall t: nat, n: nat :: q.accept(t, n)
  }

  // ---------------------------------------------------------------- sums and runs

  lemma {:induction false} SumFirstThree(v: seq<real>)
    requires |v| >= 3 && forall t :: 3 <= t < |v| ==> v[t] == 0.0
    ensures Sum(v) == v[0] + v[1] + v[2]
  {
    if |v| == 3 {
      assert v[..2][..1] == v[..1] && v[..1][..0] == [];
      assert Sum(v[..1]) == Sum(v[..1][..0]) + v[0];
      assert Sum(v[..2]) == Sum(v[..2][..1]) + v[1];
    } else {
      SumFirstThree(v[..|v| - 1]);
    }
  }

  lemma SumTwo(a: real, b: real)
    ensures Sum([a, b]) == a + b
  {
    assert [a, b][..1] == [a] && [a][..0] == [];
    assert Sum([a]) == Sum([]) + a;
  }

  lemma NextAt(q: Query, list: seq<Item>, i: nat, key: nat)
    requires i <= |list| && (i < |list| ==> WantedKey(q, list[i].key) && list[i].key >= key)
    ensures NextFrom(q, list, i, key) == i
  {
  }

  lemma Extended(q: Query, run: seq<State>, t: State)
    requires q.topK > 0 && Run(q, run) && Step(q, run[|run| - 1], t)
    ensures Run(q, run + [t])
  {
    hide Step, Initial;
    var longer := run + [t];
    forall i, j | 0 <= i < j < |longer| && j == i + 1 ensures Step(q, longer[i], longer[j]) {
      if j < |run| { assert Step(q, run[i], run[j]); }
    }
  }

  /** Not the answer: a match that is missing scores higher than every hit held. */
  lemma {:induction false} NotTop(q: Query, hits: seq<Hit>, key: nat)
    requires |hits| > 0 && Matches(q, key) && forall i :: 0 <= i < |hits| ==> hits[i].score < Total(q, key)
    requires forall i, j :: 0 <= i < j < |hits| ==> !SameObject(hits[i], hits[j])
    ensures !IsTop(Sort(hits), AllMatches(q), q.topK)
  {
    MatchIsListed(q, key);
    ScoreOfHit(q, key);
    SortedBelow(hits, Total(q, key));
    hide *;
    BelowIsNotTop(Sort(hits), AllMatches(q), q.topK, HitFor(q, key));
  }

  lemma SortedBelow(hits: seq<Hit>, m: real)
    requires forall i, j :: 0 <= i < j < |hits| ==> !SameObject(hits[i], hits[j])
    requires forall i :: 0 <= i < |hits| ==> hits[i].score < m
    ensures |Sort(hits)| == |hits| && forall h :: h in Sort(hits) ==> h.score < m
  {
    SortCorrect(hits);
  }

  lemma BelowIsNotTop(hits: seq<Hit>, all: set<Hit>, k: nat, missed: Hit)
    requires |hits| > 0 && missed in all && forall h :: h in hits ==> h.score < missed.score
    ensures !IsTop(hits, all, k)
  {
    assert hits[0] in hits;
  }

  lemma ScoreOfHit(q: Query, key: nat)
    ensures HitFor(q, key).score == Total(q, key)
  {
  }

  /** What the buffer holds after the first n documents scored the same. */
  function Hits(n: nat, score: real, matched: nat): (hits: seq<Hit>)
    ensures |hits| == n && forall i :: 0 <= i < n ==> hits[i] == Hit(DocumentType, i, score, matched)
  {
    seq(n, i requires 0 <= i < n => Hit(DocumentType, i, score, matched))
  }

  lemma FullThreshold(k: nat, score: real, matched: nat)
    requires k > 0
    ensures Threshold(Hits(k, score, matched), k) == score
  {
  }

  // ---------------------------------------------------------------- three terms or more

  predicate RareList(list: seq<Item>, x: real, k: nat) {
    |list| == k + 1 && forall i :: 0 <= i <= k ==> list[i].key == i && list[i].score == list[i].bound == x
  }

  predicate HeavyList(list: seq<Item>, x: real, y: real, k: nat) {
    && |list| == k + 1 && list[k].key == k + 1 && list[k].score == list[k].bound == y
    && forall i :: 0 <= i < k ==> list[i].key == i && list[i].score == x && list[i].bound == y
  }

  /** A list without documents. */
  predicate PassagesOnly(list: seq<Item>) {
    Increasing(list) && forall i :: 0 <= i < |list| ==> list[i].key >= TypeBit && 0.0 <= list[i].score <= list[i].bound
  }

  /**
   The first k documents have all three terms, one more has only the rare term, and the last has the
   other two, with a higher score than any of the first k.
   */
  ghost predicate ThreeShape(q: Query, x: real, y: real) {
    && 0.0 < x <= y < 2.0 * x && 2.0 * y > 3.0 * x
    && 0 < q.topK && q.topK + 1 < TypeBit && AcceptsAll(q) && q.tokens == [0] && |q.lists| >= 3
    && RareList(q.lists[0], x, q.topK) && HeavyList(q.lists[1], x, y, q.topK) && HeavyList(q.lists[2], x, y, q.topK)
    && forall t :: 3 <= t < |q.lists| ==> PassagesOnly(q.lists[t])
  }

  /** Cursors of the three lists; all others are at their end. */
  function At(q: Query, a: nat, b: nat, c: nat): (index: seq<nat>)
    ensures |index| == |q.lists|
    ensures forall t :: 0 <= t < |q.lists| ==> index[t] == if t == 0 then a else if t == 1 then b else if t == 2 then c else |q.lists[t]|
  {
    seq(|q.lists|, t requires 0 <= t < |q.lists| => if t == 0 then a else if t == 1 then b else if t == 2 then c else |q.lists[t]|)
  }

  lemma ThreeStart(q: Query, x: real, y: real)
    requires ThreeShape(q, x, y)
    ensures Initial(q, State(At(q, 0, 0, 0), []))
  {
    forall t | 0 <= t < |q.lists| ensures NextFrom(q, q.lists[t], 0, 0) == At(q, 0, 0, 0)[t] {
      if t < 3 { NextAt(q, q.lists[t], 0, 0); } else { NextFromIs(q, q.lists[t], 0, 0, |q.lists[t]|); }
    }
  }

  lemma ThreeArranged(q: Query, x: real, y: real, i: nat)
    requires ThreeShape(q, x, y) && i <= q.topK
    ensures Arranged(q, At(q, i, i, i), [0, 1, 2])
    ensures KeyAt(q, At(q, i, i, i), 0) == i
    ensures KeyAt(q, At(q, i, i, i), 1) == KeyAt(q, At(q, i, i, i), 2) == if i < q.topK then i else i + 1
    ensures BoundAt(q, At(q, i, i, i), 0) == x && BoundAt(q, At(q, i, i, i), 1) == BoundAt(q, At(q, i, i, i), 2) == y
  {
    var index := At(q, i, i, i);
    assert forall t :: 0 <= t < |index| ==> (Alive(q, index, t) <==> t < 3);
  }

  lemma ThreeSeen(q: Query, x: real, y: real, i: nat)
    requires ThreeShape(q, x, y) && i < q.topK
    ensures HitAt(q, At(q, i, i, i), i) == Hit(DocumentType, i, 3.0 * x, 3)
  {
    var index := At(q, i, i, i);
    SumFirstThree(Current(q, index, i));
    assert Standing(q, index, i) == {0, 1, 2};
  }

  lemma ThreePassed(q: Query, x: real, y: real, i: nat)
    requires ThreeShape(q, x, y) && i < q.topK
    ensures Passed(q, At(q, i, i, i), i) == At(q, i + 1, i + 1, i + 1)
  {
    forall t | 0 <= t < 3 ensures NextFrom(q, q.lists[t], i + 1, i + 1) == i + 1 {
      NextAt(q, q.lists[t], i + 1, i + 1);
    }
  }

  lemma ThreeTake(q: Query, x: real, y: real, i: nat)
    requires ThreeShape(q, x, y) && i < q.topK
    ensures Step(q, State(At(q, i, i, i), Hits(i, 3.0 * x, 3)), State(At(q, i + 1, i + 1, i + 1), Hits(i + 1, 3.0 * x, 3)))
  {
    ThreeArranged(q, x, y, i);
    ThreeSeen(q, x, y, i);
    ThreePassed(q, x, y, i);
    hide Arranged, HitAt, Passed, At, KeyAt, BoundAt;
    var s, t := State(At(q, i, i, i), Hits(i, 3.0 * x, 3)), State(At(q, i + 1, i + 1, i + 1), Hits(i + 1, 3.0 * x, 3));
    var active := [0, 1, 2];
    assert Prefix(q, s.index, active, 1) == Prefix(q, s.index, active, 0) + x;
    assert IsPivot(q, s.index, active, 0.0, 0);
    assert Hits(i, 3.0 * x, 3) + [Hit(DocumentType, i, 3.0 * x, 3)] == Hits(i + 1, 3.0 * x, 3);
    assert Takes(q, s, i, t);
    assert StepBy(q, s, active, 0, t);
  }

  lemma ThreePivot(q: Query, x: real, y: real)
    requires ThreeShape(q, x, y)
    ensures Arranged(q, At(q, q.topK, q.topK, q.topK), [0, 1, 2])
    ensures IsPivot(q, At(q, q.topK, q.topK, q.topK), [0, 1, 2], 3.0 * x, 2)
  {
    ThreeArranged(q, x, y, q.topK);
    hide Arranged, At, KeyAt, BoundAt;
    var index, active := At(q, q.topK, q.topK, q.topK), [0, 1, 2];
    assert Prefix(q, index, active, 1) == Prefix(q, index, active, 0) + x;
    assert Prefix(q, index, active, 2) == Prefix(q, index, active, 1) + y;
    assert Prefix(q, index, active, 3) == Prefix(q, index, active, 2) + y;
  }

  lemma ThreeJumped(q: Query, x: real, y: real)
    requires ThreeShape(q, x, y)
    ensures Advanced(q, At(q, q.topK, q.topK, q.topK), [0, 1], q.topK + 1) == At(q, q.topK + 1, q.topK + 1, q.topK)
  {
    var k := q.topK;
    NextAt(q, q.lists[0], k + 1, k + 1);
    NextAt(q, q.lists[1], k + 1, k + 1);
  }

  /** The second list's cursor is already on the pivot's key and is moved over it. */
  lemma ThreeJump(q: Query, x: real, y: real)
    requires ThreeShape(q, x, y)
    ensures var k, hits := q.topK, Hits(q.topK, 3.0 * x, 3); Step(q, State(At(q, k, k, k), hits), State(At(q, k + 1, k + 1, k), hits))
  {
    var k, hits := q.topK, Hits(q.topK, 3.0 * x, 3);
    ThreeArranged(q, x, y, k);
    ThreePivot(q, x, y);
    ThreeJumped(q, x, y);
    FullThreshold(k, 3.0 * x, 3);
    hide Arranged, IsPivot, At, KeyAt, BoundAt, Advanced, Threshold, RareList, HeavyList, PassagesOnly, AcceptsAll, Hits, Step;
    assert [0, 1, 2][..2] == [0, 1];
    JumpStep(q, State(At(q, k, k, k), hits), [0, 1, 2], 2, State(At(q, k + 1, k + 1, k), hits));
  }

  lemma JumpStep(q: Query, s: State, active: seq<nat>, pivot: nat, t: State)
    requires q.topK > 0 && Arranged(q, s.index, active) && 0 < pivot < |active| && IsPivot(q, s.index, active, Threshold(s.hits, q.topK), pivot)
    requires KeyAt(q, s.index, active[0]) != KeyAt(q, s.index, active[pivot])
    requires t == State(Advanced(q, s.index, active[..pivot], KeyAt(q, s.index, active[pivot])), s.hits)
    ensures Step(q, s, t)
  {
    hide Arranged, IsPivot, Advanced, KeyAt, Threshold;
    assert StepBy(q, s, active, pivot, t);
  }

  lemma ThreeLastCursor(q: Query, x: real, y: real)
    requires ThreeShape(q, x, y)
    ensures var index := At(q, q.topK + 1, q.topK + 1, q.topK);
      && Arranged(q, index, [2]) && Alive(q, index, 2) && BoundAt(q, index, 2) == y
      && Advanced(q, index, [2], 0) == At(q, q.topK + 1, q.topK + 1, q.topK + 1)
  {
    var k := q.topK;
    NextAt(q, q.lists[2], k + 1, 0);
  }

  lemma ThreeSkip(q: Query, x: real, y: real)
    requires ThreeShape(q, x, y)
    ensures var k, hits := q.topK, Hits(q.topK, 3.0 * x, 3); Step(q, State(At(q, k + 1, k + 1, k), hits), State(At(q, k + 1, k + 1, k + 1), hits))
  {
    var k, hits, active := q.topK, Hits(q.topK, 3.0 * x, 3), [2];
    ThreeLastCursor(q, x, y);
    FullThreshold(k, 3.0 * x, 3);
    hide Arranged, Advanced, Threshold, At, BoundAt, RareList, HeavyList, PassagesOnly, AcceptsAll, Hits;
    var s, t := State(At(q, k + 1, k + 1, k), hits), State(At(q, k + 1, k + 1, k + 1), hits);
    assert Prefix(q, s.index, active, 1) == Prefix(q, s.index, active, 0) + y;
    assert IsPivot(q, s.index, active, 3.0 * x, 1);
    assert StepBy(q, s, active, 1, t);
  }

  lemma ThreeBest(q: Query, x: real, y: real)
    requires ThreeShape(q, x, y)
    ensures Matches(q, q.topK + 1) && Total(q, q.topK + 1) == 2.0 * y
  {
    var key := q.topK + 1;
    ThreeFine(q, x, y);
    assert !Has(q.lists[0], key);
    ItemOfAt(q.lists[1], q.topK);
    ItemOfAt(q.lists[2], q.topK);
    forall t | 3 <= t < |q.lists| ensures Scores(q, key)[t] == 0.0 {
      assert !Has(q.lists[t], key);
    }
    SumFirstThree(Scores(q, key));
  }

  lemma ThreeFine(q: Query, x: real, y: real)
    requires ThreeShape(q, x, y)
    ensures QueryOk(q) && BoundsOk(q)
  {
    forall t | 0 <= t < |q.lists| ensures Increasing(q.lists[t]) && forall i :: 0 <= i < |q.lists[t]| ==> 0.0 <= q.lists[t][i].score <= q.lists[t][i].bound {
    }
  }

  lemma {:induction false} ThreeTakes(q: Query, x: real, y: real, n: nat) returns (run: seq<State>)
    requires ThreeShape(q, x, y) && n <= q.topK
    ensures Run(q, run) && run[|run| - 1] == State(At(q, n, n, n), Hits(n, 3.0 * x, 3))
  {
    hide Step, Initial, At;
    if n == 0 {
      ThreeStart(q, x, y);
      assert Hits(0, 3.0 * x, 3) == [];
      run := [State(At(q, 0, 0, 0), [])];
    } else {
      run := ThreeTakes(q, x, y, n - 1);
      ThreeTake(q, x, y, n - 1);
      Extended(q, run, State(At(q, n, n, n), Hits(n, 3.0 * x, 3)));
      run := run + [State(At(q, n, n, n), Hits(n, 3.0 * x, 3))];
    }
  }

  lemma ThreeRun(q: Query, x: real, y: real) returns (run: seq<State>)
    requires ThreeShape(q, x, y)
    ensures Run(q, run) && Finished(q, run[|run| - 1]) && run[|run| - 1].hits == Hits(q.topK, 3.0 * x, 3)
  {
    var k, hits := q.topK, Hits(q.topK, 3.0 * x, 3);
    var t, u := State(At(q, k + 1, k + 1, k), hits), State(At(q, k + 1, k + 1, k + 1), hits);
    assert Finished(q, u);
    hide Step, At, Run, Hits, RareList, HeavyList, PassagesOnly, AcceptsAll, Finished;
    run := ThreeTakes(q, x, y, k);
    ThreeJump(q, x, y);
    RunNonEmpty(q, run);
    Extended(q, run, t);
    ThreeSkip(q, x, y);
    Extended(q, run + [t], u);
    run := run + [t] + [u];
  }

  lemma RunNonEmpty(q: Query, run: seq<State>)
    requires q.topK > 0 && Run(q, run)
    ensures |run| > 0
  {
  }

  // ---------------------------------------------------------------- every run over three lists

  /** Three different numbers below three are all of them. */
  lemma ThreeNumbers(active: seq<nat>)
    requires (forall a, b :: 0 <= a < b < |active| ==> active[a] != active[b]) && (forall a :: 0 <= a < |active| ==> active[a] < 3)
    requires 0 in active && 1 in active && 2 in active
    ensures |active| == 3 && (active[0] == 0 ==> active == [0, 1, 2] || active == [0, 2, 1])
  {
    assert Members(active) == {0, 1, 2} by {
      forall t | t in {0, 1, 2} ensures t in Members(active) { assert t in active; }
    }
    MembersSize(active);
  }

  lemma OnlyThreeAlive(q: Query, x: real, y: real, i: nat, t: nat)
    requires ThreeShape(q, x, y) && i <= q.topK && t < |q.lists|
    ensures Alive(q, At(q, i, i, i), t) <==> t < 3
  {
  }

  lemma ThreeActive(q: Query, x: real, y: real, i: nat, active: seq<nat>)
    requires ThreeShape(q, x, y) && i <= q.topK && Arranged(q, At(q, i, i, i), active)
    ensures |active| == 3 && active[0] < 3 && active[1] < 3 && active[2] < 3
    ensures i == q.topK ==> active == [0, 1, 2] || active == [0, 2, 1]
  {
    hide At, RareList, HeavyList, PassagesOnly, AcceptsAll, Alive, KeyAt;
    var index := At(q, i, i, i);
    forall t | 0 <= t < 3 ensures t in active { OnlyThreeAlive(q, x, y, i, t); }
    forall a | 0 <= a < |active| ensures active[a] < 3 {
      AliveIsList(q, index, active[a]);
      OnlyThreeAlive(q, x, y, i, active[a]);
    }
    ThreeNumbers(active);
    if i == q.topK {
      var a :| 0 <= a < |active| && active[a] == 0;
      ThreeBoundAt(q, x, y, i, 0);
      ThreeBoundAt(q, x, y, i, active[0]);
    }
  }

  lemma AliveIsList(q: Query, index: seq<nat>, t: nat)
    requires |index| == |q.lists| && Alive(q, index, t)
    ensures t < |q.lists|
  {
  }

  lemma ThreeBoundAt(q: Query, x: real, y: real, i: nat, t: nat)
    requires ThreeShape(q, x, y) && i <= q.topK && t < 3
    ensures Alive(q, At(q, i, i, i), t) && BoundAt(q, At(q, i, i, i), t) == if t == 0 then x else y
    ensures KeyAt(q, At(q, i, i, i), t) == if t == 0 || i < q.topK then i else i + 1
  {
  }

  lemma ThreeTakesOnly(q: Query, x: real, y: real, i: nat, t: State)
    requires ThreeShape(q, x, y) && i < q.topK && Step(q, State(At(q, i, i, i), Hits(i, 3.0 * x, 3)), t)
    ensures t == State(At(q, i + 1, i + 1, i + 1), Hits(i + 1, 3.0 * x, 3))
  {
    hide At, Hits, RareList, HeavyList, PassagesOnly;
    var s := State(At(q, i, i, i), Hits(i, 3.0 * x, 3));
    var active, pivot :| StepBy(q, s, active, pivot, t);
    ThreeActive(q, x, y, i, active);
    ThreeBoundAt(q, x, y, i, active[0]);
    assert Prefix(q, s.index, active, 1) == Prefix(q, s.index, active, 0) + BoundAt(q, s.index, active[0]);
    assert pivot == 0;
    ThreeSeen(q, x, y, i);
    ThreePassed(q, x, y, i);
    assert Hits(i, 3.0 * x, 3) + [Hit(DocumentType, i, 3.0 * x, 3)] == Hits(i + 1, 3.0 * x, 3);
  }

  lemma PivotAtTwo(q: Query, index: seq<nat>, active: seq<nat>, x: real, y: real, pivot: nat)
    requires 0.0 < x <= y < 2.0 * x && Arranged(q, index, active) && |active| == 3 && IsPivot(q, index, active, 3.0 * x, pivot)
    requires BoundAt(q, index, active[0]) == x && BoundAt(q, index, active[1]) == y && BoundAt(q, index, active[2]) == y
    ensures pivot == 2
  {
    hide Arranged, BoundAt;
    assert Prefix(q, index, active, 1) == Prefix(q, index, active, 0) + x;
    assert Prefix(q, index, active, 2) == Prefix(q, index, active, 1) + y;
    assert Prefix(q, index, active, 3) == Prefix(q, index, active, 2) + y;
  }

  lemma ThreeJumpedOver(q: Query, x: real, y: real)
    requires ThreeShape(q, x, y)
    ensures Advanced(q, At(q, q.topK, q.topK, q.topK), [0, 2], q.topK + 1) == At(q, q.topK + 1, q.topK, q.topK + 1)
  {
    var k := q.topK;
    NextAt(q, q.lists[0], k + 1, k + 1);
    NextAt(q, q.lists[2], k + 1, k + 1);
  }

  lemma ThreeJumpsOnly(q: Query, x: real, y: real, t: State)
    requires ThreeShape(q, x, y) && Step(q, State(At(q, q.topK, q.topK, q.topK), Hits(q.topK, 3.0 * x, 3)), t)
    ensures t.hits == Hits(q.topK, 3.0 * x, 3)
    ensures t.index == At(q, q.topK + 1, q.topK + 1, q.topK) || t.index == At(q, q.topK + 1, q.topK, q.topK + 1)
  {
    hide At, Hits, RareList, HeavyList, PassagesOnly, Arranged, IsPivot, Threshold, Advanced, KeyAt, BoundAt, AcceptsAll;
    var k := q.topK;
    var s := State(At(q, k, k, k), Hits(k, 3.0 * x, 3));
    var active, pivot :| StepBy(q, s, active, pivot, t);
    ThreeActive(q, x, y, k, active);
    ThreeBoundAt(q, x, y, k, 0);
    ThreeBoundAt(q, x, y, k, 1);
    ThreeBoundAt(q, x, y, k, 2);
    FullThreshold(k, 3.0 * x, 3);
    PivotAtTwo(q, s.index, active, x, y, pivot);
    ThreeJumped(q, x, y);
    ThreeJumpedOver(q, x, y);
    assert active[..2] == [0, 1] || active[..2] == [0, 2];
  }

  /** One cursor left, with a bound too low: it is skipped. */
  lemma LastSkipsOnly(q: Query, x: real, y: real, index: seq<nat>, c: nat, t: State)
    requires ThreeShape(q, x, y) && (c == 1 || c == 2)
    requires index == if c == 2 then At(q, q.topK + 1, q.topK + 1, q.topK) else At(q, q.topK + 1, q.topK, q.topK + 1)
    requires Step(q, State(index, Hits(q.topK, 3.0 * x, 3)), t)
    ensures t == State(At(q, q.topK + 1, q.topK + 1, q.topK + 1), Hits(q.topK, 3.0 * x, 3))
  {
    LastAlone(q, x, y, index, c);
    LastMoves(q, x, y, index, c);
    FullThreshold(q.topK, 3.0 * x, 3);
    hide At, Hits, RareList, HeavyList, PassagesOnly, AcceptsAll, Advanced, Threshold, BoundAt;
    var s := State(index, Hits(q.topK, 3.0 * x, 3));
    var active, pivot :| StepBy(q, s, active, pivot, t);
    AloneIsAll(q, index, active, c);
    assert Prefix(q, index, active, 1) == Prefix(q, index, active, 0) + y;
    assert pivot == 1;
  }

  lemma LastAlone(q: Query, x: real, y: real, index: seq<nat>, c: nat)
    requires ThreeShape(q, x, y) && (c == 1 || c == 2)
    requires index == if c == 2 then At(q, q.topK + 1, q.topK + 1, q.topK) else At(q, q.topK + 1, q.topK, q.topK + 1)
    ensures forall t :: 0 <= t < |q.lists| ==> (Alive(q, index, t) <==> t == c)
    ensures BoundAt(q, index, c) == y
  {
  }

  lemma LastMoves(q: Query, x: real, y: real, index: seq<nat>, c: nat)
    requires ThreeShape(q, x, y) && (c == 1 || c == 2)
    requires index == if c == 2 then At(q, q.topK + 1, q.topK + 1, q.topK) else At(q, q.topK + 1, q.topK, q.topK + 1)
    ensures Advanced(q, index, [c], 0) == At(q, q.topK + 1, q.topK + 1, q.topK + 1)
  {
    LastAlone(q, x, y, index, c);
    hide RareList, PassagesOnly;
    assert |q.lists[c]| == q.topK + 1;
    NextAt(q, q.lists[c], q.topK + 1, 0);
    hide HeavyList, NextFrom;
    AdvancedOne(q, index, c, 0);
  }

  lemma AloneIsAll(q: Query, index: seq<nat>, active: seq<nat>, c: nat)
    requires |index| == |q.lists| && c < |index| && forall t :: 0 <= t < |q.lists| ==> (Alive(q, index, t) <==> t == c)
    requires Arranged(q, index, active)
    ensures active == [c]
  {
    assert c in active;
    forall a | 0 <= a < |active| ensures active[a] == c { assert Alive(q, index, active[a]); }
    assert Members(active) == {c};
    MembersSize(active);
  }

  /** The states every run passes through. */
  ghost predicate ThreeStage(q: Query, x: real, n: nat, s: State) {
    var k := q.topK;
    if n <= k then s == State(At(q, n, n, n), Hits(n, 3.0 * x, 3))
    else
      && n <= k + 2 && s.hits == Hits(k, 3.0 * x, 3)
      && if n == k + 1 then s.index == At(q, k + 1, k + 1, k) || s.index == At(q, k + 1, k, k + 1) else s.index == At(q, k + 1, k + 1, k + 1)
  }

  lemma NoStepAfterEnd(q: Query, s: State, t: State)
    requires q.topK > 0 && Finished(q, s)
    ensures !Step(q, s, t)
  {
    forall active, pivot ensures !StepBy(q, s, active, pivot, t) {
      if |active| > 0 {
        var first := active[0];
        assert !Alive(q, s.index, first);
      }
    }
  }

  lemma {:induction false} ThreeRunIs(q: Query, x: real, y: real, run: seq<State>, n: nat)
    requires ThreeShape(q, x, y) && Run(q, run) && n < |run|
    ensures ThreeStage(q, x, n, run[n])
  {
    hide Step, At, Hits, RareList, HeavyList, PassagesOnly, AcceptsAll, Initial;
    if n == 0 {
      ThreeStart(q, x, y);
      OneStart(q, State(At(q, 0, 0, 0), []), run[0]);
      assert Hits(0, 3.0 * x, 3) == [];
    } else {
      ThreeRunIs(q, x, y, run, n - 1);
      var s, t, k := run[n - 1], run[n], q.topK;
      assert Step(q, s, t);
      if n - 1 < k {
        ThreeTakesOnly(q, x, y, n - 1, t);
      } else if n - 1 == k {
        ThreeJumpsOnly(q, x, y, t);
      } else if n - 1 == k + 1 {
        LastSkipsOnly(q, x, y, s.index, if s.index == At(q, k + 1, k + 1, k) then 2 else 1, t);
      } else {
        ThreeEnd(q, x, y, s);
        NoStepAfterEnd(q, s, t);
        assert false;
      }
    }
  }

  lemma OneStart(q: Query, a: State, b: State)
    requires Initial(q, a) && Initial(q, b)
    ensures a == b
  {
    assert a.index == b.index;
  }

  lemma ThreeEnd(q: Query, x: real, y: real, s: State)
    requires ThreeShape(q, x, y)
    ensures s.index == At(q, q.topK + 1, q.topK + 1, q.topK + 1) ==> Finished(q, s)
    ensures forall a: nat, b: nat, c: nat :: (a <= q.topK || b <= q.topK || c <= q.topK) && s.index == At(q, a, b, c) ==> !Finished(q, s)
  {
  }

  /** Every complete run ends with the first k documents. */
  lemma ThreeRunsEnd(q: Query, x: real, y: real, run: seq<State>)
    requires ThreeShape(q, x, y) && Complete(q, run)
    ensures run[|run| - 1].hits == Hits(q.topK, 3.0 * x, 3)
  {
    hide Run, Finished, At, Hits, RareList, HeavyList, PassagesOnly, AcceptsAll;
    RunNonEmpty(q, run);
    var n := |run| - 1;
    ThreeRunIs(q, x, y, run, n);
    ThreeEnd(q, x, y, run[n]);
  }

  /**
   Three terms or more, in lists with one bound each, any number of places: there are complete runs,
   and every one of them loses the best object.
   */
  lemma ThreeTermsLose(q: Query, x: real, y: real)
    requires ThreeShape(q, x, y)
    ensures QueryOk(q) && BoundsOk(q) && Loses(q)
  {
    ThreeFine(q, x, y);
    ThreeBest(q, x, y);
    hide Run, Finished, Matches, Total, QueryOk, BoundsOk, AllMatches, RareList, HeavyList, PassagesOnly, AcceptsAll, IsTop, Sort;
    var run := ThreeRun(q, x, y);
    assert Complete(q, run);
    forall run: seq<State> | Complete(q, run) ensures !Answered(q, run) {
      RunNonEmpty(q, run);
      ThreeRunsEnd(q, x, y, run);
      NotTop(q, Hits(q.topK, 3.0 * x, 3), q.topK + 1);
    }
  }

  // ---------------------------------------------------------------- two terms, bounds that differ

  /** Documents k to k + m - 1 with score and bound x, and then one with score and bound z. */
  predicate LongList(list: seq<Item>, x: real, z: real, k: nat, m: nat) {
    && |list| == m + 1 && list[m].key == k + m && list[m].score == list[m].bound == z
    && forall i :: 0 <= i < m ==> list[i].key == k + i && list[i].score == list[i].bound == x
  }

  /** The first k documents and a far one, all with score and bound y. */
  predicate ShortList(list: seq<Item>, y: real, k: nat, far: nat) {
    && |list| == k + 1 && list[k].key == far && list[k].score == list[k].bound == y
    && forall i :: 0 <= i < k ==> list[i].key == i && list[i].score == list[i].bound == y
  }

  /** The best document lies in a later block of the long list, in front of the far one. */
  ghost predicate TwoShape(q: Query, x: real, y: real, z: real, m: nat, far: nat) {
    && 0.0 < x < y < z && 0 < m && q.topK + m < far < TypeBit
    && 0 < q.topK && AcceptsAll(q) && q.tokens == [0] && |q.lists| == 2
    && LongList(q.lists[0], x, z, q.topK, m) && ShortList(q.lists[1], y, q.topK, far)
  }

  lemma TwoFine(q: Query, x: real, y: real, z: real, m: nat, far: nat)
    requires TwoShape(q, x, y, z, m, far)
    ensures QueryOk(q) && BoundsOk(q)
  {
    forall t | 0 <= t < 2 ensures Increasing(q.lists[t]) && forall i :: 0 <= i < |q.lists[t]| ==> 0.0 <= q.lists[t][i].score <= q.lists[t][i].bound {
    }
  }

  lemma TwoStart(q: Query, x: real, y: real, z: real, m: nat, far: nat)
    requires TwoShape(q, x, y, z, m, far)
    ensures Initial(q, State([0, 0], []))
  {
    NextAt(q, q.lists[0], 0, 0);
    NextAt(q, q.lists[1], 0, 0);
  }

  lemma TwoCursors(q: Query, x: real, y: real, z: real, m: nat, far: nat, i: nat)
    requires TwoShape(q, x, y, z, m, far) && i < q.topK
    ensures Arranged(q, [0, i], [1, 0]) && KeyAt(q, [0, i], 1) == i && BoundAt(q, [0, i], 1) == y
    ensures HitAt(q, [0, i], i) == Hit(DocumentType, i, y, 1) && Passed(q, [0, i], i) == [0, i + 1]
  {
    assert Current(q, [0, i], i) == [0.0, y];
    SumTwo(0.0, y);
    assert Standing(q, [0, i], i) == {1};
    NextAt(q, q.lists[1], i + 1, i + 1);
  }

  lemma TwoTake(q: Query, x: real, y: real, z: real, m: nat, far: nat, i: nat)
    requires TwoShape(q, x, y, z, m, far) && i < q.topK
    ensures Step(q, State([0, i], Hits(i, y, 1)), State([0, i + 1], Hits(i + 1, y, 1)))
  {
    TwoCursors(q, x, y, z, m, far, i);
    hide Arranged, HitAt, Passed, KeyAt, BoundAt, LongList, ShortList;
    var s, t, active := State([0, i], Hits(i, y, 1)), State([0, i + 1], Hits(i + 1, y, 1)), [1, 0];
    assert Prefix(q, s.index, active, 1) == Prefix(q, s.index, active, 0) + y;
    assert IsPivot(q, s.index, active, 0.0, 0);
    assert Hits(i, y, 1) + [Hit(DocumentType, i, y, 1)] == Hits(i + 1, y, 1);
    assert Takes(q, s, i, t);
    assert StepBy(q, s, active, 0, t);
  }

  lemma TwoArranged(q: Query, x: real, y: real, z: real, m: nat, far: nat)
    requires TwoShape(q, x, y, z, m, far)
    ensures Arranged(q, [0, q.topK], [0, 1]) && KeyAt(q, [0, q.topK], 0) == q.topK && KeyAt(q, [0, q.topK], 1) == far
    ensures BoundAt(q, [0, q.topK], 0) == x && BoundAt(q, [0, q.topK], 1) == y
    ensures Advanced(q, [0, q.topK], [0], far) == [m + 1, q.topK]
  {
    NextFromIs(q, q.lists[0], 1, far, m + 1);
    AdvancedOne(q, [0, q.topK], 0, far);
  }

  lemma TwoJump(q: Query, x: real, y: real, z: real, m: nat, far: nat)
    requires TwoShape(q, x, y, z, m, far)
    ensures var hits := Hits(q.topK, y, 1); Step(q, State([0, q.topK], hits), State([m + 1, q.topK], hits))
  {
    var hits, active := Hits(q.topK, y, 1), [0, 1];
    TwoArranged(q, x, y, z, m, far);
    FullThreshold(q.topK, y, 1);
    hide Arranged, KeyAt, BoundAt, Advanced, Threshold, LongList, ShortList, AcceptsAll, Hits, Step;
    var index := [0, q.topK];
    assert Prefix(q, index, active, 1) == Prefix(q, index, active, 0) + x;
    assert Prefix(q, index, active, 2) == Prefix(q, index, active, 1) + y;
    assert IsPivot(q, index, active, y, 1);
    assert active[..1] == [0];
    JumpStep(q, State(index, hits), active, 1, State([m + 1, q.topK], hits));
  }

  lemma TwoLastCursor(q: Query, x: real, y: real, z: real, m: nat, far: nat)
    requires TwoShape(q, x, y, z, m, far)
    ensures Arranged(q, [m + 1, q.topK], [1]) && KeyAt(q, [m + 1, q.topK], 1) == far && BoundAt(q, [m + 1, q.topK], 1) == y
    ensures HitAt(q, [m + 1, q.topK], far) == Hit(DocumentType, far, y, 1) && Passed(q, [m + 1, q.topK], far) == [m + 1, q.topK + 1]
  {
    var index := [m + 1, q.topK];
    assert Current(q, index, far) == [0.0, y];
    SumTwo(0.0, y);
    assert Standing(q, index, far) == {1};
    NextAt(q, q.lists[1], q.topK + 1, far + 1);
  }

  lemma TwoLast(q: Query, x: real, y: real, z: real, m: nat, far: nat)
    requires TwoShape(q, x, y, z, m, far)
    ensures var hits := Hits(q.topK, y, 1); Step(q, State([m + 1, q.topK], hits), State([m + 1, q.topK + 1], hits))
  {
    var hits, active := Hits(q.topK, y, 1), [1];
    var s, t := State([m + 1, q.topK], hits), State([m + 1, q.topK + 1], hits);
    TwoLastCursor(q, x, y, z, m, far);
    FullThreshold(q.topK, y, 1);
    hide Arranged, HitAt, Passed, KeyAt, BoundAt, Threshold, LongList, ShortList;
    assert Prefix(q, s.index, active, 1) == Prefix(q, s.index, active, 0) + y;
    assert IsPivot(q, s.index, active, y, 0);
    assert IsWorst(hits, q.topK - 1) && !Precedes(Hit(DocumentType, far, y, 1), hits[q.topK - 1]);
    assert Takes(q, s, far, t);
    assert StepBy(q, s, active, 0, t);
  }

  lemma TwoBest(q: Query, x: real, y: real, z: real, m: nat, far: nat)
    requires TwoShape(q, x, y, z, m, far)
    ensures Matches(q, q.topK + m) && Total(q, q.topK + m) == z
  {
    var key := q.topK + m;
    TwoFine(q, x, y, z, m, far);
    ItemOfAt(q.lists[0], m);
    assert !Has(q.lists[1], key);
    assert Scores(q, key) == [z, 0.0];
    SumTwo(z, 0.0);
  }

  lemma {:induction false} TwoTakes(q: Query, x: real, y: real, z: real, m: nat, far: nat, n: nat) returns (run: seq<State>)
    requires TwoShape(q, x, y, z, m, far) && n <= q.topK
    ensures Run(q, run) && run[|run| - 1] == State([0, n], Hits(n, y, 1))
  {
    hide Step, Initial, LongList, ShortList;
    if n == 0 {
      TwoStart(q, x, y, z, m, far);
      assert Hits(0, y, 1) == [];
      run := [State([0, 0], [])];
    } else {
      run := TwoTakes(q, x, y, z, m, far, n - 1);
      TwoTake(q, x, y, z, m, far, n - 1);
      Extended(q, run, State([0, n], Hits(n, y, 1)));
      run := run + [State([0, n], Hits(n, y, 1))];
    }
  }

  lemma TwoRun(q: Query, x: real, y: real, z: real, m: nat, far: nat) returns (run: seq<State>)
    requires TwoShape(q, x, y, z, m, far)
    ensures Run(q, run) && Finished(q, run[|run| - 1]) && run[|run| - 1].hits == Hits(q.topK, y, 1)
  {
    var k, hits := q.topK, Hits(q.topK, y, 1);
    var t, u := State([m + 1, k], hits), State([m + 1, k + 1], hits);
    assert Finished(q, u);
    hide Step, Run, Hits, LongList, ShortList, AcceptsAll, Finished;
    run := TwoTakes(q, x, y, z, m, far, k);
    TwoJump(q, x, y, z, m, far);
    RunNonEmpty(q, run);
    Extended(q, run, t);
    TwoLast(q, x, y, z, m, far);
    Extended(q, run + [t], u);
    run := run + [t] + [u];
  }

  // ---------------------------------------------------------------- every run over two lists

  lemma TwoActive(q: Query, index: seq<nat>, active: seq<nat>, first: nat, second: nat)
    requires |q.lists| == 2 && Arranged(q, index, active) && Alive(q, index, 0) && Alive(q, index, 1) && first < 2 && second == 1 - first
    requires KeyAt(q, index, first) < KeyAt(q, index, second)
    ensures active == [first, second]
  {
    hide KeyAt;
    assert 0 in active && 1 in active;
    assert Members(active) == {0, 1} by {
      forall t | t in {0, 1} ensures t in Members(active) { assert t in active; }
      forall a | 0 <= a < |active| ensures active[a] < 2 { assert Alive(q, index, active[a]); }
    }
    MembersSize(active);
  }

  lemma TwoTakesOnly(q: Query, x: real, y: real, z: real, m: nat, far: nat, i: nat, t: State)
    requires TwoShape(q, x, y, z, m, far) && i < q.topK && Step(q, State([0, i], Hits(i, y, 1)), t)
    ensures t == State([0, i + 1], Hits(i + 1, y, 1))
  {
    TwoAlive(q, x, y, z, m, far, i);
    TwoCursors(q, x, y, z, m, far, i);
    hide Hits, LongList, ShortList, HitAt, Passed, KeyAt, BoundAt;
    var s := State([0, i], Hits(i, y, 1));
    var active, pivot :| StepBy(q, s, active, pivot, t);
    TwoActive(q, s.index, active, 1, 0);
    assert Prefix(q, s.index, active, 1) == Prefix(q, s.index, active, 0) + y;
    assert pivot == 0;
    assert Hits(i, y, 1) + [Hit(DocumentType, i, y, 1)] == Hits(i + 1, y, 1);
  }

  lemma TwoAlive(q: Query, x: real, y: real, z: real, m: nat, far: nat, i: nat)
    requires TwoShape(q, x, y, z, m, far) && i <= q.topK
    ensures Alive(q, [0, i], 0) && Alive(q, [0, i], 1) && KeyAt(q, [0, i], 0) == q.topK
    ensures KeyAt(q, [0, i], 1) == if i < q.topK then i else far
  {
  }

  lemma TwoJumpsOnly(q: Query, x: real, y: real, z: real, m: nat, far: nat, t: State)
    requires TwoShape(q, x, y, z, m, far) && Step(q, State([0, q.topK], Hits(q.topK, y, 1)), t)
    ensures t == State([m + 1, q.topK], Hits(q.topK, y, 1))
  {
    TwoAlive(q, x, y, z, m, far, q.topK);
    TwoArranged(q, x, y, z, m, far);
    FullThreshold(q.topK, y, 1);
    hide Hits, LongList, ShortList, KeyAt, BoundAt, Threshold, Advanced, AcceptsAll;
    var s := State([0, q.topK], Hits(q.topK, y, 1));
    var active, pivot :| StepBy(q, s, active, pivot, t);
    TwoActive(q, s.index, active, 0, 1);
    assert Prefix(q, s.index, active, 1) == Prefix(q, s.index, active, 0) + x;
    assert Prefix(q, s.index, active, 2) == Prefix(q, s.index, active, 1) + y;
    assert pivot == 1 && active[..1] == [0];
  }

  lemma TwoLastOnly(q: Query, x: real, y: real, z: real, m: nat, far: nat, t: State)
    requires TwoShape(q, x, y, z, m, far) && Step(q, State([m + 1, q.topK], Hits(q.topK, y, 1)), t)
    ensures t == State([m + 1, q.topK + 1], Hits(q.topK, y, 1))
  {
    TwoLastCursor(q, x, y, z, m, far);
    TwoLastAlone(q, x, y, z, m, far, [m + 1, q.topK]);
    FullThreshold(q.topK, y, 1);
    hide LongList, ShortList, KeyAt, BoundAt, Threshold, HitAt, Passed;
    var s := State([m + 1, q.topK], Hits(q.topK, y, 1));
    var active, pivot :| StepBy(q, s, active, pivot, t);
    AloneIsAll(q, s.index, active, 1);
    assert Prefix(q, s.index, active, 1) == Prefix(q, s.index, active, 0) + y;
    assert pivot == 0;
    forall worst: nat | IsWorst(s.hits, worst) ensures !Precedes(Hit(DocumentType, far, y, 1), s.hits[worst]) {
    }
  }

  lemma TwoLastAlone(q: Query, x: real, y: real, z: real, m: nat, far: nat, index: seq<nat>)
    requires TwoShape(q, x, y, z, m, far) && index == [m + 1, q.topK]
    ensures forall t :: 0 <= t < |q.lists| ==> (Alive(q, index, t) <==> t == 1)
  {
  }

  ghost predicate TwoStage(q: Query, y: real, m: nat, n: nat, s: State) {
    var k := q.topK;
    if n <= k then s == State([0, n], Hits(n, y, 1))
    else n <= k + 2 && s == State([m + 1, n - 1], Hits(k, y, 1))
  }

  lemma {:induction false} TwoRunIs(q: Query, x: real, y: real, z: real, m: nat, far: nat, run: seq<State>, n: nat)
    requires TwoShape(q, x, y, z, m, far) && Run(q, run) && n < |run|
    ensures TwoStage(q, y, m, n, run[n])
  {
    hide Step, Hits, LongList, ShortList, AcceptsAll, Initial;
    if n == 0 {
      TwoStart(q, x, y, z, m, far);
      OneStart(q, State([0, 0], []), run[0]);
      assert Hits(0, y, 1) == [];
    } else {
      TwoRunIs(q, x, y, z, m, far, run, n - 1);
      var s, t, k := run[n - 1], run[n], q.topK;
      assert Step(q, s, t);
      if n - 1 < k {
        TwoTakesOnly(q, x, y, z, m, far, n - 1, t);
      } else if n - 1 == k {
        TwoJumpsOnly(q, x, y, z, m, far, t);
      } else if n - 1 == k + 1 {
        TwoLastOnly(q, x, y, z, m, far, t);
      } else {
        TwoEnd(q, x, y, z, m, far, s);
        NoStepAfterEnd(q, s, t);
        assert false;
      }
    }
  }

  lemma TwoEnd(q: Query, x: real, y: real, z: real, m: nat, far: nat, s: State)
    requires TwoShape(q, x, y, z, m, far)
    ensures s.index == [m + 1, q.topK + 1] ==> Finished(q, s)
    ensures forall a: nat, b: nat :: b <= q.topK && s.index == [a, b] ==> !Finished(q, s)
  {
  }

  lemma TwoRunsEnd(q: Query, x: real, y: real, z: real, m: nat, far: nat, run: seq<State>)
    requires TwoShape(q, x, y, z, m, far) && Complete(q, run)
    ensures run[|run| - 1].hits == Hits(q.topK, y, 1)
  {
    hide Run, Finished, Hits, LongList, ShortList, AcceptsAll;
    RunNonEmpty(q, run);
    var n := |run| - 1;
    TwoRunIs(q, x, y, z, m, far, run, n);
    TwoEnd(q, x, y, z, m, far, run[n]);
  }

  /**
   Two terms, one with a bound that rises in a later block, any number of places: there are complete
   runs, and every one of them loses the best object.
   */
  lemma TwoBlocksLose(q: Query, x: real, y: real, z: real, m: nat, far: nat)
    requires TwoShape(q, x, y, z, m, far)
    ensures QueryOk(q) && BoundsOk(q) && Loses(q)
  {
    TwoFine(q, x, y, z, m, far);
    TwoBest(q, x, y, z, m, far);
    hide Run, Finished, Matches, Total, QueryOk, BoundsOk, AllMatches, LongList, ShortList, AcceptsAll, IsTop, Sort;
    var run := TwoRun(q, x, y, z, m, far);
    assert Complete(q, run);
    forall run: seq<State> | Complete(q, run) ensures !Answered(q, run) {
      RunNonEmpty(q, run);
      TwoRunsEnd(q, x, y, z, m, far, run);
      NotTop(q, Hits(q.topK, y, 1), q.topK + m);
    }
  }

  // ---------------------------------------------------------------- which queries can be relied on

  /**
   The queries a caller can tell apart beforehand: how many terms were found, how many places there
   are, whether every list has one bound, and whether the matches are known to fit the places.
   */
  ghost predicate OfKind(q: Query, terms: nat, places: nat, oneBound: bool, few: bool) {
    && QueryOk(q) && BoundsOk(q) && |q.lists| == terms && q.topK == places
    && (oneBound ==> E.OneBlockEach(q)) && (few ==> E.FewMatches(q))
  }

  function AcceptAll(objectType: nat, ordinal: nat): bool {
    true
  }

  function RareItems(k: nat): (list: seq<Item>)
    ensures RareList(list, 1.0, k)
  {
    seq(k + 1, i requires 0 <= i <= k => Item(i, 1.0, 1.0, []))
  }

  function HeavyItems(k: nat): (list: seq<Item>)
    ensures HeavyList(list, 1.0, 1.75, k)
  {
    seq(k + 1, i requires 0 <= i <= k => if i < k then Item(i, 1.0, 1.75, []) else Item(k + 1, 1.75, 1.75, []))
  }

  /** The three lists and as many more as asked for, each of one passage. */
  function ThreeQuery(terms: nat, k: nat): Query
    requires terms >= 3
  {
    Query([RareItems(k), HeavyItems(k), HeavyItems(k)] + seq(terms - 3, t => [Item(TypeBit, 0.0, 0.0, [])]),
          DocumentType, k, AcceptAll, false, [0])
  }

  lemma ThreeQueryShape(terms: nat, k: nat)
    requires terms >= 3 && 0 < k && k + 1 < TypeBit
    ensures var q := ThreeQuery(terms, k); ThreeShape(q, 1.0, 1.75) && |q.lists| == terms && q.topK == k && E.OneBlockEach(q)
  {
    hide RareItems, HeavyItems;
    var q := ThreeQuery(terms, k);
    assert forall t :: 3 <= t < |q.lists| ==> q.lists[t] == [Item(TypeBit, 0.0, 0.0, [])];
    assert q.lists[0] == RareItems(k) && q.lists[1] == q.lists[2] == HeavyItems(k);
    forall t, i, j | 0 <= t < |q.lists| && 0 <= i < |q.lists[t]| && 0 <= j < |q.lists[t]| ensures q.lists[t][i].bound == q.lists[t][j].bound {
    }
  }

  function TwoQuery(k: nat): Query {
    Query([[Item(k, 1.0, 1.0, []), Item(k + 1, 3.0, 3.0, [])],
           seq(k + 1, i requires 0 <= i <= k => Item(if i < k then i else k + 2, 2.0, 2.0, []))],
          DocumentType, k, AcceptAll, false, [0])
  }

  lemma TwoQueryShape(k: nat)
    requires 0 < k && k + 2 < TypeBit
    ensures TwoShape(TwoQuery(k), 1.0, 2.0, 3.0, 1, k + 2) && TwoQuery(k).topK == k
  {
  }

  /**
   The kinds whose queries are always answered exactly are one term, two terms with one bound each,
   and no more matches than places.  Every other kind has a query of which no run gives the answer.
   */
  lemma ReliableKinds(terms: nat, places: nat, oneBound: bool, few: bool)
    requires terms > 0 && 0 < places && places + 2 < TypeBit
    ensures var reliable := terms == 1 || (terms == 2 && oneBound) || few;
      && (reliable <==> forall q :: OfKind(q, terms, places, oneBound, few) ==> AlwaysAnswered(q))
      && (!reliable <==> exists q :: OfKind(q, terms, places, oneBound, few) && Loses(q))
  {
    hide Loses, AlwaysAnswered, QueryOk, BoundsOk, ThreeShape, TwoShape;
    if terms == 1 || (terms == 2 && oneBound) || few {
      forall q | OfKind(q, terms, places, oneBound, few) ensures AlwaysAnswered(q) && !Loses(q) {
        TopKPositive(q);
        TameIsAnswered(q);
        NotBoth(q);
      }
    } else {
      var q := LosingQuery(terms, places, oneBound, few);
      NotBoth(q);
    }
  }

  lemma LosingQuery(terms: nat, places: nat, oneBound: bool, few: bool) returns (q: Query)
    requires terms > 1 && !(terms == 2 && oneBound) && !few && 0 < places && places + 2 < TypeBit
    ensures OfKind(q, terms, places, oneBound, few) && q.topK > 0 && Loses(q)
  {
    hide Loses, ThreeShape, TwoShape, QueryOk, BoundsOk;
    if terms >= 3 {
      ThreeQueryShape(terms, places);
      q := ThreeQuery(terms, places);
      ThreeTermsLose(q, 1.0, 1.75);
    } else {
      TwoQueryShape(places);
      q := TwoQuery(places);
      TwoBlocksLose(q, 1.0, 2.0, 3.0, 1, places + 2);
    }
  }

  lemma NotBoth(q: Query)
    requires q.topK > 0
    ensures !(Loses(q) && AlwaysAnswered(q))
  {
  }

  lemma TameIsAnswered(q: Query)
    requires QueryOk(q) && BoundsOk(q) && E.Tame(q)
    ensures AlwaysAnswered(q)
  {
    hide Step, Initial, Finished, IsTop, QueryOk, BoundsOk, E.Tame, AllMatches;
    TopKPositive(q);
    forall run: seq<State> | Complete(q, run) ensures Answered(q, run) {
      E.PruningIsExact(q, run);
    }
  }

  lemma TopKPositive(q: Query)
    requires QueryOk(q)
    ensures q.topK > 0
  {
  }
}
