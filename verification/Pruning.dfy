/**
 Disjunctive search with block-bound pruning, as a step relation over cursors and hit buffer, and
 the conditions under which pruning loses nothing.
 */
module Pruning {
  import opened TopHits
  import opened MatchLists

  datatype State = State(index: seq<nat>, hits: seq<Hit>)

  /** An object to rank: wanted, accepted and with a positive score over all its terms. */
  ghost predicate Matches(q: Query, key: nat) {
    WantedKey(q, key) && q.accept(TypeOf(key), OrdinalOf(key)) && Total(q, key) > 0.0
  }

  ghost function AllKeys(q: Query): set<nat> {
    set t, i | 0 <= t < |q.lists| && 0 <= i < |q.lists[t]| :: q.lists[t][i].key
  }

  ghost function HitsOf(q: Query, keys: set<nat>): set<Hit> {
    set k | k in keys && Matches(q, k) :: HitFor(q, k)
  }

  /** Everything a disjunctive search should rank. */
  ghost function AllMatches(q: Query): set<Hit> {
    HitsOf(q, AllKeys(q))
  }

  /** An object with a positive total is in some list. */
  lemma MatchIsListed(q: Query, key: nat)
    requires Matches(q, key)
    ensures key in AllKeys(q) && HitFor(q, key) in AllMatches(q)
  {
    if t :| 0 <= t < |q.lists| && Has(q.lists[t], key) {
      var i :| 0 <= i < |q.lists[t]| && q.lists[t][i].key == key;
    } else {
      SumZeros(Scores(q, key));
    }
  }

  /** The bound of a list covers its wanted postings from the cursor's block. */
  predicate BoundsOk(q: Query) {
    forall t, i :: 0 <= t < |q.lists| && 0 <= i < |q.lists[t]| ==>
      q.lists[t][i].bound >= 0.0 && (WantedKey(q, q.lists[t][i].key) ==> q.lists[t][i].score <= q.lists[t][i].bound)
  }

  // ---------------------------------------------------------------- one step

  function BoundAt(q: Query, index: seq<nat>, t: nat): real
    requires |index| == |q.lists| && Alive(q, index, t)
  {
    q.lists[t][index[t]].bound
  }

  /** Sum of the bounds of the first n live cursors. */
  function Prefix(q: Query, index: seq<nat>, active: seq<nat>, n: nat): real
    requires Arranged(q, index, active) && n <= |active|
  {
    if n == 0 then 0.0 else Prefix(q, index, active, n - 1) + BoundAt(q, index, active[n - 1])
  }

  predicate Reaches(bound: real, threshold: real) {
    bound >= threshold && bound > 0.0
  }

  /** The first cursor at which the accumulated bounds reach the threshold. */
  ghost predicate IsPivot(q: Query, index: seq<nat>, active: seq<nat>, threshold: real, pivot: nat)
    requires Arranged(q, index, active)
  {
    && pivot <= |active|
    && (pivot < |active| ==> Reaches(Prefix(q, index, active, pivot + 1), threshold))
    && (forall n :: 0 < n <= pivot ==> !Reaches(Prefix(q, index, active, n), threshold))
  }

  method FindPivot(q: Query, index: seq<nat>, active: seq<nat>, threshold: real) returns (pivot: nat)
    requires Arranged(q, index, active)
    ensures IsPivot(q, index, active, threshold, pivot)
  {
    var bound := 0.0;
    pivot := 0;
    while pivot < |active|
      invariant pivot <= |active| && bound == Prefix(q, index, active, pivot)
      invariant forall n :: 0 < n <= pivot ==> !Reaches(Prefix(q, index, active, n), threshold)
    {
      bound := bound + q.lists[active[pivot]][index[active[pivot]]].bound;
      assert bound == Prefix(q, index, active, pivot + 1);
      if bound >= threshold && bound > 0.0 {
        return;
      }
      pivot := pivot + 1;
    }
  }

  /** Every cursor in front of the pivot steps and goes on to the pivot's key, even one already on it. */
  function Advanced(q: Query, index: seq<nat>, front: seq<nat>, key: nat): seq<nat>
    requires |index| == |q.lists|
  {
    seq(|index|, t requires 0 <= t < |index| =>
      if t in front && Alive(q, index, t) then NextFrom(q, q.lists[t], index[t] + 1, key) else index[t])
  }

  /** The hit formed from the cursors that stand on the key. */
  function HitAt(q: Query, index: seq<nat>, key: nat): Hit
    requires |index| == |q.lists|
  {
    Hit(TypeOf(key), OrdinalOf(key), Sum(Current(q, index, key)), |Standing(q, index, key)|)
  }

  ghost predicate Offered(q: Query, hits: seq<Hit>, hit: Hit, after: seq<Hit>) {
    if q.accept(hit.objectType, hit.ordinal) && hit.score > 0.0 then Added(hits, q.topK, hit, after) else after == hits
  }

  ghost predicate Skips(q: Query, s: State, active: seq<nat>, t: State)
    requires Arranged(q, s.index, active) && |active| > 0
  {
    t == State(Advanced(q, s.index, [active[0]], 0), s.hits)
  }

  ghost predicate Jumps(q: Query, s: State, active: seq<nat>, pivot: nat, t: State)
    requires Arranged(q, s.index, active) && pivot < |active|
  {
    t == State(Advanced(q, s.index, active[..pivot], KeyAt(q, s.index, active[pivot])), s.hits)
  }

  ghost predicate Takes(q: Query, s: State, key: nat, t: State)
    requires |s.index| == |q.lists|
  {
    t.index == Passed(q, s.index, key) && Offered(q, s.hits, HitAt(q, s.index, key), t.hits)
  }

  /** One turn of the loop, for some order of the live cursors. */
  ghost predicate StepBy(q: Query, s: State, active: seq<nat>, pivot: nat, t: State)
    requires q.topK > 0
  {
    && Arranged(q, s.index, active) && |active| > 0 && pivot <= |active|
    && IsPivot(q, s.index, active, Threshold(s.hits, q.topK), pivot)
    && if pivot == |active| then Skips(q, s, active, t)
       else if KeyAt(q, s.index, active[0]) != KeyAt(q, s.index, active[pivot]) then Jumps(q, s, active, pivot, t)
       else Takes(q, s, KeyAt(q, s.index, active[pivot]), t)
  }

  ghost predicate Step(q: Query, s: State, t: State)
    requires q.topK > 0
  {
    exists active, pivot :: StepBy(q, s, active, pivot, t)
  }

  ghost predicate Initial(q: Query, s: State) {
    |s.index| == |q.lists| && s.hits == [] && forall t :: 0 <= t < |s.index| ==> s.index[t] == NextFrom(q, q.lists[t], 0, 0)
  }

  ghost predicate Finished(q: Query, s: State) {
    |s.index| == |q.lists| && forall t :: 0 <= t < |s.index| ==> s.index[t] == |q.lists[t]|
  }

  /** A search: turns of the loop from the start until every list is used up. */
  ghost predicate Run(q: Query, run: seq<State>)
    requires q.topK > 0
  {
    && |run| > 0 && Initial(q, run[0])
    && forall i, j :: 0 <= i < j < |run| && j == i + 1 ==> Step(q, run[i], run[j])
  }

  // ---------------------------------------------------------------- the search

  lemma AdvancedIndexed(q: Query, index: seq<nat>, front: seq<nat>, key: nat)
    requires Indexed(q, index)
    ensures Indexed(q, Advanced(q, index, front, key))
    ensures forall u :: 0 <= u < |index| ==> index[u] <= Advanced(q, index, front, key)[u]
  {
  }

  lemma AdvancedOne(q: Query, index: seq<nat>, first: nat, key: nat)
    requires |index| == |q.lists| && Alive(q, index, first)
    ensures Advanced(q, index, [first], key) == index[first := NextFrom(q, q.lists[first], index[first] + 1, key)]
  {
  }

  lemma PassedIndexed(q: Query, index: seq<nat>, key: nat)
    requires Indexed(q, index)
    ensures Indexed(q, Passed(q, index, key))
  {
  }

  lemma AdvancedProgress(q: Query, index: seq<nat>, front: seq<nat>, key: nat)
    requires Indexed(q, index) && |front| > 0 && Alive(q, index, front[0])
    ensures Indexed(q, Advanced(q, index, front, key)) && Left(q, Advanced(q, index, front, key)) < Left(q, index)
  {
    AdvancedIndexed(q, index, front, key);
    LeftDecreases(q, index, Advanced(q, index, front, key), front[0]);
  }

  method AdvanceFront(q: Query, index: seq<nat>, front: seq<nat>, key: nat) returns (moved: seq<nat>)
    requires |index| == |q.lists|
    requires forall a :: 0 <= a < |front| ==> Alive(q, index, front[a])
    requires forall a, b :: 0 <= a < b < |front| ==> front[a] != front[b]
    ensures moved == Advanced(q, index, front, key)
  {
    hide Advanced, NextFrom;
    moved := index;
    AdvancedNone(q, index, key);
    for i := 0 to |front|
      invariant moved == Advanced(q, index, front[..i], key)
    {
      AdvancedStep(q, index, front, i, key);
      var t := front[i];
      var next := AdvanceTo(q, q.lists[t], moved[t], key);
      moved := moved[t := next];
    }
    assert front[..|front|] == front;
  }

  lemma AdvancedNone(q: Query, index: seq<nat>, key: nat)
    requires |index| == |q.lists|
    ensures Advanced(q, index, [], key) == index
  {
  }

  lemma AdvancedStep(q: Query, index: seq<nat>, front: seq<nat>, i: nat, key: nat)
    requires |index| == |q.lists| && i < |front| && Alive(q, index, front[i])
    requires forall a, b :: 0 <= a < b < |front| ==> front[a] != front[b]
    ensures var before, t := Advanced(q, index, front[..i], key), front[i];
      && |before| == |index| && before[t] == index[t]
      && Advanced(q, index, front[..i + 1], key) == before[t := NextFrom(q, q.lists[t], index[t] + 1, key)]
  {
    hide NextFrom;
    assert front[i] !in front[..i] && front[..i + 1] == front[..i] + [front[i]];
  }

  /** One turn of the loop. */
  method Turn(q: Query, s: State, active: seq<nat>) returns (t: State)
    requires QueryOk(q) && Indexed(q, s.index) && Arranged(q, s.index, active) && |active| > 0
    ensures Step(q, s, t) && Indexed(q, t.index) && Left(q, t.index) < Left(q, s.index)
  {
    hide Left;
    var threshold := HitThreshold(s.hits, q.topK);
    var pivot := FindPivot(q, s.index, active, threshold);
    var index;
    if pivot == |active| {
      index := AdvanceFront(q, s.index, [active[0]], 0);
      t := State(index, s.hits);
      AdvancedProgress(q, s.index, [active[0]], 0);
    } else {
      var key := KeyAt(q, s.index, active[pivot]);
      if KeyAt(q, s.index, active[0]) != key {
        index := AdvanceFront(q, s.index, active[..pivot], key);
        t := State(index, s.hits);
        AdvancedProgress(q, s.index, active[..pivot], key);
      } else {
        var score, matched;
        index, score, matched := Evaluate(q, s.index, active, key);
        var hits := s.hits;
        if q.accept(TypeOf(key), OrdinalOf(key)) && score > 0.0 {
          hits := AddHit(hits, q.topK, Hit(TypeOf(key), OrdinalOf(key), score, matched));
        }
        t := State(index, hits);
        PassedIndexed(q, s.index, key);
        PassedProgress(q, s.index, key, active[0]);
      }
    }
    assert StepBy(q, s, active, pivot, t);
  }

  lemma NoneAlive(q: Query, s: State)
    requires Indexed(q, s.index) && Arranged(q, s.index, [])
    ensures Finished(q, s)
  {
    forall t | 0 <= t < |s.index| ensures s.index[t] == |q.lists[t]| {
      assert !Alive(q, s.index, t);
    }
  }

  /** The answer is the sorted buffer at the end of a complete run. */
  ghost predicate Answers(q: Query, run: seq<State>, r: seq<Hit>)
    requires q.topK > 0
  {
    Run(q, run) && Finished(q, run[|run| - 1]) && r == Sort(run[|run| - 1].hits)
  }

  method SearchAny(q: Query) returns (r: seq<Hit>)
    requires QueryOk(q)
    ensures exists run :: Answers(q, run, r)
  {
    var index := Start(q);
    var s := State(index, []);
    ghost var run := [s];
    while true
      invariant Indexed(q, s.index) && Run(q, run) && run[|run| - 1] == s
      decreases Left(q, s.index)
    {
      var active := Arrange(q, s.index);
      if |active| == 0 {
        NoneAlive(q, s);
        break;
      }
      var t := Turn(q, s, active);
      ghost var longer := run + [t];
      forall i, j | 0 <= i < j < |longer| && j == i + 1 ensures Step(q, longer[i], longer[j]) {
        if j < |run| { assert Step(q, run[i], run[j]); }
      }
      run, s := longer, t;
    }
    r := Sort(s.hits);
    assert Answers(q, run, r);
  }
}
