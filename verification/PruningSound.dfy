/** What holds of disjunctive search for every query, exact or not: it never invents or overstates a hit. */
module PruningSound {
  import opened TopHits
  import opened MatchLists
  import opened Pruning
  import opened Probing
  import E = PruningExact

  /** The hit describes a wanted, accepted object in front of d, with at most the score and the terms it deserves. */
  ghost predicate Real(q: Query, h: Hit, d: nat) {
    exists k: nat :: k < d && h.objectType == TypeOf(k) && h.ordinal == OrdinalOf(k) && WantedKey(q, k)
      && q.accept(TypeOf(k), OrdinalOf(k)) && 0.0 < h.score <= Total(q, k) && 0 < h.matchedTerms <= |Holders(q, k)|
  }

  ghost predicate Sound(q: Query, s: State, d: nat) {
    && Indexed(q, s.index) && E.CursorsFrom(q, s.index, d) && DistinctObjects(s.hits)
    && forall i :: 0 <= i < |s.hits| ==> Real(q, s.hits[i], d)
  }

  lemma RealLater(q: Query, h: Hit, d: nat, e: nat)
    requires Real(q, h, d) && d <= e
    ensures Real(q, h, e)
  {
  }

  lemma RealElsewhere(q: Query, h: Hit, d: nat, key: nat)
    requires Real(q, h, d) && d <= key
    ensures !(h.objectType == TypeOf(key) && h.ordinal == OrdinalOf(key))
  {
  }

  lemma AddedMembers(hits: seq<Hit>, k: nat, hit: Hit, after: seq<Hit>)
    requires Added(hits, k, hit, after) && DistinctObjects(hits) && forall i :: 0 <= i < |hits| ==> !SameObject(hits[i], hit)
    ensures DistinctObjects(after) && forall i :: 0 <= i < |after| ==> after[i] == hit || after[i] in hits
  {
  }

  /** The cursors on an object are some of the terms that have it, and a score needs one of them. */
  lemma PartialHolders(q: Query, index: seq<nat>, key: nat)
    requires Indexed(q, index)
    ensures |Standing(q, index, key)| <= |Holders(q, key)|
    ensures Sum(Current(q, index, key)) > 0.0 ==> |Standing(q, index, key)| > 0
  {
    forall t | t in Standing(q, index, key) ensures t in Holders(q, key) {
      assert q.lists[t][index[t]].key == key;
    }
    SubsetSize(Standing(q, index, key), Holders(q, key));
    if Standing(q, index, key) == {} {
      forall t | 0 <= t < |index| ensures Current(q, index, key)[t] == 0.0 {
        assert t !in Standing(q, index, key);
      }
      SumZeros(Current(q, index, key));
    }
  }

  lemma OfferedSound(q: Query, s: State, key: nat, after: seq<Hit>, d: nat)
    requires QueryOk(q) && Sound(q, s, d) && d <= key && WantedKey(q, key) && Offered(q, s.hits, HitAt(q, s.index, key), after)
    ensures DistinctObjects(after) && forall i :: 0 <= i < |after| ==> Real(q, after[i], key + 1)
  {
    var hit := HitAt(q, s.index, key);
    E.PartialScore(q, s.index, key);
    PartialHolders(q, s.index, key);
    forall i | 0 <= i < |s.hits| ensures Real(q, s.hits[i], key + 1) && !SameObject(s.hits[i], hit) {
      RealLater(q, s.hits[i], d, key + 1);
      RealElsewhere(q, s.hits[i], d, key);
    }
    if q.accept(hit.objectType, hit.ordinal) && hit.score > 0.0 {
      assert Real(q, hit, key + 1);
      hide Real, HitAt, SameObject;
      AddedMembers(s.hits, q.topK, hit, after);
    }
  }

  lemma MoveSound(q: Query, s: State, t: State, d: nat)
    requires QueryOk(q) && Sound(q, s, d) && Indexed(q, t.index) && t.hits == s.hits
    requires forall u :: 0 <= u < |t.index| ==> s.index[u] <= t.index[u]
    ensures Sound(q, t, d)
  {
    hide Real, DistinctObjects;
    forall u | 0 <= u < |t.index| && Alive(q, t.index, u) ensures d <= KeyAt(q, t.index, u) {
      assert Alive(q, s.index, u);
    }
  }

  lemma TakeSound(q: Query, s: State, active: seq<nat>, pivot: nat, t: State, d: nat)
    requires QueryOk(q) && Sound(q, s, d) && StepBy(q, s, active, pivot, t)
    requires pivot < |active| && KeyAt(q, s.index, active[0]) == KeyAt(q, s.index, active[pivot])
    ensures Sound(q, t, KeyAt(q, s.index, active[pivot]) + 1)
  {
    var key := KeyAt(q, s.index, active[pivot]);
    E.FirstIsLowest(q, s.index, active);
    assert Alive(q, s.index, active[0]) && d <= key && WantedKey(q, key);
    PassedIndexed(q, s.index, key);
    E.PassedCursors(q, s.index, key);
    hide Real, DistinctObjects, IsPivot;
    OfferedSound(q, s, key, t.hits, d);
  }

  lemma StepSound(q: Query, s: State, t: State, d: nat) returns (e: nat)
    requires QueryOk(q) && Sound(q, s, d) && Step(q, s, t)
    ensures Sound(q, t, e)
  {
    hide Real, DistinctObjects, IsPivot, Skips, Jumps, Takes;
    var active, pivot :| StepBy(q, s, active, pivot, t);
    if pivot == |active| || KeyAt(q, s.index, active[0]) != KeyAt(q, s.index, active[pivot]) {
      E.MoveIndexed(q, s, active, pivot, t);
      MoveSound(q, s, t, d);
      e := d;
    } else {
      TakeSound(q, s, active, pivot, t, d);
      e := KeyAt(q, s.index, active[pivot]) + 1;
    }
  }

  lemma {:induction false} RunSound(q: Query, run: seq<State>, n: nat) returns (d: nat)
    requires QueryOk(q) && Run(q, run) && n < |run|
    ensures Sound(q, run[n], d)
  {
    if n == 0 {
      d := 0;
    } else {
      hide Sound, Step, Initial;
      d := RunSound(q, run, n - 1);
      d := StepSound(q, run[n - 1], run[n], d);
    }
  }

  ghost predicate RealHit(q: Query, h: Hit) {
    exists k: nat :: h.objectType == TypeOf(k) && h.ordinal == OrdinalOf(k) && WantedKey(q, k)
      && q.accept(TypeOf(k), OrdinalOf(k)) && 0.0 < h.score <= Total(q, k) && 0 < h.matchedTerms <= |Holders(q, k)|
  }

  /**
   For every query, whatever the number of terms and blocks: each hit in the answer is a wanted,
   accepted object with a positive score that is at most its true one, over no more terms than it
   has, and no object comes twice.
   */
  lemma AnswersAreReal(q: Query, run: seq<State>)
    requires QueryOk(q) && Run(q, run)
    ensures var answer := Sort(run[|run| - 1].hits); DistinctObjects(answer) && forall h :: h in answer ==> RealHit(q, h)
  {
    var hits := run[|run| - 1].hits;
    var d := RunSound(q, run, |run| - 1);
    SortCorrect(hits);
    forall h | h in Sort(hits) ensures RealHit(q, h) {
      var m :| 0 <= m < |hits| && hits[m] == h;
      assert Real(q, hits[m], d);
    }
    forall i, j | 0 <= i < j < |Sort(hits)| ensures !SameObject(Sort(hits)[i], Sort(hits)[j]) { SortedApart(hits, i, j); }
  }

  lemma SortedApart(hits: seq<Hit>, i: nat, j: nat)
    requires DistinctObjects(hits) && i < |Sort(hits)| && j < |Sort(hits)| && i != j
    ensures !SameObject(Sort(hits)[i], Sort(hits)[j])
  {
    SortCorrect(hits);
    var r := Sort(hits);
    assert r[i] in hits && r[j] in hits;
    assert r[i] != r[j] by { assert i < j ==> Precedes(r[i], r[j]); assert j < i ==> Precedes(r[j], r[i]); }
    var a :| 0 <= a < |hits| && hits[a] == r[i];
    var b :| 0 <= b < |hits| && hits[b] == r[j];
    assert a < b || b < a;
  }

  lemma SortKeepsSize(q: Query, run: seq<State>)
    requires QueryOk(q) && Run(q, run)
    ensures |Sort(run[|run| - 1].hits)| == |run[|run| - 1].hits|
  {
    var d := RunSound(q, run, |run| - 1);
    SortCorrect(run[|run| - 1].hits);
  }
}
