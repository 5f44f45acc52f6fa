/** When disjunctive search returns the exact answer. */
module PruningExact {
  import opened TopHits
  import opened MatchLists
  import opened Probing
  import opened Pruning

  // ---------------------------------------------------------------- the invariant

  /** Leaving the object out changes nothing: it is no match, or every hit held beats it. */
  ghost predicate Harmless(q: Query, hits: seq<Hit>, key: nat) {
    !Matches(q, key) || (|hits| == q.topK && forall i :: 0 <= i < |hits| ==> hits[i].score > Total(q, key))
  }

  /** Every wanted object some cursor has passed is settled. */
  ghost predicate PassedSettled(q: Query, index: seq<nat>, settled: set<nat>)
    requires Indexed(q, index)
  {
    forall t, i :: 0 <= t < |index| && 0 <= i < index[t] && WantedKey(q, q.lists[t][i].key) ==> q.lists[t][i].key in settled
  }

  ghost predicate CursorsFrom(q: Query, index: seq<nat>, d: nat)
    requires Indexed(q, index)
  {
    forall t :: 0 <= t < |index| && Alive(q, index, t) ==> d <= KeyAt(q, index, t)
  }

  /** Settled objects were evaluated in full in front of d, or are harmless. */
  ghost predicate Exact(q: Query, s: State, settled: set<nat>, d: nat) {
    && Indexed(q, s.index) && PassedSettled(q, s.index, settled) && CursorsFrom(q, s.index, d)
    && (forall k :: k in settled ==> k < d || Harmless(q, s.hits, k))
    && HoldsTop(s.hits, HitsOf(q, settled), q.topK)
  }

  lemma HitsOfDistinct(q: Query, keys: set<nat>)
    ensures OnePerObject(HitsOf(q, keys))
  {
    forall a, b | a in HitsOf(q, keys) && b in HitsOf(q, keys) && SameObject(a, b) ensures a == b {
      var j :| j in keys && Matches(q, j) && a == HitFor(q, j);
      var k :| k in keys && Matches(q, k) && b == HitFor(q, k);
      SameHitSameKey(q, j, k);
    }
  }

  /** Harmless objects can be settled without being looked at. */
  lemma SettleHarmless(q: Query, hits: seq<Hit>, settled: set<nat>, more: set<nat>)
    requires HoldsTop(hits, HitsOf(q, settled), q.topK) && forall k :: k in more ==> k in settled || Harmless(q, hits, k)
    ensures HoldsTop(hits, HitsOf(q, settled + more), q.topK)
  {
    forall h | h in HitsOf(q, settled + more) && h !in HitsOf(q, settled)
      ensures |hits| == q.topK && forall i :: 0 <= i < |hits| ==> Precedes(hits[i], h)
    {
      var k :| k in settled + more && Matches(q, k) && h == HitFor(q, k);
      assert k in more && Harmless(q, hits, k);
    }
    assert HitsOf(q, settled) <= HitsOf(q, settled + more);
  }

  // ---------------------------------------------------------------- moving cursors without evaluating

  /** The wanted objects between the old and the new cursors. */
  ghost function Between(q: Query, index: seq<nat>, moved: seq<nat>): set<nat>
    requires Indexed(q, index) && Indexed(q, moved)
  {
    set t, i | 0 <= t < |index| && index[t] <= i < moved[t] && WantedKey(q, q.lists[t][i].key) :: q.lists[t][i].key
  }

  lemma MoveKeeps(q: Query, s: State, moved: seq<nat>, settled: set<nat>, d: nat)
    requires QueryOk(q) && Exact(q, s, settled, d) && Indexed(q, moved)
    requires forall t :: 0 <= t < |moved| ==> s.index[t] <= moved[t]
    requires forall k :: k in Between(q, s.index, moved) ==> k in settled || Harmless(q, s.hits, k)
    ensures Exact(q, State(moved, s.hits), settled + Between(q, s.index, moved), d)
  {
    SettleHarmless(q, s.hits, settled, Between(q, s.index, moved));
    forall t | 0 <= t < |moved| && Alive(q, moved, t) ensures d <= KeyAt(q, moved, t) {
      assert Alive(q, s.index, t);
    }
  }

  /** An unsettled object stands under, or still lies behind, every cursor whose list has it. */
  lemma UnsettledAhead(q: Query, s: State, settled: set<nat>, d: nat, key: nat, t: nat, i: nat)
    requires Exact(q, s, settled, d) && WantedKey(q, key) && key !in settled
    requires t < |q.lists| && i < |q.lists[t]| && q.lists[t][i].key == key
    ensures s.index[t] <= i
  {
  }

  lemma UnsettledIsUnderCursors(q: Query, s: State, settled: set<nat>, d: nat, key: nat)
    requires QueryOk(q) && Exact(q, s, settled, d) && WantedKey(q, key) && key !in settled
    requires CursorsFrom(q, s.index, key)
    ensures forall t :: 0 <= t < |q.lists| && Has(q.lists[t], key) ==> AtKey(q, s.index, t, key)
  {
    forall t | 0 <= t < |q.lists| && Has(q.lists[t], key) ensures AtKey(q, s.index, t, key) {
      var i :| 0 <= i < |q.lists[t]| && q.lists[t][i].key == key;
      UnsettledAhead(q, s, settled, d, key, t, i);
      assert Alive(q, s.index, t);
    }
  }

  // ---------------------------------------------------------------- evaluating an object

  /** The cursors never see more than the full score. */
  lemma PartialScore(q: Query, index: seq<nat>, key: nat)
    requires QueryOk(q) && Indexed(q, index)
    ensures Sum(Current(q, index, key)) <= Total(q, key)
  {
    forall t | 0 <= t < |index| ensures Current(q, index, key)[t] <= Scores(q, key)[t] {
      if AtKey(q, index, t, key) {
        ItemOfAt(q.lists[t], index[t]);
      }
    }
    SumMonotone(Current(q, index, key), Scores(q, key));
  }

  lemma PassedOnly(q: Query, index: seq<nat>, key: nat, settled: set<nat>)
    requires QueryOk(q) && Indexed(q, index) && Indexed(q, Passed(q, index, key)) && CursorsFrom(q, index, key)
    requires PassedSettled(q, index, settled)
    ensures PassedSettled(q, Passed(q, index, key), settled + {key})
    ensures CursorsFrom(q, Passed(q, index, key), key + 1)
  {
    var moved := Passed(q, index, key);
    forall t, i | 0 <= t < |index| && index[t] < i < moved[t] ensures !(WantedKey(q, q.lists[t][i].key) && q.lists[t][i].key >= key + 1) {
      NextFromSkips(q, q.lists[t], index[t] + 1, key + 1, i);
    }
    forall t, i | 0 <= t < |index| && index[t] <= i < moved[t] && WantedKey(q, q.lists[t][i].key) ensures q.lists[t][i].key == key {
      assert AtKey(q, index, t, key);
    }
    PassedCursors(q, index, key);
  }

  lemma PassedCursors(q: Query, index: seq<nat>, key: nat)
    requires Indexed(q, index) && Indexed(q, Passed(q, index, key)) && CursorsFrom(q, index, key)
    ensures CursorsFrom(q, Passed(q, index, key), key + 1)
  {
    var moved := Passed(q, index, key);
    forall t | 0 <= t < |moved| && Alive(q, moved, t) ensures key + 1 <= KeyAt(q, moved, t) {
      assert !AtKey(q, index, t, key) ==> KeyAt(q, index, t) != key;
    }
  }

  /** A new hit never lowers the bar for objects already found harmless. */
  lemma StillHarmless(q: Query, hits: seq<Hit>, hit: Hit, after: seq<Hit>, k: nat)
    requires Harmless(q, hits, k) && Added(hits, q.topK, hit, after)
    ensures Harmless(q, after, k)
  {
  }

  /** Offering what the cursors see of a harmless object leaves the buffer alone. */
  lemma HarmlessNotAdded(q: Query, s: State, key: nat, after: seq<Hit>)
    requires QueryOk(q) && Indexed(q, s.index) && WantedKey(q, key) && Harmless(q, s.hits, key)
    requires Offered(q, s.hits, HitAt(q, s.index, key), after)
    ensures after == s.hits
  {
    PartialScore(q, s.index, key);
  }

  lemma TakeSettled(q: Query, s: State, key: nat, t: State, settled: set<nat>, d: nat)
    requires QueryOk(q) && Exact(q, s, settled, d) && WantedKey(q, key) && d <= key && CursorsFrom(q, s.index, key)
    requires key in settled && Takes(q, s, key, t)
    ensures Exact(q, t, settled, key + 1)
  {
    PassedIndexed(q, s.index, key);
    PassedOnly(q, s.index, key, settled);
    assert settled + {key} == settled;
    HarmlessNotAdded(q, s, key, t.hits);
  }

  lemma NewHitOf(q: Query, settled: set<nat>, key: nat)
    requires key !in settled && Matches(q, key)
    ensures HitFor(q, key) !in HitsOf(q, settled)
    ensures HitsOf(q, settled + {key}) == HitsOf(q, settled) + {HitFor(q, key)}
    ensures OnePerObject(HitsOf(q, settled) + {HitFor(q, key)})
  {
    hide Matches;
    HitsOfDistinct(q, settled + {key});
    forall k | k in settled && Matches(q, k) && HitFor(q, k) == HitFor(q, key) ensures false { SameHitSameKey(q, k, key); }
    assert HitsOf(q, settled + {key}) == HitsOf(q, settled) + {HitFor(q, key)};
  }

  lemma TakeFresh(q: Query, s: State, key: nat, t: State, settled: set<nat>, d: nat)
    requires QueryOk(q) && Exact(q, s, settled, d) && WantedKey(q, key) && d <= key && CursorsFrom(q, s.index, key)
    requires key !in settled && Takes(q, s, key, t)
    ensures Exact(q, t, settled + {key}, key + 1)
  {
    PassedIndexed(q, s.index, key);
    PassedOnly(q, s.index, key, settled);
    UnsettledIsUnderCursors(q, s, settled, d, key);
    FullEvaluation(q, s.index, key);
    assert HitAt(q, s.index, key) == HitFor(q, key);
    hide HoldsTop, PassedSettled, CursorsFrom, HitsOf;
    if Matches(q, key) {
      NewHitOf(q, settled, key);
      AddedKeepsTop(s.hits, q.topK, HitFor(q, key), t.hits, HitsOf(q, settled));
      forall k | k in settled + {key} ensures k < key + 1 || Harmless(q, t.hits, k) {
        if k >= key + 1 { StillHarmless(q, s.hits, HitFor(q, key), t.hits, k); }
      }
    } else {
      SettleHarmless(q, s.hits, settled, {key});
    }
  }

  // ---------------------------------------------------------------- skipping by bounds

  /** The bounds of some of the live cursors, list by list. */
  ghost function BoundVector(q: Query, index: seq<nat>, front: seq<nat>): seq<real>
    requires |index| == |q.lists|
  {
    seq(|index|, t requires 0 <= t < |index| => if t in front && Alive(q, index, t) then BoundAt(q, index, t) else 0.0)
  }

  /** Adding up in cursor order is adding up list by list. */
  lemma NoBounds(q: Query, index: seq<nat>, none: seq<nat>)
    requires |index| == |q.lists| && none == []
    ensures Sum(BoundVector(q, index, none)) == 0.0
  {
    SumZeros(BoundVector(q, index, none));
  }

  lemma {:induction false} PrefixIsSum(q: Query, index: seq<nat>, active: seq<nat>, n: nat)
    requires Arranged(q, index, active) && n <= |active|
    ensures Prefix(q, index, active, n) == Sum(BoundVector(q, index, active[..n]))
  {
    hide BoundVector, Sum;
    if n == 0 {
      NoBounds(q, index, active[..n]);
    } else {
      PrefixIsSum(q, index, active, n - 1);
      VectorStep(q, index, active, n - 1);
      SumUpdate(BoundVector(q, index, active[..n - 1]), active[n - 1], BoundAt(q, index, active[n - 1]));
    }
  }

  lemma VectorStep(q: Query, index: seq<nat>, active: seq<nat>, n: nat)
    requires Arranged(q, index, active) && n < |active|
    ensures var u, t := BoundVector(q, index, active[..n]), active[n];
      t < |u| && u[t] == 0.0 && BoundVector(q, index, active[..n + 1]) == u[t := BoundAt(q, index, t)]
  {
    hide KeyAt;
    assert active[..n + 1] == active[..n] + [active[n]] && active[n] !in active[..n];
  }

  lemma {:induction false} PrefixNonNegative(q: Query, index: seq<nat>, active: seq<nat>, n: nat)
    requires Arranged(q, index, active) && n <= |active| && BoundsOk(q)
    ensures Prefix(q, index, active, n) >= 0.0
  {
    if n > 0 { PrefixNonNegative(q, index, active, n - 1); }
  }

  /** An object whose scores are covered by bounds that do not reach the threshold is harmless. */
  lemma CoveredIsHarmless(q: Query, s: State, active: seq<nat>, n: nat, key: nat)
    requires QueryOk(q) && BoundsOk(q) && Arranged(q, s.index, active) && n <= |active| && |s.hits| <= q.topK
    requires !Reaches(Prefix(q, s.index, active, n), Threshold(s.hits, q.topK))
    requires forall t :: 0 <= t < |q.lists| ==> ScoreIn(q.lists[t], key) <= BoundVector(q, s.index, active[..n])[t]
    ensures Harmless(q, s.hits, key)
  {
    PrefixIsSum(q, s.index, active, n);
    PrefixNonNegative(q, s.index, active, n);
    SumMonotone(Scores(q, key), BoundVector(q, s.index, active[..n]));
  }

  /** The first cursor of the order stands on the smallest key. */
  lemma FirstIsLowest(q: Query, index: seq<nat>, active: seq<nat>)
    requires Indexed(q, index) && Arranged(q, index, active) && |active| > 0
    ensures CursorsFrom(q, index, KeyAt(q, index, active[0]))
  {
    forall t | 0 <= t < |index| && Alive(q, index, t) ensures KeyAt(q, index, active[0]) <= KeyAt(q, index, t) {
      var a :| 0 <= a < |active| && active[a] == t;
    }
  }

  lemma SkippedKey(q: Query, index: seq<nat>, first: nat, k: nat)
    requires QueryOk(q) && Indexed(q, index) && Alive(q, index, first) && Indexed(q, Advanced(q, index, [first], 0))
    requires k in Between(q, index, Advanced(q, index, [first], 0))
    ensures k == KeyAt(q, index, first)
  {
    IndexAt(q, index, first);
    hide Advanced, Between, QueryOk, Indexed, NextFrom;
    AdvancedOne(q, index, first, 0);
    AllSkipped(q, q.lists[first], index[first] + 1, 0);
    var i := BetweenOne(q, index, first, NextFrom(q, q.lists[first], index[first] + 1, 0), k);
  }

  lemma UnderCursorCovered(q: Query, s: State, active: seq<nat>, settled: set<nat>, d: nat, key: nat, t: nat)
    requires QueryOk(q) && BoundsOk(q) && Exact(q, s, settled, d) && Arranged(q, s.index, active) && t < |q.lists|
    requires WantedKey(q, key) && key !in settled && CursorsFrom(q, s.index, key)
    ensures ScoreIn(q.lists[t], key) <= BoundVector(q, s.index, active)[t]
  {
    if Has(q.lists[t], key) {
      UnsettledIsUnderCursors(q, s, settled, d, key);
      ItemOfAt(q.lists[t], s.index[t]);
    }
  }

  /** With no pivot at all, the one object skipped is harmless: for any number of terms and blocks. */
  lemma SkipSafe(q: Query, s: State, active: seq<nat>, settled: set<nat>, d: nat, k: nat)
    requires QueryOk(q) && BoundsOk(q) && Exact(q, s, settled, d) && Arranged(q, s.index, active) && |active| > 0
    requires IsPivot(q, s.index, active, Threshold(s.hits, q.topK), |active|)
    requires Indexed(q, Advanced(q, s.index, [active[0]], 0)) && k in Between(q, s.index, Advanced(q, s.index, [active[0]], 0))
    ensures k in settled || Harmless(q, s.hits, k)
  {
    SkippedKey(q, s.index, active[0], k);
    if k !in settled {
      FirstIsLowest(q, s.index, active);
      assert active[..|active|] == active;
      forall t | 0 <= t < |q.lists| ensures ScoreIn(q.lists[t], k) <= BoundVector(q, s.index, active[..|active|])[t] {
        UnderCursorCovered(q, s, active, settled, d, k, t);
      }
      CoveredIsHarmless(q, s, active, |active|, k);
    }
  }

  // ---------------------------------------------------------------- at most two lists of one block each

  /** All postings of a list share one block and therefore one bound. */
  predicate OneBlockEach(q: Query) {
    forall t, i, j :: 0 <= t < |q.lists| && 0 <= i < |q.lists[t]| && 0 <= j < |q.lists[t]| ==> q.lists[t][i].bound == q.lists[t][j].bound
  }

  /** A jumped-over object lies in the list of the first cursor, from the cursor on and in front of the key. */
  lemma JumpedPlace(q: Query, index: seq<nat>, first: nat, stop: nat, k: nat) returns (i: nat)
    requires QueryOk(q) && Indexed(q, index) && Alive(q, index, first) && KeyAt(q, index, first) < stop
    requires Indexed(q, Advanced(q, index, [first], stop)) && k in Between(q, index, Advanced(q, index, [first], stop))
    ensures i < |q.lists[first]| && q.lists[first][i].key == k && k < stop && WantedKey(q, k)
  {
    IndexAt(q, index, first);
    hide Advanced, Between, QueryOk, Indexed, NextFrom;
    AdvancedOne(q, index, first, stop);
    AllSkipped(q, q.lists[first], index[first] + 1, stop);
    i := BetweenOne(q, index, first, NextFrom(q, q.lists[first], index[first] + 1, stop), k);
  }

  lemma IndexAt(q: Query, index: seq<nat>, t: nat)
    requires Indexed(q, index) && Alive(q, index, t)
    ensures |index| == |q.lists| && index[t] + 1 <= |q.lists[t]|
  {
  }

  lemma AllSkipped(q: Query, list: seq<Item>, i: nat, key: nat)
    requires i <= |list|
    ensures NextFrom(q, list, i, key) <= |list|
    ensures forall h :: i <= h < NextFrom(q, list, i, key) ==> !(WantedKey(q, list[h].key) && list[h].key >= key)
  {
    forall h | i <= h < NextFrom(q, list, i, key) ensures !(WantedKey(q, list[h].key) && list[h].key >= key) { NextFromSkips(q, list, i, key, h); }
  }

  lemma BetweenOne(q: Query, index: seq<nat>, first: nat, next: nat, k: nat) returns (i: nat)
    requires Indexed(q, index) && first < |index| && Indexed(q, index[first := next]) && k in Between(q, index, index[first := next])
    ensures index[first] <= i < next && q.lists[first][i].key == k && WantedKey(q, k)
  {
    var t, j :| 0 <= t < |index| && index[t] <= j < index[first := next][t] && WantedKey(q, q.lists[t][j].key) && q.lists[t][j].key == k;
    i := j;
  }

  /** It is in no other list, or it would have been settled already. */
  lemma JumpedKey(q: Query, s: State, active: seq<nat>, settled: set<nat>, d: nat, k: nat)
    requires QueryOk(q) && BoundsOk(q) && OneBlockEach(q) && |q.lists| <= 2 && Exact(q, s, settled, d)
    requires Arranged(q, s.index, active) && |active| == 2 && KeyAt(q, s.index, active[0]) != KeyAt(q, s.index, active[1])
    requires Indexed(q, Advanced(q, s.index, [active[0]], KeyAt(q, s.index, active[1])))
    requires k in Between(q, s.index, Advanced(q, s.index, [active[0]], KeyAt(q, s.index, active[1]))) && k !in settled
    ensures ScoreIn(q.lists[active[0]], k) <= BoundAt(q, s.index, active[0]) && !Has(q.lists[active[1]], k)
  {
    hide Between, Advanced;
    var a, b := active[0], active[1];
    var i := JumpedPlace(q, s.index, a, KeyAt(q, s.index, b), k);
    ItemOfAt(q.lists[a], i);
    forall j: nat | j < |q.lists[b]| ensures q.lists[b][j].key != k {
      if q.lists[b][j].key == k { UnsettledAhead(q, s, settled, d, k, b, j); }
    }
  }

  lemma JumpSafeTwo(q: Query, s: State, active: seq<nat>, settled: set<nat>, d: nat, k: nat)
    requires QueryOk(q) && BoundsOk(q) && OneBlockEach(q) && |q.lists| <= 2 && Exact(q, s, settled, d)
    requires Arranged(q, s.index, active) && |active| == 2 && KeyAt(q, s.index, active[0]) != KeyAt(q, s.index, active[1])
    requires IsPivot(q, s.index, active, Threshold(s.hits, q.topK), 1)
    requires Indexed(q, Advanced(q, s.index, [active[0]], KeyAt(q, s.index, active[1])))
    requires k in Between(q, s.index, Advanced(q, s.index, [active[0]], KeyAt(q, s.index, active[1])))
    ensures k in settled || Harmless(q, s.hits, k)
  {
    if k !in settled {
      JumpedKey(q, s, active, settled, d, k);
      hide Between, Advanced, Exact, OneBlockEach, Indexed, ScoreIn, BoundVector;
      forall t | 0 <= t < |q.lists| ensures ScoreIn(q.lists[t], k) <= BoundVector(q, s.index, active[..1])[t] {
        FirstCovers(q, s.index, active, k, t);
      }
      CoveredIsHarmless(q, s, active, 1, k);
    }
  }

  lemma FirstCovers(q: Query, index: seq<nat>, active: seq<nat>, k: nat, t: nat)
    requires Arranged(q, index, active) && |active| == 2 && |q.lists| <= 2 && t < |q.lists|
    requires ScoreIn(q.lists[active[0]], k) <= BoundAt(q, index, active[0]) && !Has(q.lists[active[1]], k)
    ensures ScoreIn(q.lists[t], k) <= BoundVector(q, index, active[..1])[t]
  {
    hide KeyAt, ItemOf;
    assert active[..1] == [active[0]] && active[0] != active[1];
    assert t == active[0] || t == active[1];
  }

  // ---------------------------------------------------------------- no more matches than places

  predicate BoundsPositive(q: Query) {
    forall t, i :: 0 <= t < |q.lists| && 0 <= i < |q.lists[t]| && WantedKey(q, q.lists[t][i].key) ==> q.lists[t][i].bound > 0.0
  }

  ghost predicate FewMatches(q: Query) {
    |AllMatches(q)| <= q.topK && BoundsPositive(q)
  }

  ghost function HitSet(hits: seq<Hit>): set<Hit> {
    set i | 0 <= i < |hits| :: hits[i]
  }

  lemma {:induction false} HitSetSize(hits: seq<Hit>)
    requires NoRepeats(hits)
    ensures |HitSet(hits)| == |hits|
  {
    if |hits| > 0 {
      var init, h := hits[..|hits| - 1], hits[|hits| - 1];
      HitSetSize(init);
      assert forall i :: 0 <= i < |init| ==> init[i] == hits[i];
      assert HitSet(hits) == HitSet(init) + {h} && h !in HitSet(init);
    }
  }

  lemma HitsOfAll(q: Query, keys: set<nat>)
    ensures HitsOf(q, keys) <= AllMatches(q)
  {
    forall h | h in HitsOf(q, keys) ensures h in AllMatches(q) {
      var k :| k in keys && Matches(q, k) && h == HitFor(q, k);
      MatchIsListed(q, k);
    }
  }

  lemma SubsetFull<T>(a: set<T>, b: set<T>, x: T)
    requires a <= b && |b| <= |a| && x in b
    ensures x in a
  {
    if x !in a {
      SubsetSize(a, b - {x});
    }
  }

  /** Once the buffer is full it holds every match, so nothing that is still ahead matters. */
  lemma FullIsComplete(q: Query, s: State, settled: set<nat>, d: nat, k: nat)
    requires QueryOk(q) && FewMatches(q) && Exact(q, s, settled, d) && |s.hits| == q.topK && k !in settled
    ensures !Matches(q, k)
  {
    if Matches(q, k) {
      MatchIsListed(q, k);
      HitsOfAll(q, settled);
      HitSetSize(s.hits);
      assert HitSet(s.hits) <= HitsOf(q, settled);
      SubsetFull(HitSet(s.hits), AllMatches(q), HitFor(q, k));
      var j :| j in settled && Matches(q, j) && HitFor(q, j) == HitFor(q, k);
      SameHitSameKey(q, j, k);
      assert false;
    }
  }

  /** While there is room the first cursor is the pivot and nothing is skipped. */
  lemma RoomMeansPivot(q: Query, s: State, active: seq<nat>, pivot: nat)
    requires QueryOk(q) && BoundsPositive(q) && Indexed(q, s.index) && Arranged(q, s.index, active) && |active| > 0
    requires IsPivot(q, s.index, active, Threshold(s.hits, q.topK), pivot) && |s.hits| < q.topK
    ensures pivot == 0
  {
    assert Alive(q, s.index, active[0]) && BoundAt(q, s.index, active[0]) > 0.0;
    assert Prefix(q, s.index, active, 1) == Prefix(q, s.index, active, 0) + BoundAt(q, s.index, active[0]);
  }

  // ---------------------------------------------------------------- whole runs

  /** Queries whose pruning is exact. */
  ghost predicate Tame(q: Query) {
    |q.lists| == 1 || (|q.lists| <= 2 && OneBlockEach(q)) || FewMatches(q)
  }

  lemma MoveSafe(q: Query, s: State, active: seq<nat>, pivot: nat, t: State, settled: set<nat>, d: nat, k: nat)
    requires QueryOk(q) && BoundsOk(q) && Tame(q) && Exact(q, s, settled, d) && StepBy(q, s, active, pivot, t)
    requires pivot == |active| || KeyAt(q, s.index, active[0]) != KeyAt(q, s.index, active[pivot])
    requires Indexed(q, t.index) && k in Between(q, s.index, t.index)
    ensures k in settled || Harmless(q, s.hits, k)
  {
    hide Exact, Harmless, IsPivot, Between, Advanced;
    if pivot == |active| {
      SkipSafe(q, s, active, settled, d, k);
    } else if FewMatches(q) {
      MoveSafeFew(q, s, active, pivot, t, settled, d, k);
    } else {
      TwoCursors(q, s, active, pivot);
      assert active[..pivot] == [active[0]];
      JumpSafeTwo(q, s, active, settled, d, k);
    }
  }

  lemma TwoCursors(q: Query, s: State, active: seq<nat>, pivot: nat)
    requires Arranged(q, s.index, active) && pivot < |active| && KeyAt(q, s.index, active[0]) != KeyAt(q, s.index, active[pivot])
    requires |q.lists| <= 2
    ensures |q.lists| == 2 && |active| == 2 && pivot == 1
  {
    ActiveCount(q, s.index, active);
  }

  lemma MoveSafeFew(q: Query, s: State, active: seq<nat>, pivot: nat, t: State, settled: set<nat>, d: nat, k: nat)
    requires QueryOk(q) && FewMatches(q) && Exact(q, s, settled, d) && StepBy(q, s, active, pivot, t)
    requires pivot < |active| && KeyAt(q, s.index, active[0]) != KeyAt(q, s.index, active[pivot])
    ensures k in settled || Harmless(q, s.hits, k)
  {
    if |s.hits| < q.topK {
      RoomMeansPivot(q, s, active, pivot);
      assert false;
    }
    if k !in settled { FullIsComplete(q, s, settled, d, k); }
  }

  lemma TakeKeeps(q: Query, s: State, active: seq<nat>, pivot: nat, t: State, settled: set<nat>, d: nat) returns (more: set<nat>, e: nat)
    requires QueryOk(q) && Exact(q, s, settled, d) && StepBy(q, s, active, pivot, t)
    requires pivot < |active| && KeyAt(q, s.index, active[0]) == KeyAt(q, s.index, active[pivot])
    ensures Exact(q, t, more, e)
  {
    var key := KeyAt(q, s.index, active[pivot]);
    FirstIsLowest(q, s.index, active);
    assert Alive(q, s.index, active[0]);
    e := key + 1;
    if key in settled {
      TakeSettled(q, s, key, t, settled, d);
      more := settled;
    } else {
      TakeFresh(q, s, key, t, settled, d);
      more := settled + {key};
    }
  }

  lemma MoveStepKeeps(q: Query, s: State, active: seq<nat>, pivot: nat, t: State, settled: set<nat>, d: nat)
    requires QueryOk(q) && BoundsOk(q) && Tame(q) && Exact(q, s, settled, d) && StepBy(q, s, active, pivot, t)
    requires pivot == |active| || KeyAt(q, s.index, active[0]) != KeyAt(q, s.index, active[pivot])
    ensures Indexed(q, s.index) && Indexed(q, t.index) && Exact(q, t, settled + Between(q, s.index, t.index), d)
  {
    MoveIndexed(q, s, active, pivot, t);
    hide StepBy, Harmless, Tame, BoundsOk, QueryOk;
    forall k | k in Between(q, s.index, t.index) ensures k in settled || Harmless(q, s.hits, k) {
      MoveSafe(q, s, active, pivot, t, settled, d, k);
    }
    MoveKeeps(q, s, t.index, settled, d);
  }

  lemma StepKeeps(q: Query, s: State, t: State, settled: set<nat>, d: nat) returns (more: set<nat>, e: nat)
    requires QueryOk(q) && BoundsOk(q) && Tame(q) && Exact(q, s, settled, d) && Step(q, s, t)
    ensures Exact(q, t, more, e)
  {
    hide Exact, Tame, BoundsOk, IsPivot, Skips, Jumps, Takes, Between;
    var active, pivot :| StepBy(q, s, active, pivot, t);
    if pivot == |active| || KeyAt(q, s.index, active[0]) != KeyAt(q, s.index, active[pivot]) {
      MoveStepKeeps(q, s, active, pivot, t, settled, d);
      more, e := settled + Between(q, s.index, t.index), d;
    } else {
      more, e := TakeKeeps(q, s, active, pivot, t, settled, d);
    }
  }

  lemma MoveIndexed(q: Query, s: State, active: seq<nat>, pivot: nat, t: State)
    requires QueryOk(q) && Indexed(q, s.index) && StepBy(q, s, active, pivot, t)
    requires pivot == |active| || KeyAt(q, s.index, active[0]) != KeyAt(q, s.index, active[pivot])
    ensures Indexed(q, t.index) && t.hits == s.hits && forall u :: 0 <= u < |t.index| ==> s.index[u] <= t.index[u]
  {
    hide IsPivot, Indexed, Advanced, QueryOk;
    if pivot == |active| {
      AdvancedIndexed(q, s.index, [active[0]], 0);
    } else {
      AdvancedIndexed(q, s.index, active[..pivot], KeyAt(q, s.index, active[pivot]));
    }
  }

  lemma StartExact(q: Query, s: State)
    requires QueryOk(q) && Initial(q, s)
    ensures Exact(q, s, {}, 0)
  {
    forall t, i | 0 <= t < |s.index| && 0 <= i < s.index[t] ensures !WantedKey(q, q.lists[t][i].key) {
      NextFromSkips(q, q.lists[t], 0, 0, i);
    }
  }

  lemma {:induction false} RunExact(q: Query, run: seq<State>, n: nat) returns (settled: set<nat>, d: nat)
    requires QueryOk(q) && BoundsOk(q) && Tame(q) && Run(q, run) && n < |run|
    ensures Exact(q, run[n], settled, d)
  {
    if n == 0 {
      StartExact(q, run[0]);
      settled, d := {}, 0;
    } else {
      settled, d := RunExact(q, run, n - 1);
      settled, d := StepKeeps(q, run[n - 1], run[n], settled, d);
    }
  }

  lemma FinishedIsAll(q: Query, s: State, settled: set<nat>, d: nat)
    requires QueryOk(q) && Exact(q, s, settled, d) && Finished(q, s)
    ensures HitsOf(q, settled) == AllMatches(q)
  {
    HitsOfAll(q, settled);
    forall h | h in AllMatches(q) ensures h in HitsOf(q, settled) {
      var k :| k in AllKeys(q) && Matches(q, k) && h == HitFor(q, k);
      var t, i :| 0 <= t < |q.lists| && 0 <= i < |q.lists[t]| && q.lists[t][i].key == k;
      assert q.lists[t][i].key in settled;
    }
  }

  /**
   For one term, for at most two terms whose lists each fit one block, and whenever there are no
   more matches than places, every finished run ends with exactly the first topK of all matches.
   */
  lemma PruningIsExact(q: Query, run: seq<State>)
    requires QueryOk(q) && BoundsOk(q) && Tame(q) && Run(q, run) && Finished(q, run[|run| - 1])
    ensures IsTop(Sort(run[|run| - 1].hits), AllMatches(q), q.topK)
  {
    var settled, d := RunExact(q, run, |run| - 1);
    FinishedIsAll(q, run[|run| - 1], settled, d);
    HitsOfDistinct(q, AllKeys(q));
    SortedTop(run[|run| - 1].hits, AllMatches(q), q.topK);
  }

  // ---------------------------------------------------------------- answers with room left

  lemma BufferGrows(q: Query, s: State, t: State)
    requires q.topK > 0 && Step(q, s, t) && |s.hits| <= q.topK
    ensures |s.hits| <= |t.hits| <= q.topK
  {
    hide IsPivot, Arranged, HitAt, Passed, Advanced, Precedes;
    var active, pivot :| StepBy(q, s, active, pivot, t);
  }

  lemma {:induction false} BufferBounded(q: Query, run: seq<State>, n: nat)
    requires q.topK > 0 && Run(q, run) && n < |run|
    ensures |run[n].hits| <= q.topK
  {
    hide Step;
    if n > 0 {
      BufferBounded(q, run, n - 1);
      assert Step(q, run[n - 1], run[n]);
      BufferGrows(q, run[n - 1], run[n]);
    }
  }

  /** While the buffer has room every turn evaluates the lowest object, so nothing is lost. */
  lemma {:induction false} OpenRunExact(q: Query, run: seq<State>, n: nat) returns (settled: set<nat>, d: nat)
    requires QueryOk(q) && BoundsPositive(q) && Run(q, run) && n < |run| && |run[n].hits| < q.topK
    ensures Exact(q, run[n], settled, d)
  {
    hide Exact, BoundsPositive, Step, Initial;
    if n == 0 {
      StartExact(q, run[0]);
      settled, d := {}, 0;
    } else {
      assert Step(q, run[n - 1], run[n]);
      BufferBounded(q, run, n - 1);
      BufferGrows(q, run[n - 1], run[n]);
      settled, d := OpenRunExact(q, run, n - 1);
      settled, d := OpenStepKeeps(q, run[n - 1], run[n], settled, d);
    }
  }

  lemma OpenStepKeeps(q: Query, s: State, t: State, settled: set<nat>, d: nat) returns (more: set<nat>, e: nat)
    requires QueryOk(q) && BoundsPositive(q) && Exact(q, s, settled, d) && Step(q, s, t) && |s.hits| < q.topK
    ensures Exact(q, t, more, e)
  {
    assert Indexed(q, s.index);
    hide Exact, BoundsPositive, IsPivot, Skips, Jumps, Takes, Indexed;
    var active, pivot :| StepBy(q, s, active, pivot, t);
    RoomMeansPivot(q, s, active, pivot);
    more, e := TakeKeeps(q, s, active, pivot, t, settled, d);
  }

  /** An answer with fewer hits than asked for is the whole answer, whatever the number of terms and blocks. */
  lemma ShortAnswersAreComplete(q: Query, run: seq<State>)
    requires QueryOk(q) && BoundsPositive(q) && Run(q, run) && Finished(q, run[|run| - 1]) && |run[|run| - 1].hits| < q.topK
    ensures IsTop(Sort(run[|run| - 1].hits), AllMatches(q), q.topK)
  {
    var settled, d := OpenRunExact(q, run, |run| - 1);
    FinishedIsAll(q, run[|run| - 1], settled, d);
    HitsOfDistinct(q, AllKeys(q));
    SortedTop(run[|run| - 1].hits, AllMatches(q), q.topK);
  }
}
