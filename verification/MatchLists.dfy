/**
 Posting lists as the search loop reads them: one cursor per term, the order of the live cursors,
 and the evaluation of one object.
 */
module MatchLists {
  import opened Bm25
  import opened TopHits
  import opened Probing

  /** A decoded posting with its key, its score and the bound of the block it lies in. */
  datatype Item = Item(key: nat, score: real, bound: real, positions: seq<Position>)

  datatype Query = Query(
    lists: seq<seq<Item>>, filter: nat, topK: nat, accept: (nat, nat) -> bool, phrase: bool, tokens: seq<nat>)

  predicate Increasing(list: seq<Item>) {
    forall i, j :: 0 <= i < j < |list| ==> list[i].key < list[j].key
  }

  predicate QueryOk(q: Query) {
    && |q.lists| > 0 && q.topK > 0 && |q.tokens| > 0
    && (forall t :: 0 <= t < |q.lists| ==> Increasing(q.lists[t]))
    && (forall t, i :: 0 <= t < |q.lists| && 0 <= i < |q.lists[t]| ==> q.lists[t][i].score >= 0.0)
    && (forall j :: 0 <= j < |q.tokens| ==> q.tokens[j] < |q.lists|)
  }

  function TypeOf(key: nat): nat {
    if key >= TypeBit then PassageType else DocumentType
  }

  function OrdinalOf(key: nat): nat {
    if key >= TypeBit then key - TypeBit else key
  }

  predicate WantedKey(q: Query, key: nat) {
    Wanted(TypeOf(key), q.filter)
  }

  // ---------------------------------------------------------------- what a list says about an object

  predicate Has(list: seq<Item>, key: nat) {
    exists i :: 0 <= i < |list| && list[i].key == key
  }

  ghost function ItemOf(list: seq<Item>, key: nat): (item: Item)
    requires Has(list, key)
    ensures item in list && item.key == key
  {
    var i :| 0 <= i < |list| && list[i].key == key;
    list[i]
  }

  lemma ItemOfAt(list: seq<Item>, i: nat)
    requires Increasing(list) && i < |list|
    ensures Has(list, list[i].key) && ItemOf(list, list[i].key) == list[i]
  {
    assert Has(list, list[i].key);
    var item := ItemOf(list, list[i].key);
    var j :| 0 <= j < |list| && list[j] == item;
    assert list[j].key == list[i].key;
  }

  ghost function ScoreIn(list: seq<Item>, key: nat): real {
    if Has(list, key) then ItemOf(list, key).score else 0.0
  }

  function Sum(v: seq<real>): real {
    if |v| == 0 then 0.0 else Sum(v[..|v| - 1]) + v[|v| - 1]
  }

  lemma {:induction false} SumUpdate(v: seq<real>, t: nat, x: real)
    requires t < |v|
    ensures Sum(v[t := x]) == Sum(v) - v[t] + x
  {
    var last := |v| - 1;
    if t == last {
      assert v[t := x][..last] == v[..last];
    } else {
      SumUpdate(v[..last], t, x);
      assert v[t := x][..last] == v[..last][t := x];
    }
  }

  lemma {:induction false} SumMonotone(v: seq<real>, w: seq<real>)
    requires |v| == |w| && forall t :: 0 <= t < |v| ==> v[t] <= w[t]
    ensures Sum(v) <= Sum(w)
  {
    if |v| > 0 { SumMonotone(v[..|v| - 1], w[..|w| - 1]); }
  }

  lemma {:induction false} SumZeros(v: seq<real>)
    requires forall t :: 0 <= t < |v| ==> v[t] == 0.0
    ensures Sum(v) == 0.0
  {
    if |v| > 0 { SumZeros(v[..|v| - 1]); }
  }

  /** The contribution of every term to one object. */
  ghost function Scores(q: Query, key: nat): seq<real> {
    seq(|q.lists|, t requires 0 <= t < |q.lists| => ScoreIn(q.lists[t], key))
  }

  ghost function Total(q: Query, key: nat): real {
    Sum(Scores(q, key))
  }

  function Holders(q: Query, key: nat): set<nat> {
    set t | 0 <= t < |q.lists| && Has(q.lists[t], key)
  }

  /** The hit an object deserves: its full score over all terms that have it. */
  ghost function HitFor(q: Query, key: nat): Hit {
    Hit(TypeOf(key), OrdinalOf(key), Total(q, key), |Holders(q, key)|)
  }

  lemma SameHitSameKey(q: Query, a: nat, b: nat)
    requires SameObject(HitFor(q, a), HitFor(q, b))
    ensures a == b
  {
  }

  // ---------------------------------------------------------------- cursors

  /** First place from i on whose object is wanted and not in front of the key. */
  function NextFrom(q: Query, list: seq<Item>, i: nat, key: nat): (j: nat)
    requires i <= |list|
    ensures i <= j <= |list|
    ensures j < |list| ==> WantedKey(q, list[j].key) && list[j].key >= key
    decreases |list| - i
  {
    if i < |list| && !(WantedKey(q, list[i].key) && list[i].key >= key) then NextFrom(q, list, i + 1, key) else i
  }

  lemma {:induction false} NextFromSkips(q: Query, list: seq<Item>, i: nat, key: nat, h: nat)
    requires i <= |list| && i <= h < NextFrom(q, list, i, key)
    ensures !(WantedKey(q, list[h].key) && list[h].key >= key)
    decreases |list| - i
  {
    if i < h { NextFromSkips(q, list, i + 1, key, h); }
  }

  lemma {:induction false} NextFromIs(q: Query, list: seq<Item>, i: nat, key: nat, j: nat)
    requires i <= j <= |list|
    requires forall h :: i <= h < j ==> !(WantedKey(q, list[h].key) && list[h].key >= key)
    requires j < |list| ==> WantedKey(q, list[j].key) && list[j].key >= key
    ensures NextFrom(q, list, i, key) == j
    decreases |list| - i
  {
    if i < j { NextFromIs(q, list, i + 1, key, j); }
  }

  method SkipType(q: Query, list: seq<Item>, i: nat) returns (j: nat)
    requires i <= |list|
    ensures j == NextFrom(q, list, i, 0)
  {
    j := i;
    while j < |list| && !WantedKey(q, list[j].key)
      invariant i <= j <= |list| && forall h :: i <= h < j ==> !WantedKey(q, list[h].key)
    {
      j := j + 1;
    }
    NextFromIs(q, list, i, 0, j);
  }

  /** Step at least once, then on to the first wanted object at or after the key. */
  method AdvanceTo(q: Query, list: seq<Item>, i: nat, key: nat) returns (j: nat)
    requires i < |list|
    ensures j == NextFrom(q, list, i + 1, key)
  {
    j := SkipType(q, list, i + 1);
    forall h | i < h < j ensures !WantedKey(q, list[h].key) { NextFromSkips(q, list, i + 1, 0, h); }
    while j < |list| && list[j].key < key
      invariant i < j <= |list| && (j < |list| ==> WantedKey(q, list[j].key))
      invariant forall h :: i < h < j ==> !(WantedKey(q, list[h].key) && list[h].key >= key)
    {
      var next := SkipType(q, list, j + 1);
      forall h | j < h < next ensures !WantedKey(q, list[h].key) { NextFromSkips(q, list, j + 1, 0, h); }
      j := next;
    }
    NextFromIs(q, list, i + 1, key, j);
  }

  /** One cursor per list, each at the end of its list or on a wanted object. */
  predicate Indexed(q: Query, index: seq<nat>) {
    && |index| == |q.lists|
    && (forall t :: 0 <= t < |index| ==> index[t] <= |q.lists[t]|)
    && (forall t :: 0 <= t < |index| && index[t] < |q.lists[t]| ==> WantedKey(q, q.lists[t][index[t]].key))
  }

  predicate Alive(q: Query, index: seq<nat>, t: nat)
    requires |index| == |q.lists|
  {
    t < |index| && index[t] < |q.lists[t]|
  }

  function KeyAt(q: Query, index: seq<nat>, t: nat): nat
    requires |index| == |q.lists| && Alive(q, index, t)
  {
    q.lists[t][index[t]].key
  }

  predicate AtKey(q: Query, index: seq<nat>, t: nat, key: nat)
    requires |index| == |q.lists|
  {
    Alive(q, index, t) && KeyAt(q, index, t) == key
  }

  /** The live cursors, each once, by the key they stand on; the order among equal keys is open. */
  predicate Arranged(q: Query, index: seq<nat>, active: seq<nat>) {
    && |index| == |q.lists|
    && (forall a :: 0 <= a < |active| ==> Alive(q, index, active[a]))
    && (forall a, b :: 0 <= a < b < |active| ==> active[a] != active[b])
    && (forall a, b :: 0 <= a < b < |active| ==> KeyAt(q, index, active[a]) <= KeyAt(q, index, active[b]))
    && (forall t :: 0 <= t < |index| && Alive(q, index, t) ==> t in active)
  }

  predicate ArrangedBelow(q: Query, index: seq<nat>, active: seq<nat>, n: nat) {
    && |index| == |q.lists| && n <= |index|
    && (forall a :: 0 <= a < |active| ==> active[a] < n && Alive(q, index, active[a]))
    && (forall a, b :: 0 <= a < b < |active| ==> active[a] != active[b])
    && (forall a, b :: 0 <= a < b < |active| ==> KeyAt(q, index, active[a]) <= KeyAt(q, index, active[b]))
    && (forall t :: 0 <= t < n && Alive(q, index, t) ==> t in active)
  }

  /** Collect the live cursors and sort them by key. */
  method Arrange(q: Query, index: seq<nat>) returns (active: seq<nat>)
    requires |index| == |q.lists|
    ensures Arranged(q, index, active)
  {
    active := [];
    for t := 0 to |index|
      invariant ArrangedBelow(q, index, active, t)
    {
      if index[t] < |q.lists[t]| {
        var at := PlaceFor(q, index, active, t);
        InsertKeeps(q, index, active, t, at);
        active := Inserted(active, t, at);
      }
    }
  }

  method PlaceFor(q: Query, index: seq<nat>, active: seq<nat>, t: nat) returns (at: nat)
    requires ArrangedBelow(q, index, active, t) && t < |index| && Alive(q, index, t)
    ensures at <= |active|
    ensures forall a :: 0 <= a < at ==> KeyAt(q, index, active[a]) <= KeyAt(q, index, t)
    ensures forall a :: at <= a < |active| ==> KeyAt(q, index, t) <= KeyAt(q, index, active[a])
  {
    at := 0;
    while at < |active| && KeyAt(q, index, active[at]) <= KeyAt(q, index, t)
      invariant at <= |active| && forall a :: 0 <= a < at ==> KeyAt(q, index, active[a]) <= KeyAt(q, index, t)
    {
      at := at + 1;
    }
  }

  function Inserted(active: seq<nat>, t: nat, at: nat): (next: seq<nat>)
    requires at <= |active|
    ensures |next| == |active| + 1
    ensures forall a :: 0 <= a < |next| ==> next[a] == if a < at then active[a] else if a == at then t else active[a - 1]
  {
    active[..at] + [t] + active[at..]
  }

  lemma InsertedMembers(active: seq<nat>, t: nat, at: nat, u: nat)
    requires at <= |active|
    ensures u in Inserted(active, t, at) <==> u == t || u in active
  {
    var next := Inserted(active, t, at);
    assert next[at] == t;
    if u in active {
      var a :| 0 <= a < |active| && active[a] == u;
      assert next[if a < at then a else a + 1] == u;
    }
  }

  lemma InsertKeeps(q: Query, index: seq<nat>, active: seq<nat>, t: nat, at: nat)
    requires ArrangedBelow(q, index, active, t) && t < |index| && Alive(q, index, t) && at <= |active|
    requires forall a :: 0 <= a < at ==> KeyAt(q, index, active[a]) <= KeyAt(q, index, t)
    requires forall a :: at <= a < |active| ==> KeyAt(q, index, t) <= KeyAt(q, index, active[a])
    ensures ArrangedBelow(q, index, Inserted(active, t, at), t + 1)
  {
    hide KeyAt, Alive;
    var next := Inserted(active, t, at);
    forall a | 0 <= a < |next| ensures next[a] < t + 1 && Alive(q, index, next[a]) {
      assert next[a] == if a < at then active[a] else if a == at then t else active[a - 1];
    }
    forall a, b | 0 <= a < b < |next|
      ensures next[a] != next[b] && KeyAt(q, index, next[a]) <= KeyAt(q, index, next[b])
    {
      assert next[a] == if a < at then active[a] else if a == at then t else active[a - 1];
      assert next[b] == if b < at then active[b] else if b == at then t else active[b - 1];
    }
    forall u | 0 <= u < t + 1 && Alive(q, index, u) ensures u in next {
      InsertedMembers(active, t, at, u);
    }
  }

  ghost function Members(active: seq<nat>): set<nat> {
    set a | 0 <= a < |active| :: active[a]
  }

  lemma {:induction false} MembersSize(active: seq<nat>)
    requires forall a, b :: 0 <= a < b < |active| ==> active[a] != active[b]
    ensures |Members(active)| == |active|
  {
    if |active| > 0 {
      var init, t := active[..|active| - 1], active[|active| - 1];
      MembersSize(init);
      assert forall a :: 0 <= a < |init| ==> init[a] == active[a];
      assert Members(active) == Members(init) + {t};
      assert t !in Members(init);
    }
  }

  lemma ActiveCount(q: Query, index: seq<nat>, active: seq<nat>)
    requires Arranged(q, index, active)
    ensures |active| <= |q.lists|
  {
    MembersSize(active);
    SubsetSize(Members(active), Range(|index|));
  }

  // ---------------------------------------------------------------- evaluating one object

  /** What the cursors standing on the key contribute. */
  function Current(q: Query, index: seq<nat>, key: nat): seq<real>
    requires |index| == |q.lists|
  {
    seq(|index|, t requires 0 <= t < |index| => if AtKey(q, index, t, key) then q.lists[t][index[t]].score else 0.0)
  }

  function Standing(q: Query, index: seq<nat>, key: nat): set<nat>
    requires |index| == |q.lists|
  {
    set t | 0 <= t < |index| && AtKey(q, index, t, key)
  }

  /** All cursors standing on the key have moved on. */
  function Passed(q: Query, index: seq<nat>, key: nat): seq<nat>
    requires |index| == |q.lists|
  {
    seq(|index|, t requires 0 <= t < |index| =>
      if AtKey(q, index, t, key) then NextFrom(q, q.lists[t], index[t] + 1, key + 1) else index[t])
  }

  /** The cursors in done have been looked at, the others not yet. */
  ghost predicate Partly(q: Query, index: seq<nat>, key: nat, done: seq<nat>, moved: seq<nat>, parts: seq<real>, standing: set<nat>)
    requires |index| == |q.lists|
  {
    && |moved| == |index| && |parts| == |index|
    && (forall t :: t in standing <==> t in done && AtKey(q, index, t, key))
    && (forall t :: 0 <= t < |index| && t in done ==> moved[t] == Passed(q, index, key)[t] && parts[t] == Current(q, index, key)[t])
    && (forall t :: 0 <= t < |index| && t !in done ==> moved[t] == index[t] && parts[t] == 0.0)
  }

  lemma PartlyNone(q: Query, index: seq<nat>, key: nat, zeros: seq<real>)
    requires |index| == |q.lists| == |zeros| && forall t :: 0 <= t < |zeros| ==> zeros[t] == 0.0
    ensures Partly(q, index, key, [], index, zeros, {})
  {
  }

  lemma PartlyUntouched(q: Query, index: seq<nat>, key: nat, done: seq<nat>, moved: seq<nat>, parts: seq<real>, standing: set<nat>, t: nat)
    requires |index| == |q.lists| && Partly(q, index, key, done, moved, parts, standing) && t !in done && t < |index|
    ensures moved[t] == index[t] && parts[t] == 0.0 && t !in standing
  {
  }

  lemma PartlyStands(q: Query, index: seq<nat>, key: nat, done: seq<nat>, moved: seq<nat>, parts: seq<real>, standing: set<nat>, t: nat)
    requires |index| == |q.lists| && Partly(q, index, key, done, moved, parts, standing) && t !in done && AtKey(q, index, t, key)
    ensures Partly(q, index, key, done + [t], moved[t := NextFrom(q, q.lists[t], index[t] + 1, key + 1)],
                   parts[t := q.lists[t][index[t]].score], standing + {t})
  {
  }

  lemma PartlySkips(q: Query, index: seq<nat>, key: nat, done: seq<nat>, moved: seq<nat>, parts: seq<real>, standing: set<nat>, t: nat)
    requires |index| == |q.lists| && Partly(q, index, key, done, moved, parts, standing) && t !in done && !AtKey(q, index, t, key)
    ensures Partly(q, index, key, done + [t], moved, parts, standing)
  {
  }

  lemma PartlyAll(q: Query, index: seq<nat>, key: nat, active: seq<nat>, moved: seq<nat>, parts: seq<real>, standing: set<nat>)
    requires Arranged(q, index, active) && Partly(q, index, key, active, moved, parts, standing)
    ensures moved == Passed(q, index, key) && parts == Current(q, index, key) && standing == Standing(q, index, key)
  {
  }

  /** Score the object under the cursors and move those cursors on. */
  method Evaluate(q: Query, index: seq<nat>, active: seq<nat>, key: nat) returns (moved: seq<nat>, score: real, matched: nat)
    requires Arranged(q, index, active)
    ensures moved == Passed(q, index, key)
    ensures score == Sum(Current(q, index, key)) && matched == |Standing(q, index, key)|
  {
    hide Partly, Passed, Current, Standing, NextFrom, Sum;
    moved, score, matched := index, 0.0, 0;
    ghost var parts, standing := seq(|index|, t => 0.0), {};
    SumZeros(parts);
    PartlyNone(q, index, key, parts);
    for i := 0 to |active|
      invariant |moved| == |index| && |parts| == |index| && Partly(q, index, key, active[..i], moved, parts, standing)
      invariant score == Sum(parts) && matched == |standing|
    {
      var t := active[i];
      assert t !in active[..i] && active[..i + 1] == active[..i] + [t];
      PartlyUntouched(q, index, key, active[..i], moved, parts, standing, t);
      if q.lists[t][moved[t]].key == key {
        PartlyStands(q, index, key, active[..i], moved, parts, standing, t);
        SumUpdate(parts, t, q.lists[t][index[t]].score);
        parts, standing := parts[t := q.lists[t][index[t]].score], standing + {t};
        score, matched := score + q.lists[t][moved[t]].score, matched + 1;
        var next := AdvanceTo(q, q.lists[t], moved[t], key + 1);
        moved := moved[t := next];
      } else {
        PartlySkips(q, index, key, active[..i], moved, parts, standing, t);
      }
    }
    assert active[..|active|] == active;
    PartlyAll(q, index, key, active, moved, parts, standing);
  }

  /** All cursors stand on the key, so what they read is what the lists say about the object. */
  lemma FullEvaluation(q: Query, index: seq<nat>, key: nat)
    requires QueryOk(q) && Indexed(q, index)
    requires forall t :: 0 <= t < |q.lists| && Has(q.lists[t], key) ==> AtKey(q, index, t, key)
    ensures Current(q, index, key) == Scores(q, key) && Standing(q, index, key) == Holders(q, key)
    ensures forall t :: 0 <= t < |q.lists| && Has(q.lists[t], key) ==> ItemOf(q.lists[t], key) == q.lists[t][index[t]]
  {
    forall t | 0 <= t < |q.lists| && AtKey(q, index, t, key)
      ensures Has(q.lists[t], key) && ItemOf(q.lists[t], key) == q.lists[t][index[t]]
    {
      ItemOfAt(q.lists[t], index[t]);
    }
  }

  lemma BeforeCursor(list: seq<Item>, at: nat, i: nat)
    requires Increasing(list) && at < |list| && i < |list| && list[i].key < list[at].key
    ensures i < at
  {
  }

  // ---------------------------------------------------------------- progress

  function TotalOf(v: seq<nat>): nat {
    if |v| == 0 then 0 else TotalOf(v[..|v| - 1]) + v[|v| - 1]
  }

  function Left(q: Query, index: seq<nat>): nat
    requires Indexed(q, index)
  {
    TotalOf(seq(|index|, t requires 0 <= t < |index| => |q.lists[t]| - index[t]))
  }

  lemma {:induction false} TotalDecreases(v: seq<nat>, w: seq<nat>, t: nat)
    requires |v| == |w| && (forall u :: 0 <= u < |v| ==> w[u] <= v[u])
    ensures TotalOf(w) <= TotalOf(v)
    ensures t < |v| && w[t] < v[t] ==> TotalOf(w) < TotalOf(v)
  {
    if |v| > 0 { TotalDecreases(v[..|v| - 1], w[..|w| - 1], t); }
  }

  /** Moving cursors forward, at least one of them strictly, makes progress. */
  lemma LeftDecreases(q: Query, index: seq<nat>, moved: seq<nat>, t: nat)
    requires Indexed(q, index) && Indexed(q, moved) && t < |index| && index[t] < moved[t]
    requires forall u :: 0 <= u < |index| ==> index[u] <= moved[u]
    ensures Left(q, moved) < Left(q, index)
  {
    TotalDecreases(seq(|index|, u requires 0 <= u < |index| => |q.lists[u]| - index[u]),
                   seq(|index|, u requires 0 <= u < |index| => |q.lists[u]| - moved[u]), t);
  }

  lemma PassedProgress(q: Query, index: seq<nat>, key: nat, t: nat)
    requires QueryOk(q) && Indexed(q, index) && Indexed(q, Passed(q, index, key)) && AtKey(q, index, t, key)
    ensures Left(q, Passed(q, index, key)) < Left(q, index)
  {
    LeftDecreases(q, index, Passed(q, index, key), t);
  }

  method Start(q: Query) returns (index: seq<nat>)
    requires QueryOk(q)
    ensures |index| == |q.lists| && forall t :: 0 <= t < |index| ==> index[t] == NextFrom(q, q.lists[t], 0, 0)
  {
    index := [];
    for t := 0 to |q.lists|
      invariant |index| == t && forall u :: 0 <= u < t ==> index[u] == NextFrom(q, q.lists[u], 0, 0)
    {
      var j := SkipType(q, q.lists[t], 0);
      index := index + [j];
    }
  }
}
