/** Search hits, their order, and the bounded buffer that keeps the first of them. */
module TopHits {
  datatype Hit = Hit(objectType: nat, ordinal: nat, score: real, matchedTerms: nat)

  /** Higher score first; ties by object type and then by ordinal. */
  predicate Precedes(a: Hit, b: Hit) {
    || a.score > b.score
    || (a.score == b.score && a.objectType < b.objectType)
    || (a.score == b.score && a.objectType == b.objectType && a.ordinal < b.ordinal)
  }

  predicate SameObject(a: Hit, b: Hit) {
    a.objectType == b.objectType && a.ordinal == b.ordinal
  }

  /** No two hits of the set describe the same object. */
  ghost predicate OnePerObject(s: set<Hit>) {
    forall a, b :: a in s && b in s && SameObject(a, b) ==> a == b
  }

  predicate DistinctObjects(hits: seq<Hit>) {
    forall i, j :: 0 <= i < j < |hits| ==> !SameObject(hits[i], hits[j])
  }

  predicate NoRepeats(hits: seq<Hit>) {
    forall i, j :: 0 <= i < j < |hits| ==> hits[i] != hits[j]
  }

  /** The buffer holds the first k of everything seen, in any order. */
  ghost predicate HoldsTop(hits: seq<Hit>, seen: set<Hit>, k: nat) {
    && NoRepeats(hits)
    && (forall i :: 0 <= i < |hits| ==> hits[i] in seen)
    && |hits| <= k
    && (|hits| < k ==> forall h :: h in seen ==> h in hits)
    && (forall i, h :: 0 <= i < |hits| && h in seen && h !in hits ==> Precedes(hits[i], h))
  }

  predicate Sorted(hits: seq<Hit>) {
    forall i, j :: 0 <= i < j < |hits| ==> Precedes(hits[i], hits[j])
  }

  /** The answer: the first k of all hits, in hit order. */
  ghost predicate IsTop(hits: seq<Hit>, all: set<Hit>, k: nat) {
    Sorted(hits) && HoldsTop(hits, all, k)
  }

  /** The answer is unique: two sorted buffers with the top of the same hits are equal. */
  lemma {:induction false} TopIsUnique(a: seq<Hit>, b: seq<Hit>, all: set<Hit>, k: nat)
    requires IsTop(a, all, k) && IsTop(b, all, k) && |a| <= |b|
    ensures a == b[..|a|] && |a| == |b|
  {
    SameAt(a, b, all, k, |a|);
    if |a| < |b| {
      assert b[|a|] in all;
      forall i | 0 <= i < |a| ensures a[i] != b[|a|] {
        assert a[..|a|][i] == b[..|a|][i];
      }
    }
  }

  lemma {:induction false} SameAt(a: seq<Hit>, b: seq<Hit>, all: set<Hit>, k: nat, n: nat)
    requires IsTop(a, all, k) && IsTop(b, all, k) && n <= |a| <= |b|
    ensures a[..n] == b[..n]
  {
    if n > 0 {
      TopFacts(a, all, k);
      TopFacts(b, all, k);
      hide IsTop;
      SameAt(a, b, all, k, n - 1);
      var i := n - 1;
      forall h | 0 <= h < i ensures a[h] == b[h] { assert a[..i][h] == b[..i][h]; }
      if a[i] != b[i] {
        FirstDifference(a, b, all, k, i);
        FirstDifference(b, a, all, k, i);
      }
    }
  }

  lemma TopFacts(a: seq<Hit>, all: set<Hit>, k: nat)
    requires IsTop(a, all, k)
    ensures NoRepeats(a) && forall i :: 0 <= i < |a| ==> a[i] in all
  {
  }

  /** Where another selection first differs from the answer, the answer's hit comes first. */
  lemma FirstDifference(a: seq<Hit>, b: seq<Hit>, all: set<Hit>, k: nat, i: nat)
    requires IsTop(a, all, k) && NoRepeats(b) && i < |a| && i < |b| && b[i] in all && a[i] != b[i]
    requires forall h :: 0 <= h < i ==> a[h] == b[h]
    ensures Precedes(a[i], b[i])
  {
    assert forall h :: 0 <= h < i ==> a[h] != b[i];
    if b[i] in a {
      var j :| 0 <= j < |a| && a[j] == b[i];
      assert i < j;
    }
  }

  method WorstHit(hits: seq<Hit>) returns (worst: nat)
    requires |hits| > 0
    ensures IsWorst(hits, worst)
  {
    worst := 0;
    for i := 1 to |hits|
      invariant worst < |hits| && forall h :: 0 <= h < i ==> !Precedes(hits[worst], hits[h])
    {
      if Precedes(hits[worst], hits[i]) {
        worst := i;
      }
    }
  }

  predicate IsWorst(hits: seq<Hit>, worst: nat) {
    worst < |hits| && forall i :: 0 <= i < |hits| ==> !Precedes(hits[worst], hits[i])
  }

  /** The buffer after an offer: appended while there is room, else put in place of a worse worst hit. */
  ghost predicate Added(hits: seq<Hit>, k: nat, hit: Hit, after: seq<Hit>) {
    if |hits| < k then after == hits + [hit]
    else exists worst: nat :: IsWorst(hits, worst) && after == if Precedes(hit, hits[worst]) then hits[worst := hit] else hits
  }

  method AddHit(hits: seq<Hit>, k: nat, hit: Hit) returns (after: seq<Hit>)
    requires k > 0
    ensures Added(hits, k, hit, after)
  {
    if |hits| < k {
      after := hits + [hit];
    } else {
      var worst := WorstHit(hits);
      assert IsWorst(hits, worst);
      after := if Precedes(hit, hits[worst]) then hits[worst := hit] else hits;
    }
  }

  /** Offering a new object keeps the first k of everything seen. */
  lemma AddedKeepsTop(hits: seq<Hit>, k: nat, hit: Hit, after: seq<Hit>, seen: set<Hit>)
    requires k > 0 && HoldsTop(hits, seen, k) && hit !in seen && OnePerObject(seen + {hit}) && Added(hits, k, hit, after)
    ensures HoldsTop(after, seen + {hit}, k)
  {
    if |hits| == k {
      var worst: nat :| IsWorst(hits, worst) && after == if Precedes(hit, hits[worst]) then hits[worst := hit] else hits;
      forall i | 0 <= i < |hits| ensures !SameObject(hits[i], hit) {
        assert hits[i] in seen + {hit} && hit in seen + {hit};
      }
      if Precedes(hit, hits[worst]) {
        ReplaceKeeps(hits, seen, k, hit, worst);
      } else {
        forall i | 0 <= i < |hits| ensures Precedes(hits[i], hit) {
          assert !Precedes(hits[worst], hits[i]) && Precedes(hits[worst], hit);
        }
      }
    }
  }

  lemma ReplaceKeeps(hits: seq<Hit>, seen: set<Hit>, k: nat, hit: Hit, worst: nat)
    requires HoldsTop(hits, seen, k) && |hits| == k && hit !in seen && OnePerObject(seen)
    requires worst < |hits| && Precedes(hit, hits[worst])
    requires forall i :: 0 <= i < |hits| ==> !Precedes(hits[worst], hits[i])
    ensures HoldsTop(hits[worst := hit], seen + {hit}, k)
  {
    var after := hits[worst := hit];
    forall i, h | 0 <= i < |after| && h in seen + {hit} && h !in after ensures Precedes(after[i], h) {
      assert h != hit by { assert after[worst] == hit; }
      assert hits[worst] in seen;
      if h == hits[worst] {
        if i != worst { assert hits[i] in seen && !SameObject(hits[i], hits[worst]); }
      } else {
        assert h !in hits by {
          forall j | 0 <= j < |hits| ensures hits[j] != h { assert after[j] != h; }
        }
        assert Precedes(hits[worst], h) && Precedes(hits[i], h);
      }
    }
  }

  function LowestScore(hits: seq<Hit>): (r: real)
    requires |hits| > 0
    ensures exists i :: 0 <= i < |hits| && hits[i].score == r
    ensures forall i :: 0 <= i < |hits| ==> r <= hits[i].score
  {
    var last := hits[|hits| - 1].score;
    if |hits| == 1 then last
    else
      var rest := LowestScore(hits[..|hits| - 1]);
      assert forall i :: 0 <= i < |hits| - 1 ==> hits[..|hits| - 1][i] == hits[i];
      if last < rest then last else rest
  }

  /** Nothing is pruned until the buffer is full; then its lowest score is the bar. */
  function Threshold(hits: seq<Hit>, k: nat): real
    requires k > 0
  {
    if |hits| < k then 0.0 else LowestScore(hits)
  }

  method HitThreshold(hits: seq<Hit>, k: nat) returns (r: real)
    requires k > 0
    ensures r == Threshold(hits, k)
  {
    if |hits| < k {
      return 0.0;
    }
    r := hits[0].score;
    for i := 1 to |hits|
      invariant r == LowestScore(hits[..i])
    {
      assert hits[..i + 1][..i] == hits[..i];
      if hits[i].score < r {
        r := hits[i].score;
      }
    }
    assert hits[..|hits|] == hits;
  }

  function Insert(hit: Hit, sorted: seq<Hit>): seq<Hit> {
    if |sorted| == 0 || Precedes(hit, sorted[0]) then [hit] + sorted else [sorted[0]] + Insert(hit, sorted[1..])
  }

  function Sort(hits: seq<Hit>): seq<Hit> {
    if |hits| == 0 then [] else Insert(hits[0], Sort(hits[1..]))
  }

  lemma {:induction false} InsertMembers(hit: Hit, sorted: seq<Hit>)
    ensures |Insert(hit, sorted)| == |sorted| + 1
    ensures forall h :: h in Insert(hit, sorted) <==> h == hit || h in sorted
  {
    if !(|sorted| == 0 || Precedes(hit, sorted[0])) {
      InsertMembers(hit, sorted[1..]);
      assert sorted == [sorted[0]] + sorted[1..];
    }
  }

  lemma {:induction false} InsertSorted(hit: Hit, sorted: seq<Hit>)
    requires Sorted(sorted) && forall h :: h in sorted ==> !SameObject(h, hit)
    ensures Sorted(Insert(hit, sorted))
  {
    if |sorted| == 0 {
    } else if Precedes(hit, sorted[0]) {
      assert forall j :: 0 < j < |sorted| ==> Precedes(sorted[0], sorted[j]);
    } else {
      InsertSorted(hit, sorted[1..]);
      InsertMembers(hit, sorted[1..]);
      var rest := Insert(hit, sorted[1..]);
      forall j | 0 <= j < |rest| ensures Precedes(sorted[0], rest[j]) {
        assert rest[j] in rest && sorted[0] in sorted;
        if rest[j] in sorted[1..] {
          var h :| 0 <= h < |sorted[1..]| && sorted[1..][h] == rest[j];
          assert sorted[h + 1] == rest[j];
        }
      }
    }
  }

  /** The final sort puts the buffer into hit order without changing what it holds. */
  lemma {:induction false} SortCorrect(hits: seq<Hit>)
    requires forall i, j :: 0 <= i < j < |hits| ==> !SameObject(hits[i], hits[j])
    ensures Sorted(Sort(hits)) && |Sort(hits)| == |hits| && forall h :: h in Sort(hits) <==> h in hits
  {
    if |hits| > 0 {
      SortCorrect(hits[1..]);
      InsertMembers(hits[0], Sort(hits[1..]));
      assert hits == [hits[0]] + hits[1..];
      forall h | h in Sort(hits[1..]) ensures !SameObject(h, hits[0]) {
        var j :| 0 <= j < |hits[1..]| && hits[1..][j] == h;
        assert hits[j + 1] == h;
      }
      InsertSorted(hits[0], Sort(hits[1..]));
    }
  }

  lemma SortedTop(hits: seq<Hit>, seen: set<Hit>, k: nat)
    requires HoldsTop(hits, seen, k) && OnePerObject(seen)
    ensures IsTop(Sort(hits), seen, k)
  {
    SortCorrect(hits);
    var r := Sort(hits);
    forall i, j | 0 <= i < j < |r| ensures r[i] != r[j] {
      assert Precedes(r[i], r[j]);
    }
    forall i | 0 <= i < |r| ensures r[i] in seen && forall h :: h in seen && h !in r ==> Precedes(r[i], h) {
      assert r[i] in r;
      var j :| 0 <= j < |hits| && hits[j] == r[i];
    }
  }
}
