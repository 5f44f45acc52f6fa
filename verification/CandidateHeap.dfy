/**
 The indexed heap of a candidate set: heap lists item indexes with the worst item at the root, and
 positions is its inverse.
 */
module CandidateHeap {
  import opened Candidates

  /** heap and positions are inverse permutations of 0..n. */
  predicate Inverse(heap: seq<nat>, positions: seq<nat>, n: nat) {
    && n <= |heap| && n <= |positions|
    && (forall i :: 0 <= i < n ==> heap[i] < n && positions[heap[i]] == i)
    && (forall j :: 0 <= j < n ==> positions[j] < n && heap[positions[j]] == j)
  }

  function Parent(i: nat): nat
    requires i > 0
  {
    (i - 1) / 2
  }

  /** The item at heap position a may stand above the item at position b. */
  predicate Above(items: seq<Candidate>, heap: seq<nat>, a: nat, b: nat)
    requires a < |heap| && b < |heap| && heap[a] < |items| && heap[b] < |items|
  {
    !Better(items[heap[a]], items[heap[b]])
  }

  predicate HeapOrder(items: seq<Candidate>, heap: seq<nat>, n: nat) {
    && n <= |heap| && (forall i :: 0 <= i < n ==> heap[i] < |items|)
    && forall i :: 0 < i < n ==> Above(items, heap, Parent(i), i)
  }

  /** Heap order may be broken only between p and its children; p's parent is above those children. */
  predicate BrokenBelow(items: seq<Candidate>, heap: seq<nat>, n: nat, p: nat) {
    && n <= |heap| && p < n && (forall i :: 0 <= i < n ==> heap[i] < |items|)
    && (forall i :: 0 < i < n && Parent(i) != p ==> Above(items, heap, Parent(i), i))
    && (p > 0 ==> forall i :: 0 < i < n && Parent(i) == p ==> Above(items, heap, Parent(p), i))
  }

  /** Heap order may be broken only between p and its parent, which is above p's children. */
  predicate BrokenAbove(items: seq<Candidate>, heap: seq<nat>, n: nat, p: nat) {
    && n <= |heap| && p < n && (forall i :: 0 <= i < n ==> heap[i] < |items|)
    && (forall i :: 0 < i < n && i != p ==> Above(items, heap, Parent(i), i))
    && (p > 0 ==> forall i :: 0 < i < n && Parent(i) == p ==> Above(items, heap, Parent(p), i))
  }

  lemma AboveTransitive(a: Candidate, b: Candidate, c: Candidate)
    requires !Better(a, b) && !Better(b, c)
    ensures !Better(a, c)
  {
    BetterTotal(a, b);
    BetterTotal(b, c);
    if Better(a, c) {
      BetterTotal(a, c);
      if Better(b, a) { BetterTransitive(b, a, c); }
      else if Better(c, b) { BetterTransitive(a, c, b); }
    }
  }

  /** The root of a heap is the worst of distinct items. */
  lemma {:induction false} RootIsAbove(items: seq<Candidate>, heap: seq<nat>, n: nat, i: nat)
    requires HeapOrder(items, heap, n) && i < n
    ensures Above(items, heap, 0, i)
  {
    if i == 0 {
      BetterTotal(items[heap[0]], items[heap[0]]);
    } else {
      RootIsAbove(items, heap, n, Parent(i));
      AboveTransitive(items[heap[0]], items[heap[Parent(i)]], items[heap[i]]);
    }
  }

  lemma RootIsWorst(items: seq<Candidate>, heap: seq<nat>, positions: seq<nat>, n: nat)
    requires 0 < n <= |items| && HeapOrder(items, heap, n) && Inverse(heap, positions, n) && DistinctIds(items[..n])
    ensures IsWorst(items[..n], heap[0])
  {
    forall j | 0 <= j < n && j != heap[0] ensures Better(items[j], items[heap[0]]) {
      RootIsAbove(items, heap, n, positions[j]);
      BetterTotal(items[j], items[heap[0]]);
      assert items[..n][j].id != items[..n][heap[0]].id;
    }
  }

  /** Replacing an item by a better one can break heap order only below it. */
  lemma ImprovedBreaksBelow(items: seq<Candidate>, heap: seq<nat>, positions: seq<nat>, n: nat, p: nat, c: Candidate)
    requires HeapOrder(items, heap, n) && Inverse(heap, positions, n) && n <= |items| && p < n
    requires Better(c, items[heap[p]])
    ensures BrokenBelow(items[heap[p] := c], heap, n, p)
  {
    var after := items[heap[p] := c];
    forall i | 0 <= i < n && i != p ensures after[heap[i]] == items[heap[i]] {
      assert positions[heap[i]] == i && positions[heap[p]] == p;
    }
    BetterTotal(c, items[heap[p]]);
    if p > 0 {
      AboveTransitive(items[heap[Parent(p)]], items[heap[p]], c);
      forall i | 0 < i < n && Parent(i) == p ensures Above(after, heap, Parent(p), i) {
        AboveTransitive(items[heap[Parent(p)]], items[heap[p]], items[heap[i]]);
      }
    }
  }

  /** A new last leaf can break heap order only above it. */
  lemma AppendedBreaksAbove(items: seq<Candidate>, heap: seq<nat>, positions: seq<nat>, n: nat, c: Candidate)
    requires HeapOrder(items, heap, n) && Inverse(heap, positions, n) && n < |items| && n < |heap| && n < |positions|
    ensures BrokenAbove(items[n := c], heap[n := n], n + 1, n)
    ensures Inverse(heap[n := n], positions[n := n], n + 1)
  {
    forall i | 0 < i < n ensures Above(items[n := c], heap[n := n], Parent(i), i) {
      assert Above(items, heap, Parent(i), i);
    }
  }

  function Swapped(heap: seq<nat>, a: nat, b: nat): (r: seq<nat>)
    requires a < |heap| && b < |heap|
    ensures |r| == |heap|
  {
    heap[a := heap[b]][b := heap[a]]
  }

  /** Exchange two heap entries and repair the inverse. */
  method Swap(heap: array<nat>, positions: array<nat>, n: nat, a: nat, b: nat)
    requires heap != positions && Inverse(heap[..], positions[..], n) && a < n && b < n && a != b
    modifies heap, positions
    ensures heap[..] == Swapped(old(heap[..]), a, b)
    ensures Inverse(heap[..], positions[..], n)
  {
    var candidate := heap[a];
    heap[a] := heap[b];
    heap[b] := candidate;
    positions[heap[a]] := a;
    positions[heap[b]] := b;
  }

  /** Moving the worst child up leaves a break only below the child's old position. */
  lemma SwapDown(items: seq<Candidate>, heap: seq<nat>, n: nat, p: nat, w: nat)
    requires BrokenBelow(items, heap, n, p) && p < w < n && Parent(w) == p
    requires Better(items[heap[p]], items[heap[w]])
    requires forall i :: 0 < i < n && Parent(i) == p ==> Above(items, heap, w, i)
    ensures BrokenBelow(items, Swapped(heap, p, w), n, w)
  {
    var after := Swapped(heap, p, w);
    BetterTotal(items[heap[p]], items[heap[w]]);
    forall i | 0 < i < n && Parent(i) != w ensures Above(items, after, Parent(i), i) {
      assert i != w ==> after[i] == heap[if i == p then w else i];
    }
  }

  lemma SwapUp(items: seq<Candidate>, heap: seq<nat>, n: nat, p: nat)
    requires BrokenAbove(items, heap, n, p) && p > 0
    requires Better(items[heap[Parent(p)]], items[heap[p]])
    ensures BrokenAbove(items, Swapped(heap, p, Parent(p)), n, Parent(p))
  {
    var q := Parent(p);
    var after := Swapped(heap, p, q);
    BetterTotal(items[heap[q]], items[heap[p]]);
    forall i | 0 < i < n && i != q ensures Above(items, after, Parent(i), i) {
      if i != p && Parent(i) == q {
        assert Above(items, heap, q, i);
        AboveTransitive(items[heap[p]], items[heap[q]], items[heap[i]]);
      }
    }
    if q > 0 {
      forall i | 0 < i < n && Parent(i) == q ensures Above(items, after, Parent(q), i) {
        assert Above(items, heap, Parent(q), q);
        if i != p {
          assert Above(items, heap, q, i);
          AboveTransitive(items[heap[Parent(q)]], items[heap[q]], items[heap[i]]);
        }
      }
    }
  }

  /** Sift an item towards the root while it is worse than its parent. */
  method HeapUp(items: array<Candidate>, heap: array<nat>, positions: array<nat>, n: nat, start: nat)
    requires heap != positions && n <= items.Length && Inverse(heap[..], positions[..], n)
    requires BrokenAbove(items[..], heap[..], n, start)
    modifies heap, positions
    ensures Inverse(heap[..], positions[..], n) && HeapOrder(items[..], heap[..], n)
  {
    var position: nat := start;
    while position > 0
      invariant Inverse(heap[..], positions[..], n) && BrokenAbove(items[..], heap[..], n, position)
    {
      var parent := (position - 1) / 2;
      if !Better(items[heap[parent]], items[heap[position]]) {
        break;
      }
      SwapUp(items[..], heap[..], n, position);
      Swap(heap, positions, n, position, parent);
      position := parent;
    }
  }

  /** Index of the worst among a position and its children. */
  method WorstOf(items: array<Candidate>, heap: array<nat>, n: nat, position: nat) returns (worst: nat)
    requires position < n <= heap.Length && forall i :: 0 <= i < n ==> heap[i] < items.Length
    ensures worst < n && (worst == position || (worst > 0 && Parent(worst) == position))
    ensures worst == position ==> forall i :: 0 < i < n && Parent(i) == position ==> Above(items[..], heap[..], position, i)
    ensures worst != position ==> Better(items[heap[position]], items[heap[worst]])
    ensures worst != position ==> forall i :: 0 < i < n && Parent(i) == position ==> Above(items[..], heap[..], worst, i)
  {
    var left, right := position * 2 + 1, position * 2 + 2;
    worst := position;
    if left < n && Better(items[heap[worst]], items[heap[left]]) {
      worst := left;
    }
    ghost var first := worst;
    if right < n && Better(items[heap[worst]], items[heap[right]]) {
      worst := right;
    }
    assert forall i :: 0 < i < n && Parent(i) == position ==> i == left || i == right;
    BetterTotal(items[heap[worst]], items[heap[worst]]);
    BetterTotal(items[heap[first]], items[heap[worst]]);
    if worst != first && first != position {
      BetterTransitive(items[heap[position]], items[heap[first]], items[heap[worst]]);
    }
    if left < n && worst != first && first == position {
      AboveTransitive(items[heap[worst]], items[heap[position]], items[heap[left]]);
    }
  }

  /** Sift an item away from the root while one of its children is worse. */
  method HeapDown(items: array<Candidate>, heap: array<nat>, positions: array<nat>, n: nat, start: nat)
    requires heap != positions && n <= items.Length && Inverse(heap[..], positions[..], n)
    requires BrokenBelow(items[..], heap[..], n, start)
    modifies heap, positions
    ensures Inverse(heap[..], positions[..], n) && HeapOrder(items[..], heap[..], n)
  {
    var position := start;
    while true
      invariant Inverse(heap[..], positions[..], n) && BrokenBelow(items[..], heap[..], n, position)
      decreases n - position
    {
      var worst := WorstOf(items, heap, n, position);
      if worst == position {
        return;
      }
      SwapDown(items[..], heap[..], n, position, worst);
      Swap(heap, positions, n, position, worst);
      position := worst;
    }
  }
}
