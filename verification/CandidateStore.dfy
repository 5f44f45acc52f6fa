/** The candidate set as an object: items, heap, inverse positions and id table changed in place. */
module CandidateStore {
  import opened Common
  import opened Probing
  import opened Candidates
  import Heap = CandidateHeap
  import Hash = CandidateHash

  /** Putting a candidate of a new id at position at, inside or right behind the first n items. */
  lemma DistinctPut(items: seq<Candidate>, n: nat, at: nat, c: Candidate)
    requires at <= n <= |items| && at < |items| && DistinctIds(items[..n]) && !Contains(items[..n], c.id)
    ensures DistinctIds(items[at := c][..if at < n then n else n + 1])
    ensures forall j :: 0 <= j < n ==> items[j].id != c.id
    ensures forall j, k :: 0 <= j < k < n ==> items[j].id != items[k].id
    ensures at == n ==> items[at := c][..n + 1] == items[..n] + [c]
  {
    assert forall j :: 0 <= j < n ==> items[..n][j] == items[j];
  }

  /** Taking one position out of a full table of places and putting it back. */
  lemma PlaceFacts(place: map<nat, nat>, count: nat, index: nat)
    requires place.Keys == Range(count) && index < count
    ensures index in place && |place| == count && forall j :: j in place ==> j < count
    ensures var rest := place - {index}; index !in rest && |rest| < count && rest.Keys + {index} == Range(count)
  {
    assert |place| == |place.Keys| == count;
    var rest := place - {index};
    assert rest.Keys == place.Keys - {index} && |rest| == |rest.Keys|;
    SubsetSize(rest.Keys, Range(count) - {index});
  }

  lemma DistinctSet(items: seq<Candidate>, at: nat, c: Candidate)
    requires DistinctIds(items) && at < |items| && items[at].id == c.id
    ensures DistinctIds(items[at := c])
  {
  }

  class CandidateSet {
    const capacity: nat
    const hash: Bytes -> nat
    const items: array<Candidate>
    const heap: array<nat>
    const positions: array<nat>
    const slots: array<Hash.Slot>
    var count: nat
    ghost var place: map<nat, nat>

    ghost predicate Shape()
      reads this
    {
      && capacity > 0 && items.Length == capacity && heap.Length == capacity && positions.Length == capacity
      && slots.Length >= 2 * capacity && heap != positions && count <= capacity
      && (items as object) !in {heap as object, positions, slots} && (slots as object) !in {heap as object, positions}
    }

    ghost predicate Valid()
      reads this, items, heap, positions, slots
    {
      && Shape() && TableValid()
      && Heap.Inverse(heap[..], positions[..], count)
      && Heap.HeapOrder(items[..], heap[..], count)
    }

    /** Items have distinct ids and the table finds every one of them. */
    ghost predicate TableValid()
      reads this, items, slots
    {
      && count <= items.Length && DistinctIds(items[..count])
      && Hash.Holds(slots[..], items[..], hash, place)
      && place.Keys == Range(count)
    }

    /** The candidates held, in insertion order. */
    function Items(): seq<Candidate>
      requires count <= items.Length
      reads this, items
    {
      items[..count]
    }

    constructor (capacity: nat, hash: Bytes -> nat)
      requires capacity > 0
      ensures Valid() && fresh(items) && fresh(heap) && fresh(positions) && fresh(slots)
      ensures this.capacity == capacity && this.hash == hash && Items() == []
    {
      var size := TableSize(capacity);
      this.capacity, this.hash := capacity, hash;
      items := new Candidate[capacity](_ => Candidate([], 0.0, 0));
      heap := new nat[capacity](_ => 0);
      positions := new nat[capacity](_ => 0);
      slots := new Hash.Slot[size](_ => Hash.Empty);
      count, place := 0, map[];
    }

    /** A better offer for an id that is already held. */
    method Improve(index: nat, c: Candidate)
      requires Valid() && index < count && items[index].id == c.id && Better(c, items[index])
      modifies items, heap, positions
      ensures Valid() && Items() == old(Items())[index := c]
    {
      var position := positions[index];
      Heap.ImprovedBreaksBelow(items[..], heap[..], positions[..], count, position, c);
      SetItem(index, c);
      Heap.HeapDown(items, heap, positions, count, position);
    }

    /** Overwrite an item by another candidate of the same id. */
    method SetItem(index: nat, c: Candidate)
      requires Shape() && TableValid() && index < count && items[index].id == c.id
      modifies items
      ensures TableValid() && items[..] == old(items[..])[index := c]
    {
      hide Hash.Holds, DistinctIds;
      ghost var before := items[..];
      items[index] := c;
      assert items[..] == before[index := c] && items[..count] == before[..count][index := c];
      DistinctSet(before[..count], index, c);
      Hash.SameIdsKeep(slots[..], before, items[..], hash, place);
    }

    /** An offer for a new id while there is room. */
    method Append(c: Candidate)
      requires Valid() && count < capacity && !Contains(Items(), c.id)
      modifies this, items, heap, positions, slots
      ensures Valid() && Items() == old(Items()) + [c]
    {
      var index := count;
      Heap.AppendedBreaksAbove(items[..], heap[..], positions[..], index, c);
      AppendItem(c);
      AppendLeaf(index);
      Heap.HeapUp(items, heap, positions, count, index);
    }

    method AppendItem(c: Candidate)
      requires Shape() && TableValid() && count < capacity && !Contains(Items(), c.id)
      modifies this, items, slots
      ensures TableValid() && count == old(count) + 1 && items[..] == old(items[..])[old(count) := c]
      ensures Items() == old(Items()) + [c]
    {
      ghost var before := items[..];
      assert |place| == |place.Keys| == count;
      DistinctPut(before, count, count, c);
      place := Hash.Put(slots, items, hash, count, c, place);
      count := count + 1;
    }

    method AppendLeaf(index: nat)
      requires index < heap.Length && index < positions.Length && heap != positions
      modifies heap, positions
      ensures heap[..] == old(heap[..])[index := index] && positions[..] == old(positions[..])[index := index]
    {
      heap[index] := index;
      positions[index] := index;
    }

    /** An offer for a new id that is better than the worst of a full set. */
    method ReplaceWorst(c: Candidate)
      requires Valid() && count == capacity && !Contains(Items(), c.id) && Better(c, items[heap[0]])
      modifies this`place, items, heap, positions, slots
      ensures Valid() && Items() == old(Items()[heap[0] := c])
    {
      Heap.ImprovedBreaksBelow(items[..], heap[..], positions[..], count, 0, c);
      ReplaceItem(heap[0], c);
      Heap.HeapDown(items, heap, positions, count, 0);
    }

    /** Overwrite an item by a candidate of a new id and move its table entry. */
    method ReplaceItem(index: nat, c: Candidate)
      requires Shape() && TableValid() && index < count && !Contains(Items(), c.id)
      modifies this`place, items, slots
      ensures TableValid() && items[..] == old(items[..])[index := c]
    {
      hide Hash.Holds, DistinctIds, Contains, Range;
      ghost var before := items[..];
      PlaceFacts(place, count, index);
      DistinctPut(before, count, index, c);
      Hash.Remove(slots, items, hash, index, place);
      place := place - {index};
      place := Hash.Put(slots, items, hash, index, c, place);
    }

    /**
     Offer a candidate.  Whatever was offered before, the set goes on holding exactly the best
     capacity ids, each at the best offer made for it.
     */
    method Add(c: Candidate)
      requires Valid()
      modifies this, items, heap, positions, slots
      ensures Valid()
      ensures forall best :: IsBest(old(Items()), best, capacity) ==> IsBest(Items(), Offer(best, c), capacity)
    {
      hide IsBest, Offer;
      ghost var before := Items();
      var found, slot := Hash.FindSlot(slots, items, hash, c.id, place);
      if found {
        var index := slots[slot].index;
        forall best | IsBest(before, best, capacity)
          ensures IsBest(if Better(c, before[index]) then before[index := c] else before, Offer(best, c), capacity)
        {
          FoundKeepsBest(before, best, capacity, c, index);
        }
        if Better(c, items[index]) {
          Improve(index, c);
        }
      } else if count < capacity {
        forall best | IsBest(before, best, capacity) ensures IsBest(before + [c], Offer(best, c), capacity) {
          AppendedKeepsBest(before, best, capacity, c);
        }
        Append(c);
      } else {
        var worst := heap[0];
        Heap.RootIsWorst(items[..], heap[..], positions[..], count);
        if Better(c, items[worst]) {
          forall best | IsBest(before, best, capacity) ensures IsBest(before[worst := c], Offer(best, c), capacity) {
            ReplacedKeepsBest(before, best, capacity, c, worst);
          }
          ReplaceWorst(c);
        } else {
          forall best | IsBest(before, best, capacity) ensures IsBest(before, Offer(best, c), capacity) {
            RejectedKeepsBest(before, best, capacity, c, worst);
          }
        }
      }
    }
  }

  /** After any sequence of offers the set holds exactly the best of everything offered. */
  method CollectBest(capacity: nat, hash: Bytes -> nat, offers: seq<Candidate>) returns (best: seq<Candidate>)
    requires capacity > 0
    ensures IsBest(best, Offers(offers), capacity) && BestOf(best, offers, capacity)
  {
    hide IsBest, Offers, Offer, BestOf;
    var set_ := new CandidateSet(capacity, hash);
    NothingOffered(capacity);
    assert offers[..0] == [];
    for i := 0 to |offers|
      invariant set_.Valid() && set_.capacity == capacity
      invariant fresh(set_) && fresh(set_.items) && fresh(set_.heap) && fresh(set_.positions) && fresh(set_.slots)
      invariant IsBest(set_.Items(), Offers(offers[..i]), capacity)
    {
      OffersNext(offers, i);
      set_.Add(offers[i]);
    }
    assert offers[..|offers|] == offers;
    best := set_.Items();
    BestInFull(best, offers, capacity);
  }
}
