/** The id table of a candidate set: open addressing with linear probing and deletion marks. */
module CandidateHash {
  import opened Common
  import opened Probing
  import opened Candidates

  /** Slot states 0, 1 and 2 of the table. */
  datatype Slot = Empty | Used(index: nat) | Dead

  function Home(id: Bytes, hash: Bytes -> nat, size: nat): nat
    requires size > 0
  {
    hash(id) % size
  }

  predicate PathTaken(slots: seq<Slot>, home: nat, slot: nat)
    requires home < |slots| && slot < |slots|
  {
    forall k :: 0 <= k < Distance(home, slot, |slots|) ==> !slots[At(home, k, |slots|)].Empty?
  }

  /** Exactly the items in the domain of place are in the table, each reachable from its home slot. */
  predicate Holds(slots: seq<Slot>, items: seq<Candidate>, hash: Bytes -> nat, place: map<nat, nat>) {
    && |slots| > 0
    && (forall s :: 0 <= s < |slots| && slots[s].Used? ==> slots[s].index in place && place[slots[s].index] == s)
    && (forall j :: j in place ==>
          && j < |items| && place[j] < |slots| && slots[place[j]] == Used(j)
          && PathTaken(slots, Home(items[j].id, hash, |slots|), place[j]))
  }

  /** Fewer stored items than slots leave a slot that is empty or dead. */
  lemma UnusedSlot(slots: seq<Slot>, items: seq<Candidate>, hash: Bytes -> nat, place: map<nat, nat>) returns (free: nat)
    requires Holds(slots, items, hash, place) && |place| < |slots|
    ensures free < |slots| && !slots[free].Used?
  {
    var owned := Image(place);
    ImageSize(place);
    assert forall s :: 0 <= s < |slots| && slots[s].Used? ==> place[slots[s].index] in owned;
    free := FreeSlot(owned, |slots|);
  }

  function Image(place: map<nat, nat>): set<nat> {
    set j | j in place :: place[j]
  }

  lemma {:induction false} ImageSize(place: map<nat, nat>)
    ensures |Image(place)| <= |place|
    decreases |place|
  {
    if |place| > 0 {
      var x :| x in place;
      var rest := place - {x};
      assert rest.Keys == place.Keys - {x};
      ImageSize(rest);
      forall y | y in Image(place) ensures y in Image(rest) + {place[x]} {
        var j :| j in place && place[j] == y;
        assert j != x ==> j in rest && rest[j] == y;
      }
      SubsetSize(Image(place), Image(rest) + {place[x]});
    }
  }

  lemma StoredIsOnPath(slots: seq<Slot>, items: seq<Candidate>, hash: Bytes -> nat, place: map<nat, nat>, j: nat)
    requires Holds(slots, items, hash, place) && j in place
    ensures var home := Home(items[j].id, hash, |slots|);
      var d := Distance(home, place[j], |slots|);
      && slots[At(home, d, |slots|)] == Used(j)
      && forall k :: 0 <= k <= d ==> !slots[At(home, k, |slots|)].Empty?
  {
    assert PathTaken(slots, Home(items[j].id, hash, |slots|), place[j]);
  }

  lemma HoldsSlots(slots: seq<Slot>, items: seq<Candidate>, hash: Bytes -> nat, place: map<nat, nat>)
    requires Holds(slots, items, hash, place)
    ensures |slots| > 0 && forall j :: j in place ==> j < |items|
  {
  }

  lemma UsedIsPlaced(slots: seq<Slot>, items: seq<Candidate>, hash: Bytes -> nat, place: map<nat, nat>, s: nat)
    requires Holds(slots, items, hash, place) && s < |slots|
    ensures slots[s].Used? ==> slots[s].index in place && slots[s].index < |items|
  {
  }

  /**
   Probe for an id.  When it is stored, the slot is the one that holds it; otherwise the slot is the
   first deletion mark on the way, or the empty slot that ended the search.
   */
  method FindSlot(slots: array<Slot>, items: array<Candidate>, hash: Bytes -> nat, id: Bytes, ghost place: map<nat, nat>)
    returns (found: bool, slot: nat)
    requires Holds(slots[..], items[..], hash, place) && |place| < slots.Length
    ensures slot < slots.Length
    ensures found ==> slots[slot].Used? && slots[slot].index in place && items[slots[slot].index].id == id
    ensures !found ==> forall j :: j in place ==> items[j].id != id
    ensures !found ==> !slots[slot].Used? && PathTaken(slots[..], Home(id, hash, slots.Length), slot)
  {
    hide Holds;
    var size := slots.Length;
    HoldsSlots(slots[..], items[..], hash, place);
    var home := Home(id, hash, size);
    var index, probes := home, 0;
    var deleted: Option<nat> := None;
    while probes < size
      invariant probes <= size && index == At(home, probes, size)
      invariant Scanned(slots[..], items[..], home, id, probes)
      invariant FirstMark(slots[..], home, probes, deleted)
    {
      if slots[index].Empty? {
        Missed(slots[..], items[..], hash, place, id, probes);
        return false, if deleted.None? then index else deleted.value;
      }
      UsedIsPlaced(slots[..], items[..], hash, place, index);
      if slots[index].Used? && items[slots[index].index].id == id {
        return true, index;
      }
      if slots[index].Dead? && deleted.None? {
        deleted := Some(index);
      }
      index, probes := Wrap(index, size), probes + 1;
    }
    Missed(slots[..], items[..], hash, place, id, probes);
    MarkExists(slots[..], items[..], hash, place, home, id, deleted);
    return false, deleted.value;
  }

  /** A full round over a table with room has met a deletion mark. */
  lemma MarkExists(slots: seq<Slot>, items: seq<Candidate>, hash: Bytes -> nat, place: map<nat, nat>, home: nat, id: Bytes,
                   deleted: Option<nat>)
    requires Holds(slots, items, hash, place) && |place| < |slots| && Scanned(slots, items, home, id, |slots|)
    requires FirstMark(slots, home, |slots|, deleted)
    ensures deleted.Some?
  {
    var free := UnusedSlot(slots, items, hash, place);
    assert At(home, Distance(home, free, |slots|), |slots|) == free;
  }

  /** The first probes were all taken, and none of them by the id. */
  predicate Scanned(slots: seq<Slot>, items: seq<Candidate>, home: nat, id: Bytes, probes: nat) {
    home < |slots| && probes <= |slots| && forall k :: 0 <= k < probes ==>
      var slot := slots[At(home, k, |slots|)];
      !slot.Empty? && (slot.Used? ==> slot.index < |items| && items[slot.index].id != id)
  }

  /** The remembered deletion mark lies among the first probes; without one they are all in use. */
  predicate FirstMark(slots: seq<Slot>, home: nat, probes: nat, deleted: Option<nat>)
    requires home < |slots| && probes <= |slots|
  {
    match deleted
    case None => forall k :: 0 <= k < probes ==> !slots[At(home, k, |slots|)].Dead?
    case Some(d) => d < |slots| && slots[d].Dead? && Distance(home, d, |slots|) < probes
  }

  lemma Missed(slots: seq<Slot>, items: seq<Candidate>, hash: Bytes -> nat, place: map<nat, nat>, id: Bytes, probes: nat)
    requires Holds(slots, items, hash, place) && Scanned(slots, items, Home(id, hash, |slots|), id, probes)
    requires probes < |slots| ==> slots[At(Home(id, hash, |slots|), probes, |slots|)].Empty?
    ensures forall j :: j in place ==> items[j].id != id
  {
    forall j | j in place ensures items[j].id != id {
      StoredIsOnPath(slots, items, hash, place, j);
    }
  }

  /** Store an item that is not in the table yet. */
  method Insert(slots: array<Slot>, items: array<Candidate>, hash: Bytes -> nat, index: nat, ghost place: map<nat, nat>)
    returns (ghost after: map<nat, nat>)
    requires Holds(slots[..], items[..], hash, place) && |place| < slots.Length
    requires index < items.Length && index !in place && forall j :: j in place ==> items[j].id != items[index].id
    modifies slots
    ensures after.Keys == place.Keys + {index} && Holds(slots[..], items[..], hash, after)
  {
    var found, slot := FindSlot(slots, items, hash, items[index].id, place);
    ghost var before := slots[..];
    slots[slot] := Used(index);
    after := place[index := slot];
    InsertKeeps(before, items[..], hash, place, index, slot);
    assert slots[..] == before[slot := Used(index)];
  }

  lemma InsertKeeps(before: seq<Slot>, items: seq<Candidate>, hash: Bytes -> nat, place: map<nat, nat>, index: nat, slot: nat)
    requires Holds(before, items, hash, place) && index < |items| && index !in place
    requires slot < |before| && !before[slot].Used? && PathTaken(before, Home(items[index].id, hash, |before|), slot)
    ensures Holds(before[slot := Used(index)], items, hash, place[index := slot])
  {
    var after, places := before[slot := Used(index)], place[index := slot];
    forall j | j in places ensures PathTaken(after, Home(items[j].id, hash, |after|), places[j]) {
      var home := Home(items[j].id, hash, |after|);
      assert PathTaken(before, home, places[j]);
    }
  }

  /** Leave a deletion mark where the item with the id is stored. */
  method Remove(slots: array<Slot>, items: array<Candidate>, hash: Bytes -> nat, index: nat, ghost place: map<nat, nat>)
    requires Holds(slots[..], items[..], hash, place) && |place| < slots.Length && index in place
    requires forall j :: j in place && j != index ==> items[j].id != items[index].id
    modifies slots
    ensures Holds(slots[..], items[..], hash, place - {index})
  {
    var found, slot := FindSlot(slots, items, hash, items[index].id, place);
    ghost var before := slots[..];
    if found {
      slots[slot] := Dead;
    }
    assert found && slot == place[index];
    assert slots[..] == before[slot := Dead];
    RemoveKeeps(before, items[..], hash, place, index);
  }

  lemma RemoveKeeps(before: seq<Slot>, items: seq<Candidate>, hash: Bytes -> nat, place: map<nat, nat>, index: nat)
    requires Holds(before, items, hash, place) && index in place
    ensures Holds(before[place[index] := Dead], items, hash, place - {index})
  {
    var after, places := before[place[index] := Dead], place - {index};
    forall j | j in places ensures PathTaken(after, Home(items[j].id, hash, |after|), places[j]) {
      assert PathTaken(before, Home(items[j].id, hash, |after|), place[j]);
    }
  }

  /** The table depends on the stored ids only. */
  lemma SameIdsKeep(slots: seq<Slot>, before: seq<Candidate>, after: seq<Candidate>, hash: Bytes -> nat, place: map<nat, nat>)
    requires Holds(slots, before, hash, place) && |before| <= |after|
    requires forall j :: j in place ==> after[j].id == before[j].id
    ensures Holds(slots, after, hash, place)
  {
    forall j | j in place ensures PathTaken(slots, Home(after[j].id, hash, |slots|), place[j]) {
      assert PathTaken(slots, Home(before[j].id, hash, |slots|), place[j]);
    }
  }

  /** Overwrite an item that is not in the table and store its new id. */
  method Put(slots: array<Slot>, items: array<Candidate>, hash: Bytes -> nat, index: nat, c: Candidate, ghost place: map<nat, nat>)
    returns (ghost after: map<nat, nat>)
    requires Holds(slots[..], items[..], hash, place) && |place| < slots.Length && index < items.Length && index !in place
    requires forall j :: j in place ==> items[j].id != c.id
    modifies slots, items
    ensures after.Keys == place.Keys + {index} && Holds(slots[..], items[..], hash, after)
    ensures items[..] == old(items[..])[index := c]
  {
    ghost var before := items[..];
    items[index] := c;
    SameIdsKeep(slots[..], before, items[..], hash, place);
    after := Insert(slots, items, hash, index, place);
  }
}
