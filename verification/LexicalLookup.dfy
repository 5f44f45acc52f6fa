/** The reader at work: validating loops, binary searches and iterators. */
module LexicalLookup {
  import opened Common
  import opened ByteOrder
  import opened LittleEndian
  import opened Bm25
  import opened LexicalGroups
  import opened LexicalFormat
  import opened LexicalReader
  import opened LexicalSegment

  // ---------------------------------------------------------------- finding a term

  predicate EntriesIncrease(es: seq<Entry>) {
    forall i, j :: 0 <= i < j < |es| ==> Less(es[i].term, es[j].term)
  }

  /** Binary search over the strictly increasing terms. */
  method FindTerm(es: seq<Entry>, term: Bytes) returns (r: Option<nat>)
    requires EntriesIncrease(es)
    ensures r.Some? ==> r.value < |es| && es[r.value].term == term
    ensures r.None? ==> forall k :: 0 <= k < |es| ==> es[k].term != term
  {
    hide Less;
    var low, high := 0, |es|;
    while low < high
      invariant 0 <= low <= high <= |es|
      invariant forall k :: 0 <= k < low ==> Less(es[k].term, term)
      invariant forall k :: high <= k < |es| ==> Less(term, es[k].term)
    {
      var middle := low + (high - low) / 2;
      if es[middle].term == term {
        return Some(middle);
      }
      LessTotal(es[middle].term, term);
      if Less(es[middle].term, term) {
        forall k | 0 <= k < middle ensures Less(es[k].term, term) { LessTransitive(es[k].term, es[middle].term, term); }
        low := middle + 1;
      } else {
        forall k | middle < k < |es| ensures Less(term, es[k].term) { LessTransitive(term, es[middle].term, es[k].term); }
        high := middle;
      }
    }
    LessIrreflexive(term);
    return None;
  }

  // ---------------------------------------------------------------- frequencies per object type

  function CountType(ps: seq<Posting>, objectType: nat): nat {
    if |ps| == 0 then 0 else CountType(ps[..|ps| - 1], objectType) + if ps[|ps| - 1].objectType == objectType then 1 else 0
  }

  predicate TypesOk(ps: seq<Posting>) {
    && (forall i :: 0 <= i < |ps| ==> ps[i].objectType == DocumentType || ps[i].objectType == PassageType)
    && (forall i, j :: 0 <= i < j < |ps| ==> ps[i].objectType <= ps[j].objectType)
  }

  lemma {:induction false} AcceptedBefore(seg: Payloads, es: seq<Entry>, k: nat, t: Totals, i: nat, j: nat)
    requires k < |es| && TermAccepted(seg, es, k, t) && i < j < es[k].frequency
    ensures PostingBefore(Decoded(seg, es[k])[i], Decoded(seg, es[k])[j])
    decreases j
  {
    hide BlockAccepted, PostingAccepted, Decoded, ListAccepted;
    assert PostingBefore(Decoded(seg, es[k])[j - 1], Decoded(seg, es[k])[j]);
    if i < j - 1 { AcceptedBefore(seg, es, k, t, i, j - 1); }
  }

  /** Every accepted list has its documents in front of its passages. */
  lemma AcceptedTypes(seg: Payloads, es: seq<Entry>, k: nat, t: Totals)
    requires k < |es| && TermAccepted(seg, es, k, t)
    ensures ListInRange(seg, es[k]) && TypesOk(Decoded(seg, es[k]))
  {
    hide BlockAccepted, PostingAccepted, Decoded, ListAccepted;
    var ps := Decoded(seg, es[k]);
    forall i | 0 <= i < |ps| ensures ps[i].objectType == 1 || ps[i].objectType == 2 { AcceptedType(seg, es, k, t, i); }
    forall i, j | 0 <= i < j < |ps| ensures ps[i].objectType <= ps[j].objectType { AcceptedBefore(seg, es, k, t, i, j); }
  }

  lemma AcceptedType(seg: Payloads, es: seq<Entry>, k: nat, t: Totals, i: nat)
    requires k < |es| && TermAccepted(seg, es, k, t) && i < es[k].frequency
    ensures var p := Decoded(seg, es[k])[i]; p.objectType == 1 || p.objectType == 2
  {
    hide BlockAccepted, Decoded, ListAccepted, PositionsAccepted, CountField;
    assert PostingAccepted(Decoded(seg, es[k])[i], t.documents, t.passages);
  }

  lemma {:induction false} CountSplit(ps: seq<Posting>, low: nat)
    requires low <= |ps| && (forall i :: 0 <= i < low ==> ps[i].objectType == DocumentType)
    requires forall i :: low <= i < |ps| ==> ps[i].objectType == PassageType
    ensures CountType(ps, DocumentType) == low && CountType(ps, PassageType) == |ps| - low
  {
    if |ps| > 0 {
      CountSplit(ps[..|ps| - 1], if low == |ps| then low - 1 else low);
    }
  }

  /** Documents come first, so a binary search for the first passage counts both types. */
  method TypeFrequency(seg: Payloads, e: Entry, objectType: nat) returns (r: Result<nat>)
    requires ListInRange(seg, e) && TypesOk(Decoded(seg, e))
    ensures r == if objectType == DocumentType || objectType == PassageType then Ok(CountType(Decoded(seg, e), objectType)) else Err(InvalidArgument)
  {
    if objectType != DocumentType && objectType != PassageType {
      return Err(InvalidArgument);
    }
    hide StoredAt;
    ghost var ps := Decoded(seg, e);
    var low, high := 0, e.frequency;
    while low < high
      invariant 0 <= low <= high <= e.frequency
      invariant forall k :: 0 <= k < low ==> ps[k].objectType == DocumentType
      invariant forall k :: high <= k < |ps| ==> ps[k].objectType == PassageType
    {
      var middle := low + (high - low) / 2;
      assert ps[middle] == PostingAt(seg, e, middle);
      if StoredAt(seg, e, middle).objectType < PassageType {
        low := middle + 1;
      } else {
        high := middle;
      }
    }
    CountSplit(ps, low);
    r := Ok(if objectType == DocumentType then low else e.frequency - low);
  }

  // ---------------------------------------------------------------- iterators

  class PostingIterator {
    const seg: Payloads
    const entry: Entry
    var offset: nat
    var index: nat

    ghost predicate Valid()
      reads this
    {
      ListInRange(seg, entry) && index <= entry.frequency && offset == entry.postingsAt + 20 + 48 * index
    }

    constructor (seg: Payloads, entry: Entry)
      requires ListInRange(seg, entry)
      ensures Valid() && index == 0 && this.seg == seg && this.entry == entry
    {
      this.seg, this.entry := seg, entry;
      offset, index := entry.postingsAt + 20, 0;
    }

    /** The record at the cursor; the cursor moves on by one record. */
    method Next() returns (r: Result<Stored>)
      requires Valid()
      modifies this
      ensures Valid()
      ensures old(index) < entry.frequency ==> r == Ok(StoredAt(seg, entry, old(index))) && index == old(index) + 1
      ensures old(index) == entry.frequency ==> r == Err(OutOfRange) && index == old(index)
    {
      if index >= entry.frequency {
        return Err(OutOfRange);
      }
      PostingWidth();
      assert PostingInRange(seg, entry, index);
      var f := Fields(seg.postings[offset..offset + 48], PostingWidths);
      r := Ok(Stored(f[0], f[1], [f[2], f[3], f[4]], [f[5], f[6], f[7]], f[8], f[9]));
      offset, index := offset + 48, index + 1;
    }
  }

  class PositionIterator {
    const seg: Payloads
    const entry: Entry
    var offset: nat
    var index: nat

    ghost predicate Valid()
      reads this
    {
      && entry.positionsBytes >= 16 && entry.positionsAt + entry.positionsBytes <= |seg.positions|
      && index <= (entry.positionsBytes - 16) / 8 && offset == entry.positionsAt + 16 + 8 * index
    }

    constructor (seg: Payloads, entry: Entry)
      requires entry.positionsBytes >= 16 && entry.positionsAt + entry.positionsBytes <= |seg.positions|
      ensures Valid() && index == 0 && this.seg == seg && this.entry == entry
    {
      this.seg, this.entry := seg, entry;
      offset, index := entry.positionsAt + 16, 0;
    }

    /** All positions of the term in order, then the end. */
    method Next() returns (r: Result<Position>)
      requires Valid()
      modifies this
      ensures Valid()
      ensures old(index) < (entry.positionsBytes - 16) / 8 ==>
        PositionInRange(seg, entry, old(index)) && r == Ok(PositionAt(seg, entry, old(index))) && index == old(index) + 1
      ensures old(index) == (entry.positionsBytes - 16) / 8 ==> r == Err(OutOfRange) && index == old(index)
    {
      if index >= (entry.positionsBytes - 16) / 8 {
        return Err(OutOfRange);
      }
      RecordWidths();
      assert PositionInRange(seg, entry, index);
      var f := Fields(seg.positions[offset..offset + 8], PositionWidths);
      r := Ok(Position(f[0], f[1]));
      offset, index := offset + 8, index + 1;
    }
  }

  /** Position j of a posting, by its offset into the term's run. */
  method PositionOf(seg: Payloads, e: Entry, s: Stored, j: nat) returns (r: Result<Position>)
    ensures j >= s.count ==> r == Err(OutOfRange)
    ensures j < s.count ==> r == if PositionInRange(seg, e, s.offset + j) then Ok(PositionAt(seg, e, s.offset + j)) else Err(InvalidFormat)
  {
    if j >= s.count {
      return Err(OutOfRange);
    }
    var at := e.positionsAt + 16 + (s.offset + j) * 8;
    if at + 8 > |seg.positions| {
      return Err(InvalidFormat);
    }
    RecordWidths();
    var f := Fields(seg.positions[at..at + 8], PositionWidths);
    return Ok(Position(f[0], f[1]));
  }

  /** Walking the iterator to its end and following each posting's positions decodes the whole list. */
  method ReadList(seg: Payloads, e: Entry) returns (ps: seq<Posting>)
    requires ListInRange(seg, e)
    ensures ps == Decoded(seg, e)
  {
    hide StoredAt, PositionAt;
    var it := new PostingIterator(seg, e);
    ps := [];
    while it.index < e.frequency
      invariant it.Valid() && it.seg == seg && it.entry == e && fresh(it)
      invariant |ps| == it.index && forall i :: 0 <= i < |ps| ==> ps[i] == PostingAt(seg, e, i)
      decreases e.frequency - it.index
    {
      ghost var i := it.index;
      var stored := it.Next();
      var s := stored.value;
      var positions: seq<Position> := [];
      for j := 0 to s.count
        invariant it.Valid() && it.index == i + 1
        invariant |positions| == j && forall h :: 0 <= h < j ==> positions[h] == PostingAt(seg, e, i).positions[h]
      {
        var position := PositionOf(seg, e, s, j);
        positions := positions + [position.value];
      }
      assert positions == PostingAt(seg, e, i).positions;
      ps := ps + [Posting(s.objectType, s.ordinal, s.tf, s.length, positions)];
    }
  }
}
