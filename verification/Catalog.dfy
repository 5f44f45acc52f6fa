/**
 Segments, the newest-wins event order and the document view.

 A manifest lists immutable segments, oldest first.  A segment carries tombstones, documents and
 one flat array of passages; the events of a segment are its tombstones and then its documents,
 and the newest event per document id decides what a search sees.
 */
module Catalog {
  import opened Common

  type Id = Bytes

  datatype Passage = Passage(id: Bytes, parent: Id, text: Bytes)

  datatype Document = Document(id: Id, content: Bytes)

  datatype Segment = Segment(tombstones: seq<Id>, documents: seq<Document>, passages: seq<Passage>)

  /** What one event says about an id: deleted, or a document with the passages cut from it. */
  datatype Entry = Deleted | Live(document: Document, passages: seq<Passage>)

  type Entries = map<Id, Entry>

  /** Position of an event: source segment, ordinal inside its array, and which array. */
  datatype Event = Event(source: nat, ordinal: nat, document: bool)

  // ---------------------------------------------------------------- passages of a document

  /** First index at or after start whose passage does not belong to id. */
  function RunEnd(passages: seq<Passage>, start: nat, id: Id): (end: nat)
    requires start <= |passages|
    ensures start <= end <= |passages|
    decreases |passages| - start
  {
    if start < |passages| && passages[start].parent == id then RunEnd(passages, start + 1, id) else start
  }

  /** The run is maximal: it holds only passages of the document and stops at the first foreign one. */
  lemma {:induction false} RunEndMaximal(passages: seq<Passage>, start: nat, id: Id)
    requires start <= |passages|
    ensures var end := RunEnd(passages, start, id);
            && (forall k :: start <= k < end ==> passages[k].parent == id)
            && (end < |passages| ==> passages[end].parent != id)
    decreases |passages| - start
  {
    if start < |passages| && passages[start].parent == id {
      RunEndMaximal(passages, start + 1, id);
    }
  }

  /** Passage cursor in front of document j when documents take their passages in order. */
  function Cursor(s: Segment, j: nat): (c: nat)
    requires j <= |s.documents|
    ensures c <= |s.passages|
  {
    if j == 0 then 0 else RunEnd(s.passages, Cursor(s, j - 1), s.documents[j - 1].id)
  }

  function PassagesOf(s: Segment, j: nat): seq<Passage>
    requires j < |s.documents|
  {
    s.passages[Cursor(s, j)..Cursor(s, j + 1)]
  }

  /** Every passage is claimed by the document walk. */
  predicate Grouped(s: Segment) {
    Cursor(s, |s.documents|) == |s.passages|
  }

  // ---------------------------------------------------------------- entries and views

  function TombstoneEntries(ids: seq<Id>): (m: Entries)
    ensures m.Keys == set id | id in ids
    ensures forall id :: id in m ==> m[id] == Deleted
  {
    map id | id in ids :: Deleted
  }

  /** Entries of a segment after its tombstones and its first n documents. */
  function PartialEntries(s: Segment, n: nat): Entries
    requires n <= |s.documents|
  {
    if n == 0 then TombstoneEntries(s.tombstones)
    else PartialEntries(s, n - 1)[s.documents[n - 1].id := Live(s.documents[n - 1], PassagesOf(s, n - 1))]
  }

  function SegmentEntries(s: Segment): Entries {
    PartialEntries(s, |s.documents|)
  }

  /** Newest-wins entries of a list of segments, oldest first. */
  function Merged(ss: seq<Segment>): Entries {
    if |ss| == 0 then map[] else Merged(ss[..|ss| - 1]) + SegmentEntries(ss[|ss| - 1])
  }

  /** Keep only live documents. */
  function LiveOnly(m: Entries): Entries {
    map id | id in m && m[id].Live? :: m[id]
  }

  /** What a search over the segments can return. */
  function View(ss: seq<Segment>): Entries {
    LiveOnly(Merged(ss))
  }

  lemma OverrideAssociative(a: Entries, b: Entries, c: Entries)
    ensures (a + b) + c == a + (b + c)
  {
  }

  /** Merging is a homomorphism: older and newer halves can be merged separately. */
  lemma {:induction false} MergedConcat(a: seq<Segment>, b: seq<Segment>)
    ensures Merged(a + b) == Merged(a) + Merged(b)
  {
    if |b| == 0 {
      assert a + b == a;
    } else {
      var init, last := b[..|b| - 1], b[|b| - 1];
      assert (a + b)[..|a + b| - 1] == a + init && (a + b)[|a + b| - 1] == last;
      assert Merged(a + b) == Merged(a + init) + SegmentEntries(last);
      MergedConcat(a, init);
      OverrideAssociative(Merged(a), Merged(init), SegmentEntries(last));
    }
  }

  // ---------------------------------------------------------------- event positions

  predicate IsEvent(ss: seq<Segment>, id: Id, e: Event) {
    && e.source < |ss|
    && var s := ss[e.source];
       if e.document then e.ordinal < |s.documents| && s.documents[e.ordinal].id == id
       else e.ordinal < |s.tombstones| && s.tombstones[e.ordinal] == id
  }

  /** Source order, then tombstones in front of documents, then array order. */
  predicate Before(a: Event, b: Event) {
    || a.source < b.source
    || (a.source == b.source && !a.document && b.document)
    || (a.source == b.source && a.document == b.document && a.ordinal < b.ordinal)
  }

  ghost predicate Newest(ss: seq<Segment>, id: Id, e: Event) {
    && IsEvent(ss, id, e)
    && forall other :: IsEvent(ss, id, other) ==> other == e || Before(other, e)
  }

  /** The map holds exactly the newest event of every id, looking only at events before the limit. */
  ghost predicate HoldsNewest(ss: seq<Segment>, m: map<Id, Event>, limit: Event) {
    && (forall id :: id in m ==> IsEvent(ss, id, m[id]) && Before(m[id], limit))
    && (forall id, e :: IsEvent(ss, id, e) && Before(e, limit) ==> id in m && (e == m[id] || Before(e, m[id])))
  }

  function EntryAt(ss: seq<Segment>, e: Event): Entry
    requires e.source < |ss|
    requires e.document ==> e.ordinal < |ss[e.source].documents|
  {
    if e.document then Live(ss[e.source].documents[e.ordinal], PassagesOf(ss[e.source], e.ordinal)) else Deleted
  }

  /** Last document with the id among the first n. */
  function LastDocument(s: Segment, n: nat, id: Id): (r: Option<nat>)
    requires n <= |s.documents|
    ensures r.Some? ==> r.value < n && s.documents[r.value].id == id
    ensures r.Some? ==> forall k :: r.value < k < n ==> s.documents[k].id != id
    ensures r.None? ==> forall k :: 0 <= k < n ==> s.documents[k].id != id
  {
    if n == 0 then None else if s.documents[n - 1].id == id then Some(n - 1) else LastDocument(s, n - 1, id)
  }

  /** Inside one segment the entry of an id is that of its newest event. */
  lemma {:induction false} PartialEntriesNewest(s: Segment, n: nat, id: Id)
    requires n <= |s.documents|
    ensures match LastDocument(s, n, id)
            case Some(j) => id in PartialEntries(s, n) && PartialEntries(s, n)[id] == Live(s.documents[j], PassagesOf(s, j))
            case None => if id in s.tombstones then id in PartialEntries(s, n) && PartialEntries(s, n)[id] == Deleted
                         else id !in PartialEntries(s, n)
  {
    if n > 0 {
      PartialEntriesNewest(s, n - 1, id);
    }
  }

  lemma NewestInLastSegment(ss: seq<Segment>, id: Id, e: Event)
    requires Newest(ss, id, e) && e.source == |ss| - 1
    ensures id in SegmentEntries(ss[|ss| - 1]) && SegmentEntries(ss[|ss| - 1])[id] == EntryAt(ss, e)
  {
    var n := |ss| - 1;
    var last := ss[n];
    PartialEntriesNewest(last, |last.documents|, id);
    match LastDocument(last, |last.documents|, id)
    case Some(k) =>
      assert IsEvent(ss, id, Event(n, k, true));
      assert e == Event(n, k, true);
    case None =>
      assert !e.document;
  }

  lemma NewestInEarlierSegment(ss: seq<Segment>, id: Id, e: Event)
    requires Newest(ss, id, e) && e.source < |ss| - 1
    ensures id !in SegmentEntries(ss[|ss| - 1])
    ensures Newest(ss[..|ss| - 1], id, e)
  {
    var n := |ss| - 1;
    var last := ss[n];
    PartialEntriesNewest(last, |last.documents|, id);
    match LastDocument(last, |last.documents|, id) {
      case Some(k) => assert IsEvent(ss, id, Event(n, k, true));
      case None =>
    }
    if id in last.tombstones {
      var k :| 0 <= k < |last.tombstones| && last.tombstones[k] == id;
      assert IsEvent(ss, id, Event(n, k, false));
    }
    forall other | IsEvent(ss[..n], id, other) ensures other == e || Before(other, e) {
      assert IsEvent(ss, id, other);
    }
  }

  /** The fold used for views gives the entry at the newest event. */
  lemma {:induction false} MergedIsNewest(ss: seq<Segment>, id: Id, e: Event)
    requires Newest(ss, id, e)
    ensures id in Merged(ss) && Merged(ss)[id] == EntryAt(ss, e)
  {
    if e.source == |ss| - 1 {
      NewestInLastSegment(ss, id, e);
    } else {
      NewestInEarlierSegment(ss, id, e);
      MergedIsNewest(ss[..|ss| - 1], id, e);
    }
  }

  /** An id has an entry exactly when some segment records an event for it. */
  lemma {:induction false} MergedHasEvent(ss: seq<Segment>, id: Id)
    ensures id in Merged(ss) <==> exists e :: IsEvent(ss, id, e)
  {
    if |ss| > 0 {
      var n := |ss| - 1;
      var last := ss[n];
      MergedHasEvent(ss[..n], id);
      PartialEntriesNewest(last, |last.documents|, id);
      if e :| IsEvent(ss[..n], id, e) { assert IsEvent(ss, id, e); }
      if id in last.tombstones {
        var k :| 0 <= k < |last.tombstones| && last.tombstones[k] == id;
        assert IsEvent(ss, id, Event(n, k, false));
      }
      if k :| 0 <= k < |last.documents| && last.documents[k].id == id {
        assert IsEvent(ss, id, Event(n, k, true));
      }
      if e :| IsEvent(ss, id, e) {
        if e.source < n { assert IsEvent(ss[..n], id, e); }
      }
    }
  }
}
