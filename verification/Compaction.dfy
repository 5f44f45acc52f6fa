/**
 Compaction: collecting the newest events of a segment range into units, writing units back as
 segments, and splicing the result into a manifest that may have grown meanwhile.
 */
module Compaction {
  import opened Common
  import opened Catalog
  import opened Slices

  datatype Unit = Tombstone(id: Id) | DocumentUnit(document: Document, passages: seq<Passage>)

  function UnitId(u: Unit): Id {
    match u
    case Tombstone(id) => id
    case DocumentUnit(d, _) => d.id
  }

  function UnitEntry(u: Unit): Entry {
    match u
    case Tombstone(_) => Deleted
    case DocumentUnit(d, ps) => Live(d, ps)
  }

  predicate WellFormed(u: Unit) {
    u.DocumentUnit? ==> forall k :: 0 <= k < |u.passages| ==> u.passages[k].parent == u.document.id
  }

  predicate AllWellFormed(us: seq<Unit>) {
    forall k :: 0 <= k < |us| ==> WellFormed(us[k])
  }

  predicate DistinctIds(us: seq<Unit>) {
    forall j, k :: 0 <= j < k < |us| ==> UnitId(us[j]) != UnitId(us[k])
  }

  function UnitEntries(us: seq<Unit>): Entries {
    if |us| == 0 then map[] else UnitEntries(us[..|us| - 1])[UnitId(us[|us| - 1]) := UnitEntry(us[|us| - 1])]
  }

  lemma {:induction false} UnitEntriesAt(us: seq<Unit>, id: Id)
    requires DistinctIds(us)
    ensures id in UnitEntries(us) <==> exists k :: 0 <= k < |us| && UnitId(us[k]) == id
    ensures forall k :: 0 <= k < |us| && UnitId(us[k]) == id ==> id in UnitEntries(us) && UnitEntries(us)[id] == UnitEntry(us[k])
  {
    if |us| > 0 {
      UnitEntriesAt(us[..|us| - 1], id);
    }
  }

  // ---------------------------------------------------------------- collecting a range

  lemma RecordEvent(ss: seq<Segment>, m: map<Id, Event>, id: Id, at: Event, next: Event)
    requires HoldsNewest(ss, m, at) && IsEvent(ss, id, at)
    requires next == Event(at.source, at.ordinal + 1, at.document)
    ensures HoldsNewest(ss, m[id := at], next)
  {
    forall x, e | IsEvent(ss, x, e) && Before(e, next)
      ensures x in m[id := at] && (e == m[id := at][x] || Before(e, m[id := at][x]))
    {
      assert e == at || Before(e, at);
    }
  }

  /** Overwrite one slot per event in source order: what remains is the newest event of every id. */
  method BuildEventMap(ss: seq<Segment>) returns (m: map<Id, Event>)
    ensures forall id :: id in m ==> Newest(ss, id, m[id])
    ensures forall id, e :: IsEvent(ss, id, e) ==> id in m
  {
    m := map[];
    for i := 0 to |ss|
      invariant HoldsNewest(ss, m, Event(i, 0, false))
    {
      for j := 0 to |ss[i].tombstones|
        invariant HoldsNewest(ss, m, Event(i, j, false))
      {
        RecordEvent(ss, m, ss[i].tombstones[j], Event(i, j, false), Event(i, j + 1, false));
        m := m[ss[i].tombstones[j] := Event(i, j, false)];
      }
      for j := 0 to |ss[i].documents|
        invariant HoldsNewest(ss, m, Event(i, j, true))
      {
        RecordEvent(ss, m, ss[i].documents[j].id, Event(i, j, true), Event(i, j + 1, true));
        m := m[ss[i].documents[j].id := Event(i, j, true)];
      }
    }
    forall id | id in m ensures Newest(ss, id, m[id]) {
      forall other | IsEvent(ss, id, other) ensures other == m[id] || Before(other, m[id]) {
        assert Before(other, Event(|ss|, 0, false));
      }
    }
    forall id, e | IsEvent(ss, id, e) ensures id in m {
      assert Before(e, Event(|ss|, 0, false));
    }
  }

  function UnitAt(ss: seq<Segment>, id: Id, e: Event): Unit
    requires IsEvent(ss, id, e)
  {
    if e.document then DocumentUnit(ss[e.source].documents[e.ordinal], PassagesOf(ss[e.source], e.ordinal))
    else Tombstone(id)
  }

  /** Which newest events survive: all of them, or only documents when tombstones are dropped. */
  function Kept(m: Entries, dropTombstones: bool): Entries {
    if dropTombstones then LiveOnly(m) else m
  }

  /**
   The units emitted so far are exactly the surviving newest events in front of the limit, in
   event order; origin records the event each unit came from.
   */
  ghost predicate Emitted(ss: seq<Segment>, m: map<Id, Event>, drop: bool, units: seq<Unit>, origin: seq<Event>, limit: Event) {
    && |origin| == |units|
    && (forall k :: 0 <= k < |units| ==>
          && UnitId(units[k]) in m && origin[k] == m[UnitId(units[k])]
          && IsEvent(ss, UnitId(units[k]), origin[k]) && units[k] == UnitAt(ss, UnitId(units[k]), origin[k])
          && Before(origin[k], limit) && (drop ==> origin[k].document))
    && (forall j, k :: 0 <= j < k < |units| ==> Before(origin[j], origin[k]))
    && (forall id :: id in m && Before(m[id], limit) && (drop ==> m[id].document) ==> m[id] in origin)
  }

  lemma EmitNext(ss: seq<Segment>, m: map<Id, Event>, drop: bool, units: seq<Unit>, origin: seq<Event>, id: Id, at: Event, next: Event)
    requires Emitted(ss, m, drop, units, origin, at)
    requires (forall x :: x in m ==> Newest(ss, x, m[x])) && IsEvent(ss, id, at)
    requires next == Event(at.source, at.ordinal + 1, at.document)
    ensures (id in m && m[id] == at && (drop ==> at.document)) ==>
              Emitted(ss, m, drop, units + [UnitAt(ss, id, at)], origin + [at], next)
    ensures !(id in m && m[id] == at && (drop ==> at.document)) ==> Emitted(ss, m, drop, units, origin, next)
  {
    forall x | x in m && Before(m[x], next) ensures Before(m[x], at) || (m[x] == at && x == id) {
      assert IsEvent(ss, x, m[x]);
    }
  }

  /** The limit may move over positions that hold no surviving event. */
  lemma EmittedMove(ss: seq<Segment>, m: map<Id, Event>, drop: bool, units: seq<Unit>, origin: seq<Event>, at: Event, next: Event)
    requires Emitted(ss, m, drop, units, origin, at)
    requires forall id :: id in m ==> Newest(ss, id, m[id])
    requires forall e :: Before(e, at) ==> Before(e, next)
    requires forall id, e :: IsEvent(ss, id, e) && (drop ==> e.document) && Before(e, next) ==> Before(e, at)
    ensures Emitted(ss, m, drop, units, origin, next)
  {
    forall id | id in m && Before(m[id], next) && (drop ==> m[id].document) ensures m[id] in origin {
      assert IsEvent(ss, id, m[id]);
    }
  }

  method EmitTombstones(ss: seq<Segment>, m: map<Id, Event>, i: nat, units0: seq<Unit>, ghost origin0: seq<Event>)
    returns (units: seq<Unit>, ghost origin: seq<Event>)
    requires i < |ss| && forall id :: id in m ==> Newest(ss, id, m[id])
    requires Emitted(ss, m, false, units0, origin0, Event(i, 0, false))
    ensures Emitted(ss, m, false, units, origin, Event(i, |ss[i].tombstones|, false))
    ensures AllPassages(units) == AllPassages(units0)
  {
    hide AllPassages, Emitted, Newest;
    units, origin := units0, origin0;
    for j := 0 to |ss[i].tombstones|
      invariant Emitted(ss, m, false, units, origin, Event(i, j, false))
      invariant AllPassages(units) == AllPassages(units0)
    {
      var id := ss[i].tombstones[j];
      PassagesAppend(units, Tombstone(id));
      EmitNext(ss, m, false, units, origin, id, Event(i, j, false), Event(i, j + 1, false));
      if id in m && m[id] == Event(i, j, false) {
        units, origin := units + [Tombstone(id)], origin + [Event(i, j, false)];
      }
    }
  }

  /** Move the passage cursor over the passages of one document. */
  method SkipPassages(passages: seq<Passage>, start: nat, id: Id) returns (end: nat)
    requires start <= |passages|
    ensures end == RunEnd(passages, start, id)
  {
    end := start;
    while end < |passages| && passages[end].parent == id
      invariant start <= end <= |passages|
      invariant RunEnd(passages, start, id) == RunEnd(passages, end, id)
    {
      end := end + 1;
    }
  }

  predicate IsNewestAt(ss: seq<Segment>, m: map<Id, Event>, i: nat, j: nat)
    requires i < |ss| && j < |ss[i].documents|
  {
    var id := ss[i].documents[j].id;
    id in m && m[id] == Event(i, j, true)
  }

  /** Passages of the newest documents in front of document j of source i, in order. */
  function KeptPassages(ss: seq<Segment>, m: map<Id, Event>, i: nat, j: nat): seq<Passage>
    requires if i < |ss| then j <= |ss[i].documents| else i == |ss| && j == 0
    decreases i, j
  {
    if j > 0 then KeptPassages(ss, m, i, j - 1) + if IsNewestAt(ss, m, i, j - 1) then PassagesOf(ss[i], j - 1) else []
    else if i > 0 then KeptPassages(ss, m, i - 1, |ss[i - 1].documents|)
    else []
  }

  lemma PassagesAppend(us: seq<Unit>, u: Unit)
    ensures AllPassages(us + [u]) == AllPassages(us) + if u.DocumentUnit? then u.passages else []
  {
    assert (us + [u])[..|us|] == us;
  }

  method EmitDocuments(ss: seq<Segment>, m: map<Id, Event>, drop: bool, i: nat, units0: seq<Unit>, ghost origin0: seq<Event>)
    returns (units: seq<Unit>, ghost origin: seq<Event>)
    requires i < |ss| && forall id :: id in m ==> Newest(ss, id, m[id])
    requires Emitted(ss, m, drop, units0, origin0, Event(i, 0, true)) && AllPassages(units0) == KeptPassages(ss, m, i, 0)
    ensures Emitted(ss, m, drop, units, origin, Event(i, |ss[i].documents|, true))
    ensures AllPassages(units) == KeptPassages(ss, m, i, |ss[i].documents|)
  {
    hide AllPassages;
    units, origin := units0, origin0;
    var passage := 0;
    for j := 0 to |ss[i].documents|
      invariant Emitted(ss, m, drop, units, origin, Event(i, j, true))
      invariant AllPassages(units) == KeptPassages(ss, m, i, j)
      invariant passage == Cursor(ss[i], j)
    {
      var id := ss[i].documents[j].id;
      var start := passage;
      passage := SkipPassages(ss[i].passages, start, id);
      EmitNext(ss, m, drop, units, origin, id, Event(i, j, true), Event(i, j + 1, true));
      if id in m && m[id] == Event(i, j, true) {
        PassagesAppend(units, DocumentUnit(ss[i].documents[j], ss[i].passages[start..passage]));
        units := units + [DocumentUnit(ss[i].documents[j], ss[i].passages[start..passage])];
        origin := origin + [Event(i, j, true)];
      }
    }
  }

  /** Walk the sources again and emit every newest event with the passages of its document. */
  method EmitUnits(ss: seq<Segment>, m: map<Id, Event>, dropTombstones: bool)
    returns (units: seq<Unit>, ghost origin: seq<Event>)
    requires forall id :: id in m ==> Newest(ss, id, m[id])
    ensures Emitted(ss, m, dropTombstones, units, origin, Event(|ss|, 0, false))
    ensures AllPassages(units) == KeptPassages(ss, m, |ss|, 0)
  {
    units, origin := [], [];
    for i := 0 to |ss|
      invariant Emitted(ss, m, dropTombstones, units, origin, Event(i, 0, false))
      invariant AllPassages(units) == KeptPassages(ss, m, i, 0)
    {
      if dropTombstones {
        EmittedMove(ss, m, dropTombstones, units, origin, Event(i, 0, false), Event(i, 0, true));
      } else {
        units, origin := EmitTombstones(ss, m, i, units, origin);
        EmittedMove(ss, m, dropTombstones, units, origin, Event(i, |ss[i].tombstones|, false), Event(i, 0, true));
      }
      units, origin := EmitDocuments(ss, m, dropTombstones, i, units, origin);
      EmittedMove(ss, m, dropTombstones, units, origin, Event(i, |ss[i].documents|, true), Event(i + 1, 0, false));
    }
  }

  /**
   Every passage of every source must belong to the document the cursor stands on; those of the
   newest documents are counted.
   */
  method CheckGrouping(ss: seq<Segment>, m: map<Id, Event>) returns (ok: bool, passages: nat)
    ensures ok <==> forall i :: 0 <= i < |ss| ==> Grouped(ss[i])
    ensures ok ==> passages == |KeptPassages(ss, m, |ss|, 0)|
  {
    passages := 0;
    for i := 0 to |ss|
      invariant (forall h :: 0 <= h < i ==> Grouped(ss[h])) && passages == |KeptPassages(ss, m, i, 0)|
    {
      var passage := 0;
      for j := 0 to |ss[i].documents|
        invariant passage == Cursor(ss[i], j) && passages == |KeptPassages(ss, m, i, j)|
      {
        var id, start := ss[i].documents[j].id, passage;
        passage := SkipPassages(ss[i].passages, start, id);
        if id in m && m[id] == Event(i, j, true) {
          passages := passages + (passage - start);
        }
      }
      if passage != |ss[i].passages| {
        return false, passages;
      }
    }
    ok := true;
  }

  lemma EmittedEntryAt(ss: seq<Segment>, m: map<Id, Event>, drop: bool, units: seq<Unit>, origin: seq<Event>, id: Id)
    requires Emitted(ss, m, drop, units, origin, Event(|ss|, 0, false))
    requires (forall x :: x in m ==> Newest(ss, x, m[x])) && DistinctIds(units)
    requires forall e :: IsEvent(ss, id, e) ==> id in m
    ensures id in UnitEntries(units) <==> id in Merged(ss) && (drop ==> Merged(ss)[id].Live?)
    ensures id in UnitEntries(units) ==> UnitEntries(units)[id] == Merged(ss)[id]
  {
    UnitEntriesAt(units, id);
    if id !in m {
      MergedHasEvent(ss, id);
    } else {
      MergedIsNewest(ss, id, m[id]);
      assert IsEvent(ss, id, m[id]);
      if drop ==> m[id].document {
        var k :| 0 <= k < |origin| && origin[k] == m[id];
        assert UnitId(units[k]) == id;
      }
    }
  }

  /** The emitted units say about every id exactly what the merged range says, minus dropped tombstones. */
  lemma EmittedEntries(ss: seq<Segment>, m: map<Id, Event>, drop: bool, units: seq<Unit>, origin: seq<Event>)
    requires Emitted(ss, m, drop, units, origin, Event(|ss|, 0, false))
    requires forall id :: id in m ==> Newest(ss, id, m[id])
    requires forall id, e :: IsEvent(ss, id, e) ==> id in m
    ensures DistinctIds(units)
    ensures UnitEntries(units) == Kept(Merged(ss), drop)
  {
    forall j, k | 0 <= j < k < |units| ensures UnitId(units[j]) != UnitId(units[k]) {
      assert Before(origin[j], origin[k]);
    }
    forall id
      ensures id in UnitEntries(units) <==> id in Merged(ss) && (drop ==> Merged(ss)[id].Live?)
      ensures id in UnitEntries(units) ==> UnitEntries(units)[id] == Merged(ss)[id]
    {
      EmittedEntryAt(ss, m, drop, units, origin, id);
    }
  }

  lemma EmittedWellFormed(ss: seq<Segment>, m: map<Id, Event>, drop: bool, units: seq<Unit>, origin: seq<Event>)
    requires Emitted(ss, m, drop, units, origin, Event(|ss|, 0, false))
    ensures AllWellFormed(units)
  {
    forall k | 0 <= k < |units| ensures WellFormed(units[k]) {
      if origin[k].document {
        var s, j := ss[origin[k].source], origin[k].ordinal;
        RunEndMaximal(s.passages, Cursor(s, j), s.documents[j].id);
      }
    }
  }

  // ---------------------------------------------------------------- vectors

  /** A stored vector and the passage it belongs to. */
  datatype VectorEntry = VectorEntry(id: Bytes, values: seq<real>)

  /** The passages of a newest document have their vectors at the same places of the source. */
  predicate AlignedAt(s: Segment, v: seq<VectorEntry>, first: nat, end: nat)
    requires end <= |s.passages|
  {
    forall k :: first <= k < end ==> k < |v| && v[k].id == s.passages[k].id
  }

  predicate Aligned(ss: seq<Segment>, vs: seq<seq<VectorEntry>>, m: map<Id, Event>)
    requires |vs| == |ss|
  {
    forall i, j :: 0 <= i < |ss| && 0 <= j < |ss[i].documents| && IsNewestAt(ss, m, i, j) ==> AlignedAt(ss[i], vs[i], Cursor(ss[i], j), Cursor(ss[i], j + 1))
  }

  predicate AlignedBefore(ss: seq<Segment>, vs: seq<seq<VectorEntry>>, m: map<Id, Event>, i: nat, j: nat)
    requires |vs| == |ss| && i <= |ss|
  {
    forall h, l :: 0 <= h < |ss| && 0 <= l < |ss[h].documents| && (h < i || (h == i && l < j)) && IsNewestAt(ss, m, h, l) ==>
      AlignedAt(ss[h], vs[h], Cursor(ss[h], l), Cursor(ss[h], l + 1))
  }

  function VectorRun(v: seq<VectorEntry>, first: nat, end: nat): seq<VectorEntry>
    requires first <= end
  {
    if end <= |v| then v[first..end] else []
  }

  /** The stored vectors at the places of the kept passages. */
  function KeptVectors(ss: seq<Segment>, vs: seq<seq<VectorEntry>>, m: map<Id, Event>, i: nat, j: nat): seq<VectorEntry>
    requires |vs| == |ss| && if i < |ss| then j <= |ss[i].documents| else i == |ss| && j == 0
    decreases i, j
  {
    if j > 0 then
      KeptVectors(ss, vs, m, i, j - 1) + if IsNewestAt(ss, m, i, j - 1) then VectorRun(vs[i], Cursor(ss[i], j - 1), Cursor(ss[i], j)) else []
    else if i > 0 then KeptVectors(ss, vs, m, i - 1, |ss[i - 1].documents|)
    else []
  }

  predicate SameIds(ps: seq<Passage>, es: seq<VectorEntry>) {
    |es| == |ps| && forall n :: 0 <= n < |ps| ==> es[n].id == ps[n].id
  }

  lemma RunMatches(s: Segment, v: seq<VectorEntry>, first: nat, end: nat)
    requires first <= end <= |s.passages| && AlignedAt(s, v, first, end)
    ensures SameIds(s.passages[first..end], VectorRun(v, first, end))
  {
    if first < end {
      var last := s.passages[end - 1];
      assert end - 1 < |v| && v[end - 1].id == last.id;
    }
  }

  lemma RunPlace(s: Segment, v: seq<VectorEntry>, first: nat, end: nat, n: nat)
    requires first <= end <= |s.passages| && AlignedAt(s, v, first, end) && n < end - first
    ensures first + n < |v| && |VectorRun(v, first, end)| == end - first
    ensures s.passages[first..end][n] == s.passages[first + n] && VectorRun(v, first, end)[n] == v[first + n]
  {
    RunMatches(s, v, first, end);
  }

  /** Aligned sources give every kept passage the vector stored under its id. */
  lemma {:induction false} KeptVectorsMatch(ss: seq<Segment>, vs: seq<seq<VectorEntry>>, m: map<Id, Event>, i: nat, j: nat)
    requires |vs| == |ss| && (if i < |ss| then j <= |ss[i].documents| else i == |ss| && j == 0) && AlignedBefore(ss, vs, m, i, j)
    ensures SameIds(KeptPassages(ss, m, i, j), KeptVectors(ss, vs, m, i, j))
    decreases i, j
  {
    hide VectorRun, AlignedAt;
    if j > 0 {
      KeptVectorsMatch(ss, vs, m, i, j - 1);
      if IsNewestAt(ss, m, i, j - 1) {
        RunMatches(ss[i], vs[i], Cursor(ss[i], j - 1), Cursor(ss[i], j));
      }
    } else if i > 0 {
      KeptVectorsMatch(ss, vs, m, i - 1, |ss[i - 1].documents|);
    }
  }

  function Values(es: seq<VectorEntry>): seq<seq<real>> {
    seq(|es|, n requires 0 <= n < |es| => es[n].values)
  }

  lemma OneMoreValue(v: seq<VectorEntry>, start: nat, k: nat)
    requires start <= k < |v|
    ensures Values(v[start..k + 1]) == Values(if k > start then v[start..k] else []) + [v[k].values]
  {
  }

  /** Copy the vectors of one document, as long as their ids are those of the passages. */
  method CopyRun(s: Segment, v: seq<VectorEntry>, start: nat, end: nat, vectors0: seq<seq<real>>) returns (ok: bool, vectors: seq<seq<real>>)
    requires start <= end <= |s.passages|
    ensures ok <==> AlignedAt(s, v, start, end)
    ensures ok ==> vectors == vectors0 + Values(VectorRun(v, start, end))
  {
    hide Values;
    vectors := vectors0;
    NoValues();
    for k := start to end
      invariant AlignedAt(s, v, start, k) && (k > start ==> k <= |v|)
      invariant vectors == vectors0 + Values(if k > start then v[start..k] else [])
    {
      if k >= |v| || v[k].id != s.passages[k].id {
        return false, vectors;
      }
      OneMoreValue(v, start, k);
      vectors := vectors + [v[k].values];
    }
    assert VectorRun(v, start, end) == if end > start then v[start..end] else [];
    ok := true;
  }

  lemma ValuesConcat(a: seq<VectorEntry>, b: seq<VectorEntry>)
    ensures Values(a + b) == Values(a) + Values(b)
  {
  }

  /** Copy the vectors of all newest documents, source by source. */
  method CopyVectors(ss: seq<Segment>, vs: seq<seq<VectorEntry>>, m: map<Id, Event>) returns (ok: bool, vectors: seq<seq<real>>)
    requires |vs| == |ss|
    ensures ok <==> Aligned(ss, vs, m)
    ensures ok ==> vectors == Values(KeptVectors(ss, vs, m, |ss|, 0))
  {
    hide Values, AlignedAt, VectorRun;
    vectors := [];
    assert Values([]) == [] by { NoValues(); }
    for i := 0 to |ss|
      invariant AlignedBefore(ss, vs, m, i, 0) && vectors == Values(KeptVectors(ss, vs, m, i, 0))
    {
      var passage := 0;
      for j := 0 to |ss[i].documents|
        invariant passage == Cursor(ss[i], j) && AlignedBefore(ss, vs, m, i, j) && vectors == Values(KeptVectors(ss, vs, m, i, j))
      {
        var start := passage;
        passage := SkipPassages(ss[i].passages, start, ss[i].documents[j].id);
        assert passage == Cursor(ss[i], j + 1);
        ValuesConcat(KeptVectors(ss, vs, m, i, j), VectorRun(vs[i], start, passage));
        KeptStep(ss, vs, m, i, j);
        if IsNewestAt(ss, m, i, j) {
          var copied;
          copied, vectors := CopyRun(ss[i], vs[i], start, passage, vectors);
          if !copied {
            assert !AlignedAt(ss[i], vs[i], Cursor(ss[i], j), Cursor(ss[i], j + 1));
            return false, vectors;
          }
        }
      }
    }
    ok := true;
  }

  lemma KeptStep(ss: seq<Segment>, vs: seq<seq<VectorEntry>>, m: map<Id, Event>, i: nat, j: nat)
    requires |vs| == |ss| && i < |ss| && j < |ss[i].documents|
    ensures KeptVectors(ss, vs, m, i, j + 1) == KeptVectors(ss, vs, m, i, j) +
      (if IsNewestAt(ss, m, i, j) then VectorRun(vs[i], Cursor(ss[i], j), Cursor(ss[i], j + 1)) else [])
    ensures !IsNewestAt(ss, m, i, j) ==> KeptVectors(ss, vs, m, i, j + 1) == KeptVectors(ss, vs, m, i, j)
  {
  }

  lemma NoValues()
    ensures Values([]) == []
  {
  }

  datatype Collected = Collected(units: seq<Unit>, documents: nat, passages: nat, vectors: seq<seq<real>>)

  /** Units of pairwise different ids are as many as the entries they define. */
  lemma {:induction false} UnitCount(us: seq<Unit>)
    requires DistinctIds(us)
    ensures |UnitEntries(us)| == |us|
  {
    if |us| > 0 {
      var init := us[..|us| - 1];
      UnitCount(init);
      UnitEntriesAt(init, UnitId(us[|us| - 1]));
      assert UnitEntries(us).Keys == UnitEntries(init).Keys + {UnitId(us[|us| - 1])};
    }
  }

  /** The event map classifies ids exactly as the merged entries do. */
  lemma EventMapClasses(ss: seq<Segment>, m: map<Id, Event>)
    requires forall id :: id in m ==> Newest(ss, id, m[id])
    requires forall id, e :: IsEvent(ss, id, e) ==> id in m
    ensures m.Keys == Merged(ss).Keys
    ensures (set id | id in m && m[id].document) == View(ss).Keys
  {
    forall id
      ensures id in m <==> id in Merged(ss)
      ensures id in m && m[id].document <==> id in View(ss)
    {
      MergedHasEvent(ss, id);
      if id in m { MergedIsNewest(ss, id, m[id]); }
    }
  }

  ghost predicate NewestAligned(ss: seq<Segment>, vs: seq<seq<VectorEntry>>)
    requires |vs| == |ss|
  {
    forall i, j :: 0 <= i < |ss| && 0 <= j < |ss[i].documents| && Newest(ss, ss[i].documents[j].id, Event(i, j, true)) ==>
      AlignedAt(ss[i], vs[i], Cursor(ss[i], j), Cursor(ss[i], j + 1))
  }

  lemma NewestIsInMap(ss: seq<Segment>, m: map<Id, Event>, i: nat, j: nat)
    requires (forall id :: id in m ==> Newest(ss, id, m[id])) && (forall id, e :: IsEvent(ss, id, e) ==> id in m)
    requires i < |ss| && j < |ss[i].documents|
    ensures IsNewestAt(ss, m, i, j) <==> Newest(ss, ss[i].documents[j].id, Event(i, j, true))
  {
    var id := ss[i].documents[j].id;
    assert IsEvent(ss, id, Event(i, j, true));
    assert Newest(ss, id, m[id]);
  }

  lemma AlignedIsNewest(ss: seq<Segment>, vs: seq<seq<VectorEntry>>, m: map<Id, Event>)
    requires |vs| == |ss| && (forall id :: id in m ==> Newest(ss, id, m[id])) && (forall id, e :: IsEvent(ss, id, e) ==> id in m)
    ensures Aligned(ss, vs, m) <==> NewestAligned(ss, vs)
  {
    hide IsNewestAt, Newest, AlignedAt;
    forall i, j | 0 <= i < |ss| && 0 <= j < |ss[i].documents|
      ensures IsNewestAt(ss, m, i, j) <==> Newest(ss, ss[i].documents[j].id, Event(i, j, true))
    {
      NewestIsInMap(ss, m, i, j);
    }
  }

  /** Where a kept passage and its vector come from. */
  lemma {:induction false} KeptPlace(ss: seq<Segment>, vs: seq<seq<VectorEntry>>, m: map<Id, Event>, i: nat, j: nat, n: nat) returns (h: nat, k: nat)
    requires |vs| == |ss| && (if i < |ss| then j <= |ss[i].documents| else i == |ss| && j == 0) && AlignedBefore(ss, vs, m, i, j)
    requires n < |KeptPassages(ss, m, i, j)| == |KeptVectors(ss, vs, m, i, j)|
    ensures h < |ss| && k < |ss[h].passages| && k < |vs[h]| && ss[h].passages[k] == KeptPassages(ss, m, i, j)[n] && vs[h][k] == KeptVectors(ss, vs, m, i, j)[n]
    decreases i, j
  {
    hide VectorRun, AlignedAt;
    if j > 0 {
      KeptVectorsMatch(ss, vs, m, i, j - 1);
      var before := |KeptPassages(ss, m, i, j - 1)|;
      if n < before {
        h, k := KeptPlace(ss, vs, m, i, j - 1, n);
      } else {
        h, k := i, Cursor(ss[i], j - 1) + n - before;
        RunPlace(ss[i], vs[i], Cursor(ss[i], j - 1), Cursor(ss[i], j), n - before);
      }
    } else {
      KeptVectorsMatch(ss, vs, m, i - 1, |ss[i - 1].documents|);
      h, k := KeptPlace(ss, vs, m, i - 1, |ss[i - 1].documents|, n);
    }
  }

  /** Some source has the passage and, at the same place and under its id, the vector. */
  predicate StoredTogether(ss: seq<Segment>, vs: seq<seq<VectorEntry>>, p: Passage, vector: seq<real>) {
    exists i, k :: 0 <= i < |ss| && i < |vs| && 0 <= k < |ss[i].passages| && k < |vs[i]| && ss[i].passages[k] == p && vs[i][k] == VectorEntry(p.id, vector)
  }

  /** One vector per merged passage, its own. */
  predicate VectorsFollow(ss: seq<Segment>, vs: seq<seq<VectorEntry>>, passages: seq<Passage>, vectors: seq<seq<real>>) {
    |vectors| == |passages| && forall n :: 0 <= n < |passages| ==> StoredTogether(ss, vs, passages[n], vectors[n])
  }

  lemma VectorsOfKept(ss: seq<Segment>, vs: seq<seq<VectorEntry>>, m: map<Id, Event>)
    requires |vs| == |ss| && Aligned(ss, vs, m)
    ensures VectorsFollow(ss, vs, KeptPassages(ss, m, |ss|, 0), Values(KeptVectors(ss, vs, m, |ss|, 0)))
  {
    hide KeptPassages, KeptVectors, AlignedAt, IsNewestAt;
    var passages, entries := KeptPassages(ss, m, |ss|, 0), KeptVectors(ss, vs, m, |ss|, 0);
    KeptVectorsMatch(ss, vs, m, |ss|, 0);
    var vectors := Values(entries);
    forall n | 0 <= n < |passages| ensures StoredTogether(ss, vs, passages[n], vectors[n]) {
      var h, k := KeptPlace(ss, vs, m, |ss|, 0, n);
      assert ss[h].passages[k] == passages[n] && vs[h][k] == VectorEntry(passages[n].id, vectors[n]);
    }
  }

  /** Each unit is that of the newest event of its id, and the events come by source, tombstones first, then by place. */
  ghost predicate InEventOrder(ss: seq<Segment>, units: seq<Unit>, origin: seq<Event>) {
    && |origin| == |units|
    && (forall k :: 0 <= k < |units| ==> Newest(ss, UnitId(units[k]), origin[k]) && units[k] == UnitAt(ss, UnitId(units[k]), origin[k]))
    && (forall j, k :: 0 <= j < k < |units| ==> Before(origin[j], origin[k]))
  }

  lemma EmittedInOrder(ss: seq<Segment>, m: map<Id, Event>, drop: bool, units: seq<Unit>, origin: seq<Event>)
    requires Emitted(ss, m, drop, units, origin, Event(|ss|, 0, false)) && forall id :: id in m ==> Newest(ss, id, m[id])
    ensures InEventOrder(ss, units, origin)
  {
    hide Newest;
  }

  /**
   Collect the newest events of a range.  Succeeds exactly when every source's passages are grouped
   by document and, with vectors, every newest document has them at the places of its passages.  The
   units then have pairwise different ids, carry only their own passages, define the same entries as
   the merged range (without tombstones when they are dropped), and the reported counts are the
   visible documents of the range and the passages the units carry; the vectors follow the passages.
   The units come in the order of their events.
   */
  method CollectRange(ss: seq<Segment>, vs: Option<seq<seq<VectorEntry>>>, dropTombstones: bool)
    returns (r: Result<Collected>, ghost origin: seq<Event>)
    requires vs.Some? ==> |vs.value| == |ss|
    ensures r.Ok? <==> (forall i :: 0 <= i < |ss| ==> Grouped(ss[i])) && (vs.Some? ==> NewestAligned(ss, vs.value))
    ensures r.Err? ==> r.error == Conflict
    ensures r.Ok? ==> DistinctIds(r.value.units) && AllWellFormed(r.value.units)
    ensures r.Ok? ==> UnitEntries(r.value.units) == Kept(Merged(ss), dropTombstones)
    ensures r.Ok? ==> r.value.documents == |View(ss)| && r.value.passages == |AllPassages(r.value.units)|
    ensures r.Ok? && vs.Some? ==> VectorsFollow(ss, vs.value, AllPassages(r.value.units), r.value.vectors)
    ensures r.Ok? ==> InEventOrder(ss, r.value.units, origin)
  {
    hide Emitted, InEventOrder, Newest, IsEvent, Merged, UnitEntries, Kept, DistinctIds, AllWellFormed, AllPassages, KeptPassages, VectorsFollow, NewestAligned, Aligned;
    origin := [];
    var m := BuildEventMap(ss);
    var documentIds := set id | id in m && m[id].document;
    var unitCount := |documentIds| + if dropTombstones then 0 else |m.Keys - documentIds|;
    var grouped, passages := CheckGrouping(ss, m);
    if !grouped {
      return Err(Conflict), origin;
    }
    var units;
    units, origin := EmitUnits(ss, m, dropTombstones);
    assert |units| == unitCount && |documentIds| == |View(ss)| by { CollectedCounts(ss, m, dropTombstones, units, origin); }
    EmittedEntries(ss, m, dropTombstones, units, origin);
    EmittedWellFormed(ss, m, dropTombstones, units, origin);
    EmittedInOrder(ss, m, dropTombstones, units, origin);
    var vectors := [];
    if vs.Some? {
      var aligned;
      aligned, vectors := CopyVectors(ss, vs.value, m);
      AlignedIsNewest(ss, vs.value, m);
      if !aligned {
        return Err(Conflict), origin;
      }
      VectorsOfKept(ss, vs.value, m);
    }
    r := if |units| != unitCount then Err(Conflict) else Ok(Collected(units, |documentIds|, passages, vectors));
  }

  /** The number of emitted units is the number counted from the event map beforehand. */
  lemma CollectedCounts(ss: seq<Segment>, m: map<Id, Event>, drop: bool, units: seq<Unit>, origin: seq<Event>)
    requires Emitted(ss, m, drop, units, origin, Event(|ss|, 0, false))
    requires forall id :: id in m ==> Newest(ss, id, m[id])
    requires forall id, e :: IsEvent(ss, id, e) ==> id in m
    ensures var documentIds := set id | id in m && m[id].document;
            && |units| == |documentIds| + (if drop then 0 else |m.Keys - documentIds|)
            && |documentIds| == |View(ss)|
  {
    EmittedEntries(ss, m, drop, units, origin);
    EventMapClasses(ss, m);
    UnitCount(units);
    CountEntries(Merged(ss), UnitEntries(units), (set id | id in m && m[id].document), drop);
  }

  lemma CountEntries(merged: Entries, units: Entries, documentIds: set<Id>, drop: bool)
    requires units == Kept(merged, drop) && documentIds == LiveOnly(merged).Keys
    ensures |units| == |documentIds| + if drop then 0 else |merged.Keys - documentIds|
    ensures |documentIds| == |LiveOnly(merged)|
  {
    assert documentIds <= merged.Keys;
    assert merged.Keys == documentIds + (merged.Keys - documentIds);
    assert |units| == |units.Keys| && |LiveOnly(merged)| == |LiveOnly(merged).Keys|;
  }

  // ---------------------------------------------------------------- writing slices

  function TombstoneIds(us: seq<Unit>): seq<Id> {
    if |us| == 0 then []
    else TombstoneIds(us[..|us| - 1]) + if us[|us| - 1].Tombstone? then [us[|us| - 1].id] else []
  }

  function Documents(us: seq<Unit>): seq<Document> {
    if |us| == 0 then []
    else Documents(us[..|us| - 1]) + if us[|us| - 1].DocumentUnit? then [us[|us| - 1].document] else []
  }

  function AllPassages(us: seq<Unit>): seq<Passage> {
    if |us| == 0 then []
    else AllPassages(us[..|us| - 1]) + if us[|us| - 1].DocumentUnit? then us[|us| - 1].passages else []
  }

  /** The segment a slice of units is written to: tombstones, documents and one flat passage array. */
  function WriteSlice(us: seq<Unit>): Segment {
    Segment(TombstoneIds(us), Documents(us), AllPassages(us))
  }

  /** The imperative form: one pass over the slice that fills the three arrays. */
  method FillSlice(us: seq<Unit>) returns (s: Segment)
    ensures s == WriteSlice(us)
  {
    var tombstones, documents, passages := [], [], [];
    for i := 0 to |us|
      invariant tombstones == TombstoneIds(us[..i]) && documents == Documents(us[..i]) && passages == AllPassages(us[..i])
    {
      assert us[..i + 1][..i] == us[..i];
      match us[i]
      case Tombstone(id) => tombstones := tombstones + [id];
      case DocumentUnit(d, ps) => documents := documents + [d]; passages := passages + ps;
    }
    assert us[..|us|] == us;
    s := Segment(tombstones, documents, passages);
  }

  /** Units keep their order in the three arrays: writing two runs one after the other joins what each is written to. */
  lemma {:induction false} WriteSliceJoins(a: seq<Unit>, b: seq<Unit>)
    ensures var s, t, u := WriteSlice(a), WriteSlice(b), WriteSlice(a + b);
      u.tombstones == s.tombstones + t.tombstones && u.documents == s.documents + t.documents && u.passages == s.passages + t.passages
  {
    if |b| == 0 {
      assert a + b == a;
    } else {
      WriteSliceJoins(a, b[..|b| - 1]);
      assert (a + b)[..|a + b| - 1] == a + b[..|b| - 1];
    }
  }

  lemma WriteSliceOne(u: Unit)
    ensures WriteSlice([u]) == match u
      case Tombstone(id) => Segment([id], [], [])
      case DocumentUnit(d, ps) => Segment([], [d], ps)
  {
    assert [u][..0] == [];
    assert TombstoneIds([]) == [] && Documents([]) == [] && AllPassages([]) == [];
    assert u.Tombstone? ==> TombstoneIds([u]) == [u.id] && Documents([u]) == [] && AllPassages([u]) == [];
    assert u.DocumentUnit? ==> TombstoneIds([u]) == [] && Documents([u]) == [u.document] && AllPassages([u]) == u.passages;
  }

  lemma {:induction false} FreshDocument(us: seq<Unit>, id: Id)
    requires forall k :: 0 <= k < |us| ==> UnitId(us[k]) != id
    ensures forall j :: 0 <= j < |Documents(us)| ==> Documents(us)[j].id != id
  {
    if |us| > 0 {
      FreshDocument(us[..|us| - 1], id);
      assert us[|us| - 1].DocumentUnit? ==> us[|us| - 1].document.id != id;
    }
  }

  /** A run does not change when passages of another document are appended. */
  lemma {:induction false} RunEndExtend(ps: seq<Passage>, more: seq<Passage>, start: nat, id: Id)
    requires start <= |ps|
    requires |more| > 0 ==> more[0].parent != id
    ensures RunEnd(ps + more, start, id) == RunEnd(ps, start, id)
    decreases |ps| - start
  {
    if start < |ps| && ps[start].parent == id {
      RunEndExtend(ps, more, start + 1, id);
    }
  }

  lemma {:induction false} CursorExtend(s: Segment, t: Segment, d: Document, ps: seq<Passage>, j: nat)
    requires t == Segment(s.tombstones, s.documents + [d], s.passages + ps)
    requires j <= |s.documents|
    requires forall k :: 0 <= k < |s.documents| ==> s.documents[k].id != d.id
    requires forall k :: 0 <= k < |ps| ==> ps[k].parent == d.id
    ensures Cursor(t, j) == Cursor(s, j)
  {
    if j > 0 {
      CursorExtend(s, t, d, ps, j - 1);
      RunEndExtend(s.passages, ps, Cursor(s, j - 1), s.documents[j - 1].id);
    }
  }

  lemma {:induction false} RunEndAll(ps: seq<Passage>, start: nat, id: Id)
    requires start <= |ps| && forall k :: start <= k < |ps| ==> ps[k].parent == id
    ensures RunEnd(ps, start, id) == |ps|
    decreases |ps| - start
  {
    if start < |ps| {
      RunEndAll(ps, start + 1, id);
    }
  }

  lemma {:induction false} PartialEntriesExtend(s: Segment, t: Segment, d: Document, ps: seq<Passage>, n: nat)
    requires t == Segment(s.tombstones, s.documents + [d], s.passages + ps)
    requires n <= |s.documents|
    requires forall k :: 0 <= k < |s.documents| ==> s.documents[k].id != d.id
    requires forall k :: 0 <= k < |ps| ==> ps[k].parent == d.id
    ensures PartialEntries(t, n) == PartialEntries(s, n)
  {
    hide PassagesOf, TombstoneEntries;
    if n > 0 {
      PartialEntriesExtend(s, t, d, ps, n - 1);
      PassagesExtend(s, t, d, ps, n - 1);
      assert t.documents[n - 1] == s.documents[n - 1];
    }
  }

  lemma PassagesExtend(s: Segment, t: Segment, d: Document, ps: seq<Passage>, n: nat)
    requires t == Segment(s.tombstones, s.documents + [d], s.passages + ps)
    requires n < |s.documents|
    requires forall k :: 0 <= k < |s.documents| ==> s.documents[k].id != d.id
    requires forall k :: 0 <= k < |ps| ==> ps[k].parent == d.id
    ensures PassagesOf(t, n) == PassagesOf(s, n)
  {
    hide RunEnd;
    CursorExtend(s, t, d, ps, n);
    CursorExtend(s, t, d, ps, n + 1);
  }

  /** Appending a document with its passages adds exactly one live entry. */
  lemma AppendDocument(s: Segment, d: Document, ps: seq<Passage>)
    requires Grouped(s)
    requires forall k :: 0 <= k < |s.documents| ==> s.documents[k].id != d.id
    requires forall k :: 0 <= k < |ps| ==> ps[k].parent == d.id
    ensures var t := Segment(s.tombstones, s.documents + [d], s.passages + ps);
            Grouped(t) && SegmentEntries(t) == SegmentEntries(s)[d.id := Live(d, ps)]
  {
    var t := Segment(s.tombstones, s.documents + [d], s.passages + ps);
    var n := |s.documents|;
    CursorExtend(s, t, d, ps, n);
    RunEndAll(t.passages, |s.passages|, d.id);
    PartialEntriesExtend(s, t, d, ps, n);
    assert PassagesOf(t, n) == ps;
  }

  lemma {:induction false} CursorIgnoresTombstones(s: Segment, t: Segment, j: nat)
    requires t.documents == s.documents && t.passages == s.passages && j <= |s.documents|
    ensures Cursor(t, j) == Cursor(s, j)
  {
    if j > 0 { CursorIgnoresTombstones(s, t, j - 1); }
  }

  lemma UpdatesCommute(m: Entries, a: Id, x: Entry, b: Id, y: Entry)
    requires a != b
    ensures m[a := x][b := y] == m[b := y][a := x]
  {
  }

  lemma {:induction false} AppendTombstone(s: Segment, t: Segment, id: Id, n: nat)
    requires t == Segment(s.tombstones + [id], s.documents, s.passages)
    requires n <= |s.documents|
    requires forall k :: 0 <= k < |s.documents| ==> s.documents[k].id != id
    ensures PartialEntries(t, n) == PartialEntries(s, n)[id := Deleted]
  {
    if n > 0 {
      AppendTombstone(s, t, id, n - 1);
      assert PassagesOf(t, n - 1) == PassagesOf(s, n - 1) by {
        CursorIgnoresTombstones(s, t, n - 1);
        CursorIgnoresTombstones(s, t, n);
      }
      var d := s.documents[n - 1];
      var live := Live(d, PassagesOf(s, n - 1));
      assert PartialEntries(t, n) == PartialEntries(t, n - 1)[d.id := live];
      UpdatesCommute(PartialEntries(s, n - 1), id, Deleted, d.id, live);
    }
  }

  lemma WriteOneMore(us: seq<Unit>, u: Unit, s: Segment)
    requires s == WriteSlice(us) && WellFormed(u)
    requires forall k :: 0 <= k < |us| ==> UnitId(us[k]) != UnitId(u)
    requires Grouped(s)
    ensures var t := WriteSlice(us + [u]); Grouped(t) && SegmentEntries(t) == SegmentEntries(s)[UnitId(u) := UnitEntry(u)]
  {
    assert (us + [u])[..|us|] == us;
    FreshDocument(us, UnitId(u));
    match u {
      case Tombstone(id) =>
        var t := Segment(s.tombstones + [id], s.documents, s.passages);
        assert WriteSlice(us + [u]) == t;
        AppendTombstone(s, t, id, |s.documents|);
        CursorIgnoresTombstones(s, t, |s.documents|);
      case DocumentUnit(d, ps) =>
        assert WriteSlice(us + [u]) == Segment(s.tombstones, s.documents + [d], s.passages + ps);
        AppendDocument(s, d, ps);
    }
  }

  /** Reading back a written slice gives exactly the units' entries, whatever the mix of units. */
  lemma {:induction false} WriteSliceEntries(us: seq<Unit>)
    requires DistinctIds(us) && AllWellFormed(us)
    ensures Grouped(WriteSlice(us)) && SegmentEntries(WriteSlice(us)) == UnitEntries(us)
  {
    if |us| > 0 {
      var init, u := us[..|us| - 1], us[|us| - 1];
      WriteSliceEntries(init);
      WriteOneMore(init, u, WriteSlice(init));
      assert us == init + [u];
    }
  }

  // ---------------------------------------------------------------- a whole plan

  function SliceUnits(us: seq<Unit>, slice: Slice): seq<Unit>
    requires slice.first + slice.count <= |us|
  {
    us[slice.first..slice.first + slice.count]
  }

  /** The segments of the first k slices of a plan. */
  ghost function Written(us: seq<Unit>, plan: seq<Slice>, k: nat): seq<Segment>
    requires OrderedPartition(plan, |us|) && k <= |plan|
  {
    if k == 0 then []
    else
      PartitionBounds(plan, |us|, k - 1);
      Written(us, plan, k - 1) + [WriteSlice(SliceUnits(us, plan[k - 1]))]
  }

  lemma {:induction false} UnitEntriesConcat(a: seq<Unit>, b: seq<Unit>)
    ensures UnitEntries(a + b) == UnitEntries(a) + UnitEntries(b)
  {
    if |b| == 0 {
      assert a + b == a;
    } else {
      var init, u := b[..|b| - 1], b[|b| - 1];
      UnitEntriesConcat(a, init);
      assert (a + b)[..|a + b| - 1] == a + init && (a + b)[|a + b| - 1] == u;
      UpdateOverride(UnitEntries(a), UnitEntries(init), UnitId(u), UnitEntry(u));
    }
  }

  lemma UpdateOverride(a: Entries, b: Entries, id: Id, e: Entry)
    ensures (a + b)[id := e] == a + b[id := e]
  {
  }

  function PlanEnd(plan: seq<Slice>, k: nat): nat
    requires k <= |plan|
  {
    if k == 0 then 0 else plan[k - 1].first + plan[k - 1].count
  }

  lemma MergedAppend(ss: seq<Segment>, s: Segment)
    ensures Merged(ss + [s]) == Merged(ss) + SegmentEntries(s)
  {
    assert (ss + [s])[..|ss|] == ss;
  }

  lemma WrittenStep(us: seq<Unit>, ss: seq<Segment>, start: nat, end: nat)
    requires start <= end <= |us| && DistinctIds(us) && AllWellFormed(us)
    requires Merged(ss) == UnitEntries(us[..start])
    ensures Merged(ss + [WriteSlice(us[start..end])]) == UnitEntries(us[..end])
  {
    hide Merged, UnitEntries, WriteSlice, SegmentEntries;
    var done, slice := us[..start], us[start..end];
    WriteSliceEntries(slice);
    UnitEntriesConcat(done, slice);
    MergedAppend(ss, WriteSlice(slice));
    assert done + slice == us[..end];
  }

  lemma PlanEndStep(plan: seq<Slice>, n: nat, k: nat)
    requires OrderedPartition(plan, n) && 0 < k <= |plan|
    ensures PlanEnd(plan, k - 1) == plan[k - 1].first && PlanEnd(plan, k - 1) <= PlanEnd(plan, k) <= n
  {
    PartitionBounds(plan, n, k - 1);
  }

  lemma WrittenLast(us: seq<Unit>, plan: seq<Slice>, k: nat)
    requires OrderedPartition(plan, |us|) && 0 < k <= |plan|
    ensures PlanEnd(plan, k - 1) <= PlanEnd(plan, k) <= |us|
    ensures Written(us, plan, k) == Written(us, plan, k - 1) + [WriteSlice(us[PlanEnd(plan, k - 1)..PlanEnd(plan, k)])]
  {
    hide OrderedPartition, WriteSlice;
    PlanEndStep(plan, |us|, k);
  }

  lemma WrittenNone(us: seq<Unit>, plan: seq<Slice>)
    requires OrderedPartition(plan, |us|)
    ensures PlanEnd(plan, 0) == 0 && Merged(Written(us, plan, 0)) == UnitEntries(us[..0])
  {
    assert us[..0] == [] && Written(us, plan, 0) == [];
  }

  lemma {:induction false} WrittenPrefix(us: seq<Unit>, plan: seq<Slice>, k: nat)
    requires OrderedPartition(plan, |us|) && k <= |plan|
    requires DistinctIds(us) && AllWellFormed(us)
    ensures PlanEnd(plan, k) <= |us| && Merged(Written(us, plan, k)) == UnitEntries(us[..PlanEnd(plan, k)])
  {
    hide OrderedPartition, WriteSlice, Merged, UnitEntries, DistinctIds, AllWellFormed, PlanEnd, Written;
    if k == 0 {
      WrittenNone(us, plan);
    } else {
      WrittenPrefix(us, plan, k - 1);
      WrittenLast(us, plan, k);
      WrittenStep(us, Written(us, plan, k - 1), PlanEnd(plan, k - 1), PlanEnd(plan, k));
    }
  }

  /** Whatever ordered partition the planner chose, the written segments merge to the units' entries. */
  lemma WrittenEntries(us: seq<Unit>, plan: seq<Slice>)
    requires OrderedPartition(plan, |us|) && DistinctIds(us) && AllWellFormed(us)
    ensures Merged(Written(us, plan, |plan|)) == UnitEntries(us)
  {
    WrittenPrefix(us, plan, |plan|);
    assert us[..|us|] == us;
  }

  // ---------------------------------------------------------------- splicing

  /** Replace a range of a manifest by compacted output. */
  function Splice<T>(ss: seq<T>, first: nat, count: nat, output: seq<T>): seq<T>
    requires first + count <= |ss|
  {
    ss[..first] + output + ss[first + count..]
  }

  lemma LiveOverride(a: Entries, b: Entries)
    ensures LiveOnly(LiveOnly(a) + b) == LiveOnly(a + b)
  {
  }

  lemma MergedConcat3(a: seq<Segment>, b: seq<Segment>, c: seq<Segment>)
    ensures Merged(a + b + c) == Merged(a) + Merged(b) + Merged(c)
  {
    MergedConcat(a, b);
    MergedConcat(a + b, c);
  }

  lemma MergedEmpty()
    ensures Merged([]) == map[]
  {
  }

  lemma SpliceViewParts(older: seq<Segment>, range: seq<Segment>, newer: seq<Segment>, output: seq<Segment>, drop: bool)
    requires Merged(output) == Kept(Merged(range), drop) && (drop ==> older == [])
    ensures View(older + output + newer) == View(older + range + newer)
  {
    MergedConcat3(older, output, newer);
    MergedConcat3(older, range, newer);
    if drop {
      MergedEmpty();
      DropOldest(Merged(range), Merged(newer));
    }
  }

  lemma DropOldest(g: Entries, n: Entries)
    ensures LiveOnly(map[] + LiveOnly(g) + n) == LiveOnly(map[] + g + n)
  {
    assert map[] + LiveOnly(g) == LiveOnly(g) && map[] + g == g;
    LiveOverride(g, n);
  }

  /**
   Publishing a compaction never changes what a search sees.  The base manifest chose the range and
   decided whether tombstones may go; the current manifest only has to hold the same range at the
   same position, whatever else happened to it.
   */
  lemma SplicePreservesView(base: seq<Segment>, current: seq<Segment>, first: nat, count: nat, output: seq<Segment>)
    requires first + count <= |base| && first + count <= |current|
    requires base[first..first + count] == current[first..first + count]
    requires Merged(output) == Kept(Merged(base[first..first + count]), first == 0 && count == |base|)
    ensures View(Splice(current, first, count, output)) == View(current)
  {
    hide View, Merged, Kept;
    var older, range, newer := current[..first], current[first..first + count], current[first + count..];
    assert current == older + range + newer;
    SpliceViewParts(older, range, newer, output, first == 0 && count == |base|);
  }

  /**
   When tombstones of a range are dropped behind older segments, the view survives exactly when no
   dropped tombstone hides a document of the older segments that nothing newer decides.
   */
  lemma DropTombstonesExactly(older: seq<Segment>, range: seq<Segment>, newer: seq<Segment>, output: seq<Segment>)
    requires Merged(output) == LiveOnly(Merged(range))
    ensures View(older + output + newer) == View(older + range + newer) <==>
            forall id :: id in Merged(range) && Merged(range)[id] == Deleted && id !in Merged(newer) ==> id !in View(older)
  {
    MergedConcat3(older, output, newer);
    MergedConcat3(older, range, newer);
    DropExactly(Merged(older), Merged(range), Merged(newer));
  }

  lemma DropExactly(o: Entries, g: Entries, n: Entries)
    ensures LiveOnly(o + LiveOnly(g) + n) == LiveOnly(o + g + n) <==>
            forall id :: id in g && g[id] == Deleted && id !in n ==> id !in LiveOnly(o)
  {
    var dropped, kept := LiveOnly(o + LiveOnly(g) + n), LiveOnly(o + g + n);
    if id :| id in g && g[id] == Deleted && id !in n && id in LiveOnly(o) {
      assert id in dropped && id !in kept;
    } else {
      assert dropped.Keys == kept.Keys;
    }
  }
}
