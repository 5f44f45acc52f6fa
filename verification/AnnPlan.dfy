/**
 The cached vector index: which records are visible, why a hidden record can never come back while
 its segment lives, and the join of a cached base against a later manifest.
 */
module AnnPlan {
  import opened Common
  import opened Catalog
  import opened Compaction
  import opened Lifecycle
  import opened LifecycleSafety
  import opened LifecycleTheorems
  import opened Probing

  // ---------------------------------------------------------------- visibility of records

  /** Document record j of segment i is what a lookup of its id finds. */
  ghost predicate RecordVisible(ss: seq<Segment>, i: nat, j: nat)
    requires i < |ss| && j < |ss[i].documents|
  {
    Newest(ss, ss[i].documents[j].id, Event(i, j, true))
  }

  /** Ids that newer segments decide. */
  function Overridden(ss: seq<Segment>, i: nat): set<Id>
    requires i < |ss|
  {
    Merged(ss[i + 1..]).Keys
  }

  lemma LaterEvent(ss: seq<Segment>, i: nat, id: Id)
    requires i < |ss|
    ensures id in Overridden(ss, i) <==> exists e :: IsEvent(ss, id, e) && e.source > i
  {
    var tail := ss[i + 1..];
    MergedHasEvent(tail, id);
    if e :| IsEvent(tail, id, e) {
      assert IsEvent(ss, id, e.(source := e.source + i + 1));
    }
    if e :| IsEvent(ss, id, e) && e.source > i {
      assert IsEvent(tail, id, e.(source := e.source - i - 1));
    }
  }

  /** A record is visible when it is its segment's last word on the id and no newer segment has one. */
  lemma VisibleExactly(ss: seq<Segment>, i: nat, j: nat)
    requires i < |ss| && j < |ss[i].documents|
    ensures var id := ss[i].documents[j].id;
            RecordVisible(ss, i, j) <==> LastDocument(ss[i], |ss[i].documents|, id) == Some(j) && id !in Overridden(ss, i)
  {
    var id := ss[i].documents[j].id;
    LaterEvent(ss, i, id);
    assert IsEvent(ss, id, Event(i, LastDocument(ss[i], |ss[i].documents|, id).value, true));
  }

  // ---------------------------------------------------------------- overriding only grows

  lemma MergedKeysConcat(a: seq<Segment>, b: seq<Segment>)
    ensures Merged(a + b).Keys == Merged(a).Keys + Merged(b).Keys
  {
    MergedConcat(a, b);
  }

  lemma AppendOverrides(ds: seq<Descriptor>, more: seq<Descriptor>, i: nat)
    requires i < |ds|
    ensures Overridden(Contents(ds), i) <= Overridden(Contents(ds + more), i)
  {
    assert Contents(ds + more)[i + 1..] == Contents(ds)[i + 1..] + Contents(more);
    MergedKeysConcat(Contents(ds)[i + 1..], Contents(more));
  }

  lemma SpliceOverridesBefore(ss: seq<Segment>, first: nat, count: nat, output: seq<Segment>, i: nat)
    requires first + count <= |ss| && i < first
    requires Merged(output) == Merged(ss[first..first + count])
    ensures Overridden(Splice(ss, first, count, output), i) == Overridden(ss, i)
  {
    hide Merged;
    var a, r, b := ss[i + 1..first], ss[first..first + count], ss[first + count..];
    assert Splice(ss, first, count, output)[i + 1..] == a + output + b;
    assert ss[i + 1..] == a + r + b;
    MergedConcat3(a, output, b);
    MergedConcat3(a, r, b);
  }

  lemma SpliceOverridesAfter(ss: seq<Segment>, first: nat, count: nat, output: seq<Segment>, i: nat)
    requires first + count <= i < |ss|
    ensures Overridden(Splice(ss, first, count, output), i - count + |output|) == Overridden(ss, i)
  {
    assert Splice(ss, first, count, output)[i - count + |output| + 1..] == ss[i + 1..];
  }

  /** The descriptor occupies position i now and position k after the step. */
  ghost predicate Keeps(s: State, t: State, i: nat, k: nat) {
    i < |s.manifest.segments| && k < |t.manifest.segments| && s.manifest.segments[i] == t.manifest.segments[k]
  }

  /** A surviving descriptor keeps its place in front of the range and shifts behind it. */
  lemma PositionAfterSplice(ds: seq<Descriptor>, first: nat, count: nat, output: seq<Descriptor>, i: nat, k: nat)
    requires first + count <= |ds| && DistinctDescriptors(ds) && DistinctDescriptors(output) && Ids(ds) !! Ids(output)
    requires i < |ds| && k < |Splice(ds, first, count, output)| && ds[i] == Splice(ds, first, count, output)[k]
    ensures (i < first && k == i) || (first + count <= i && k == i - count + |output|)
  {
    assert ds[i].id in Ids(ds);
    assert forall j :: 0 <= j < |output| ==> output[j].id in Ids(output);
    SpliceAt(ds, first, count, output, k);
  }

  lemma SpliceOverridesSequence(base: seq<Descriptor>, ds: seq<Descriptor>, first: nat, count: nat, w: Work, i: nat, k: nat)
    requires first + count <= |base| && base <= ds && WorkShape(w) && |w.built| == |w.plan|
    requires CollectedFrom(Contents(base[first..first + count]), first == 0 && count == |base|, w.units)
    requires DistinctDescriptors(ds) && Ids(ds) !! Ids(w.built)
    requires i < |ds| && k < |Splice(ds, first, count, w.built)| && ds[i] == Splice(ds, first, count, w.built)[k]
    ensures Overridden(Contents(Splice(ds, first, count, w.built)), k) == Overridden(Contents(ds), i)
  {
    hide Overridden, Contents, CollectedFrom, Splice;
    PositionAfterSplice(ds, first, count, w.built, i, k);
    if i < first {
      OverridesBeforeRange(base, ds, first, count, w, i);
    } else {
      OverridesBehindRange(ds, first, count, w.built, i);
    }
  }

  lemma OverridesBeforeRange(base: seq<Descriptor>, ds: seq<Descriptor>, first: nat, count: nat, w: Work, i: nat)
    requires first + count <= |base| && base <= ds && WorkShape(w) && |w.built| == |w.plan| && i < first
    requires CollectedFrom(Contents(base[first..first + count]), first == 0 && count == |base|, w.units)
    ensures i < |Splice(ds, first, count, w.built)|
    ensures Overridden(Contents(Splice(ds, first, count, w.built)), i) == Overridden(Contents(ds), i)
  {
    WrittenEntries(w.units, w.plan);
    ContentsSplice(ds, first, count, w.built);
    hide Overridden;
    assert Contents(ds)[first..first + count] == Contents(base[first..first + count]);
    SpliceOverridesBefore(Contents(ds), first, count, Contents(w.built), i);
  }

  lemma OverridesBehindRange(ds: seq<Descriptor>, first: nat, count: nat, built: seq<Descriptor>, i: nat)
    requires first + count <= i < |ds|
    ensures i - count + |built| < |Splice(ds, first, count, built)|
    ensures Overridden(Contents(Splice(ds, first, count, built)), i - count + |built|) == Overridden(Contents(ds), i)
  {
    ContentsSplice(ds, first, count, built);
    hide Overridden;
    SpliceOverridesAfter(Contents(ds), first, count, Contents(built), i);
  }

  lemma RelockedFacts(s: State, p: Pid)
    requires Inv(s) && Proc(s, p).Relocked?
    ensures var q := Proc(s, p);
      && q.current == s.manifest && q.first + q.count <= |q.base.segments| && q.base.segments <= s.manifest.segments
      && WorkShape(q.work) && |q.work.built| == |q.work.plan|
      && CollectedFrom(Contents(q.base.segments[q.first..q.first + q.count]), q.first == 0 && q.count == |q.base.segments|, q.work.units)
  {
    hide History, LogFile, Files, Construction, Locks, WorkShape, CollectedFrom;
    assert ProcessOk(s, Proc(s, p));
  }

  lemma SpliceOverrides(s: State, p: Pid, i: nat, k: nat)
    requires Inv(s) && Proc(s, p).Relocked? && Proc(s, p).first + Proc(s, p).count <= |Proc(s, p).base.segments|
    requires Proc(s, p).first + Proc(s, p).count <= |Proc(s, p).current.segments| && Keeps(s, DoPublishSplice(s, p), i, k)
    ensures Overridden(Contents(s.manifest.segments), i) <= Overridden(Contents(DoPublishSplice(s, p).manifest.segments), k)
  {
    hide Overridden, CollectedFrom, WorkShape, Contents;
    var q := Proc(s, p);
    RelockedFacts(s, p);
    assert Ids(Built(q)) !! s.publishedIds;
    SpliceOverridesSequence(q.base.segments, s.manifest.segments, q.first, q.count, q.work, i, k);
  }

  /** One step never takes an overriding event away from a segment that survives it. */
  lemma SamePlace(s: State, t: State, i: nat, k: nat)
    requires Keeps(s, t, i, k) && t.manifest == s.manifest && DistinctDescriptors(t.manifest.segments)
    ensures i == k
  {
  }

  lemma DistinctIn(s: State)
    requires Inv(s)
    ensures DistinctDescriptors(s.manifest.segments)
  {
  }

  lemma SpliceIsNext(s: State, p: Pid)
    requires Enabled(s, p, PublishSplice)
    ensures Next(s, p, PublishSplice) == DoPublishSplice(s, p)
  {
  }

  lemma StepOverrides(s: State, p: Pid, a: Action, i: nat, k: nat)
    requires Inv(s) && Enabled(s, p, a) && Keeps(s, Next(s, p, a), i, k)
    ensures Overridden(Contents(s.manifest.segments), i) <= Overridden(Contents(Next(s, p, a).manifest.segments), k)
  {
    hide Overridden, Contents, Next, History, LogFile, Files, Construction, Locks, ProcessOk;
    var t := Next(s, p, a);
    StepKeeps(s, p, a);
    DistinctIn(t);
    if a.PublishSplice? {
      SpliceIsNext(s, p);
      SpliceOverrides(s, p, i, k);
    } else if a.Publish? {
      PublishOverrides(s, p, i, k);
    } else {
      ManifestKept(s, p, a);
      SamePlace(s, t, i, k);
    }
  }

  lemma SameDescriptor(ds: seq<Descriptor>, i: nat, k: nat)
    requires DistinctDescriptors(ds) && i < |ds| && k < |ds| && ds[i] == ds[k]
    ensures i == k
  {
  }

  lemma PublishOverrides(s: State, p: Pid, i: nat, k: nat)
    requires Inv(s) && Enabled(s, p, Publish) && Keeps(s, Next(s, p, Publish), i, k)
    requires DistinctDescriptors(Next(s, p, Publish).manifest.segments)
    ensures Overridden(Contents(s.manifest.segments), i) <= Overridden(Contents(Next(s, p, Publish).manifest.segments), k)
  {
    hide Overridden, History, LogFile, Files, Construction, Locks, WorkShape, DistinctDescriptors;
    assert ProcessOk(s, Proc(s, p));
    assert Next(s, p, Publish).manifest.segments == s.manifest.segments + Proc(s, p).work.built;
    assert Next(s, p, Publish).manifest.segments[i] == s.manifest.segments[i];
    SameDescriptor(Next(s, p, Publish).manifest.segments, i, k);
    AppendOverrides(s.manifest.segments, Proc(s, p).work.built, i);
  }

  /** A descriptor that was once published and is in a manifest was in the manifest before. */
  lemma NoResurrection(s: State, p: Pid, a: Action, d: Descriptor)
    requires Inv(s) && Enabled(s, p, a) && d in Next(s, p, a).manifest.segments && d.id in s.publishedIds
    ensures d in s.manifest.segments
  {
    hide Inv, Enabled, Next;
    if a.Publish? || a.PublishSplice? {
      PublishedIsNewOrOld(s, p, a, d);
      if d in Built(Proc(s, p)) { BuiltIsNew(s, p, d); }
    } else {
      ManifestKept(s, p, a);
    }
  }

  lemma ManifestKept(s: State, p: Pid, a: Action)
    requires Enabled(s, p, a) && !a.Publish? && !a.PublishSplice?
    ensures Next(s, p, a).manifest == s.manifest
  {
  }

  /** A publish names only segments that the manifest named before or that the process has built. */
  lemma PublishedIsNewOrOld(s: State, p: Pid, a: Action, d: Descriptor)
    requires Inv(s) && Enabled(s, p, a) && (a.Publish? || a.PublishSplice?) && d in Next(s, p, a).manifest.segments
    ensures d in s.manifest.segments || d in Built(Proc(s, p))
  {
    hide LogFile, History, CollectedFrom, DistinctDescriptors, Construction, Files, Locks, WorkShape;
    assert ProcessOk(s, Proc(s, p));
  }

  lemma BuiltIsNew(s: State, p: Pid, d: Descriptor)
    requires Inv(s) && d in Built(Proc(s, p))
    ensures d.id !in s.publishedIds
  {
    hide LogFile, History, Processes, Files, Locks;
    var built := Built(Proc(s, p));
    var k :| 0 <= k < |built| && built[k] == d;
    assert built[k].id in Ids(built);
  }

  lemma {:induction false} RunPublished(states: seq<State>, moves: seq<Move>, m: nat, n: nat)
    requires Run(states, moves) && states[0] == Initial() && m <= n < |states|
    ensures states[m].publishedIds <= states[n].publishedIds
    decreases n
  {
    if m < n {
      RunPublished(states, moves, m, n - 1);
      InitialOk();
      RunKeeps(states, moves, n - 1);
      StepGrows(states[n - 1], moves[n - 1].p, moves[n - 1].action);
    }
  }

  lemma StepIdentity(states: seq<State>, moves: seq<Move>, m: nat, n: nat, d: Descriptor)
    requires Run(states, moves) && states[0] == Initial() && m <= n < |moves|
    requires d in states[n + 1].manifest.segments && d.id in states[m].publishedIds
    ensures d in states[n].manifest.segments
  {
    InitialOk();
    RunKeeps(states, moves, n);
    RunPublished(states, moves, m, n);
    NoResurrection(states[n], moves[n].p, moves[n].action, d);
  }

  lemma SamePosition(s: State, i: nat, k: nat)
    requires Inv(s) && Keeps(s, s, i, k)
    ensures i == k
  {
  }

  /** A segment present now and at some earlier state was also present one step ago. */
  lemma PositionBefore(states: seq<State>, moves: seq<Move>, m: nat, n: nat, i: nat, k: nat) returns (h: nat)
    requires Run(states, moves) && states[0] == Initial() && m <= n < |moves| && Inv(states[m]) && Keeps(states[m], states[n + 1], i, k)
    ensures Keeps(states[m], states[n], i, h) && Keeps(states[n], states[n + 1], h, k)
  {
    var d := states[m].manifest.segments[i];
    assert d.id in Ids(states[m].manifest.segments);
    StepIdentity(states, moves, m, n, d);
    h :| 0 <= h < |states[n].manifest.segments| && states[n].manifest.segments[h] == d;
  }

  lemma {:induction false} RunOverrides(states: seq<State>, moves: seq<Move>, m: nat, n: nat, i: nat, k: nat)
    requires Run(states, moves) && states[0] == Initial() && m <= n < |states| && Keeps(states[m], states[n], i, k)
    requires forall x :: 0 <= x < |states| ==> Inv(states[x])
    ensures Overridden(Contents(states[m].manifest.segments), i) <= Overridden(Contents(states[n].manifest.segments), k)
    decreases n
  {
    hide Inv, Enabled, Next, Overridden, Contents, Initial;
    if m == n {
      SamePosition(states[m], i, k);
    } else {
      assert Leads(states[n - 1], moves[n - 1], states[n]);
      var h := PositionBefore(states, moves, m, n - 1, i, k);
      RunOverrides(states, moves, m, n - 1, i, h);
      StepOverrides(states[n - 1], moves[n - 1].p, moves[n - 1].action, h, k);
    }
  }

  lemma AllOk(states: seq<State>, moves: seq<Move>)
    requires Run(states, moves) && states[0] == Initial()
    ensures forall x :: 0 <= x < |states| ==> Inv(states[x])
  {
    InitialOk();
    forall x | 0 <= x < |states| ensures Inv(states[x]) { RunKeeps(states, moves, x); }
  }

  /** A record hidden at some generation stays hidden as long as its segment is in the manifest. */
  lemma HiddenStaysHidden(states: seq<State>, moves: seq<Move>, m: nat, n: nat, i: nat, k: nat, j: nat)
    requires Run(states, moves) && states[0] == Initial() && m <= n < |states| && Keeps(states[m], states[n], i, k)
    requires j < |states[m].manifest.segments[i].content.documents|
    requires !RecordVisible(Contents(states[m].manifest.segments), i, j)
    ensures !RecordVisible(Contents(states[n].manifest.segments), k, j)
  {
    AllOk(states, moves);
    RunOverrides(states, moves, m, n, i, k);
    VisibleExactly(Contents(states[m].manifest.segments), i, j);
    VisibleExactly(Contents(states[n].manifest.segments), k, j);
  }

  // ---------------------------------------------------------------- joining base and current

  /** Which base segment lives where in the current manifest, and which current segments are new. */
  datatype QueryPlan = QueryPlan(baseToCurrent: seq<Option<nat>>, currentIsDelta: seq<bool>, deltaCount: nat, missingCount: nat)

  /** The base knows the current descriptor: same name and same fingerprint. */
  predicate SameSegment(a: Descriptor, b: Descriptor, fingerprint: Descriptor -> nat) {
    a.id == b.id && fingerprint(a) == fingerprint(b)
  }

  function Home(id: SegId, hash: SegId -> nat, size: nat): nat
    requires size > 0
  {
    hash(id) % size
  }

  /** The slots up to, but not including, the owner's are taken. */
  predicate PathTaken(slots: seq<Option<nat>>, home: nat, slot: nat)
    requires home < |slots| && slot < |slots|
  {
    forall j :: 0 <= j < Distance(home, slot, |slots|) ==> slots[At(home, j, |slots|)].Some?
  }

  /** The table holds bases 0..n; place says in which slot. */
  predicate Holds(slots: seq<Option<nat>>, base: seq<Descriptor>, hash: SegId -> nat, place: seq<nat>) {
    && |slots| > 0 && |place| <= |base|
    && (forall s :: 0 <= s < |slots| && slots[s].Some? ==> slots[s].value < |place| && place[slots[s].value] == s)
    && (forall b :: 0 <= b < |place| ==>
          && place[b] < |slots| && slots[place[b]] == Some(b)
          && PathTaken(slots, Home(base[b].id, hash, |slots|), place[b]))
  }

  lemma HasFreeSlot(slots: seq<Option<nat>>, base: seq<Descriptor>, hash: SegId -> nat, place: seq<nat>) returns (free: nat)
    requires Holds(slots, base, hash, place) && |place| < |slots|
    ensures free < |slots| && slots[free].None?
  {
    var owned := set b | 0 <= b < |place| :: place[b];
    OwnedSize(place);
    assert forall s :: 0 <= s < |slots| && slots[s].Some? ==> place[slots[s].value] in owned;
    free := FreeSlot(owned, |slots|);
  }

  lemma {:induction false} OwnedSize(place: seq<nat>)
    ensures |set b | 0 <= b < |place| :: place[b]| <= |place|
  {
    if |place| > 0 {
      var init := place[..|place| - 1];
      OwnedSize(init);
      assert (set b | 0 <= b < |place| :: place[b]) == (set b | 0 <= b < |init| :: init[b]) + {place[|place| - 1]} by {
        assert forall b :: 0 <= b < |init| ==> init[b] == place[b];
      }
    }
  }

  /** Put base n into the first free slot on its path. */
  method InsertBase(slots: array<Option<nat>>, base: seq<Descriptor>, hash: SegId -> nat, n: nat, ghost place: seq<nat>)
    returns (ghost after: seq<nat>)
    requires Holds(slots[..], base, hash, place) && n == |place| < |base| && n < slots.Length
    modifies slots
    ensures |after| == n + 1 && Holds(slots[..], base, hash, after)
  {
    ghost var before := slots[..];
    ghost var free := HasFreeSlot(before, base, hash, place);
    var size := slots.Length;
    var home := Home(base[n].id, hash, size);
    var slot := home;
    ghost var k := 0;
    while slots[slot].Some?
      invariant k <= Distance(home, free, size) && slot == At(home, k, size)
      invariant forall j :: 0 <= j < k ==> before[At(home, j, size)].Some?
      decreases size - k
    {
      slot, k := Wrap(slot, size), k + 1;
    }
    slots[slot] := Some(n);
    after := place + [slot];
    InsertedHolds(before, base, hash, place, slot, k);
    assert slots[..] == before[slot := Some(n)];
  }

  lemma InsertedHolds(before: seq<Option<nat>>, base: seq<Descriptor>, hash: SegId -> nat, place: seq<nat>, slot: nat, k: nat)
    requires Holds(before, base, hash, place) && |place| < |base| && slot < |before| && before[slot].None?
    requires k < |before| && slot == At(Home(base[|place|].id, hash, |before|), k, |before|)
    requires forall j :: 0 <= j < k ==> before[At(Home(base[|place|].id, hash, |before|), j, |before|)].Some?
    ensures Holds(before[slot := Some(|place|)], base, hash, place + [slot])
  {
    var after, places := before[slot := Some(|place|)], place + [slot];
    assert forall s :: 0 <= s < |before| && before[s].Some? ==> after[s].Some?;
    forall b | 0 <= b < |places| ensures PathTaken(after, Home(base[b].id, hash, |after|), places[b]) {
      var home := Home(base[b].id, hash, |after|);
      if b < |place| {
        assert PathTaken(before, home, place[b]);
      } else {
        assert Distance(home, slot, |after|) == k;
      }
    }
  }

  /** The owner of a slot lies on its own probe path, behind taken slots only. */
  lemma StoredIsOnPath(slots: seq<Option<nat>>, base: seq<Descriptor>, hash: SegId -> nat, place: seq<nat>, b: nat)
    requires Holds(slots, base, hash, place) && b < |place|
    ensures var home := Home(base[b].id, hash, |slots|);
      var d := Distance(home, place[b], |slots|);
      && slots[At(home, d, |slots|)] == Some(b)
      && forall j :: 0 <= j <= d ==> slots[At(home, j, |slots|)].Some?
  {
    assert PathTaken(slots, Home(base[b].id, hash, |slots|), place[b]);
  }

  /** Probe for a segment name, stopping at a free slot or after a full sweep. */
  method FindBase(slots: array<Option<nat>>, base: seq<Descriptor>, hash: SegId -> nat, ghost place: seq<nat>, id: SegId)
    returns (r: Option<nat>)
    requires Holds(slots[..], base, hash, place) && |place| == |base|
    ensures r.Some? ==> r.value < |base| && base[r.value].id == id
    ensures r.None? ==> forall b :: 0 <= b < |base| ==> base[b].id != id
  {
    var size := slots.Length;
    var home := Home(id, hash, size);
    var slot, probes := home, 0;
    while probes < size
      invariant probes <= size && slot == At(home, probes, size)
      invariant forall j :: 0 <= j < probes ==>
        slots[At(home, j, size)].Some? && slots[At(home, j, size)].value < |base| && base[slots[At(home, j, size)].value].id != id
    {
      if slots[slot].None? {
        break;
      }
      if base[slots[slot].value].id == id {
        return slots[slot];
      }
      slot, probes := Wrap(slot, size), probes + 1;
    }
    forall b | 0 <= b < |base| ensures base[b].id != id {
      StoredIsOnPath(slots[..], base, hash, place, b);
    }
    r := None;
  }

  /** The join says for every base and every current segment whether the other side knows it. */
  predicate JoinOk(base: seq<Descriptor>, current: seq<Descriptor>, fingerprint: Descriptor -> nat, plan: QueryPlan) {
    && |plan.baseToCurrent| == |base| && |plan.currentIsDelta| == |current|
    && (forall b :: 0 <= b < |base| ==>
          match plan.baseToCurrent[b]
          case Some(i) => i < |current| && SameSegment(base[b], current[i], fingerprint)
          case None => forall i :: 0 <= i < |current| ==> !SameSegment(base[b], current[i], fingerprint))
    && (forall i :: 0 <= i < |current| ==>
          (plan.currentIsDelta[i] <==> forall b :: 0 <= b < |base| ==> !SameSegment(base[b], current[i], fingerprint)))
  }

  predicate PartialJoin(base: seq<Descriptor>, current: seq<Descriptor>, fp: Descriptor -> nat, to: seq<Option<nat>>, delta: seq<bool>) {
    JoinOk(base, current, fp, QueryPlan(to, delta, 0, 0))
  }

  lemma JoinNext(base: seq<Descriptor>, done: seq<Descriptor>, d: Descriptor, fp: Descriptor -> nat, to: seq<Option<nat>>, delta: seq<bool>, found: Option<nat>)
    requires PartialJoin(base, done, fp, to, delta) && DistinctDescriptors(base) && DistinctDescriptors(done + [d])
    requires found.Some? ==> found.value < |base| && base[found.value].id == d.id
    requires found.None? ==> forall b :: 0 <= b < |base| ==> base[b].id != d.id
    ensures if found.Some? && fp(base[found.value]) == fp(d)
            then PartialJoin(base, done + [d], fp, to[found.value := Some(|done|)], delta + [false])
            else PartialJoin(base, done + [d], fp, to, delta + [true])
  {
    var now := done + [d];
    assert forall i :: 0 <= i < |done| ==> now[i] == done[i];
    assert now[|done|] == d;
    assert forall i :: 0 <= i < |done| ==> done[i].id != d.id;
    forall b | 0 <= b < |base| && found.Some? && b != found.value ensures base[b].id != d.id {
    }
  }

  /**
   Join a cached base with the current manifest.  Succeeds unless one side is empty; a base is
   mapped to the position of the identical current segment, a current segment is a delta exactly
   when the base does not know it, and both kinds are counted.
   */
  method BuildQueryPlan(base: seq<Descriptor>, current: seq<Descriptor>, hash: SegId -> nat, fingerprint: Descriptor -> nat)
    returns (r: Result<QueryPlan>)
    requires DistinctDescriptors(base) && DistinctDescriptors(current)
    ensures r.Ok? <==> |base| > 0 && |current| > 0
    ensures r.Err? ==> r.error == InvalidArgument
    ensures r.Ok? ==> JoinOk(base, current, fingerprint, r.value)
    ensures r.Ok? ==> r.value.deltaCount == |set i | 0 <= i < |current| && r.value.currentIsDelta[i]|
    ensures r.Ok? ==> r.value.missingCount == |set b | 0 <= b < |base| && r.value.baseToCurrent[b].None?|
  {
    if |base| == 0 || |current| == 0 {
      return Err(InvalidArgument);
    }
    var slots, place := FillTable(base, hash);
    var to: seq<Option<nat>> := seq(|base|, _ => None);
    var delta := [];
    for i := 0 to |current|
      invariant Holds(slots[..], base, hash, place)
      invariant PartialJoin(base, current[..i], fingerprint, to, delta)
    {
      var found := FindBase(slots, base, hash, place, current[i].id);
      assert current[..i] + [current[i]] == current[..i + 1];
      JoinNext(base, current[..i], current[i], fingerprint, to, delta, found);
      if found.Some? && fingerprint(base[found.value]) == fingerprint(current[i]) {
        to, delta := to[found.value := Some(i)], delta + [false];
      } else {
        delta := delta + [true];
      }
    }
    assert current[..|current|] == current;
    var deltaCount := CountDelta(delta);
    var missing := CountMissing(to);
    r := Ok(QueryPlan(to, delta, deltaCount, missing));
  }

  method FillTable(base: seq<Descriptor>, hash: SegId -> nat) returns (slots: array<Option<nat>>, ghost place: seq<nat>)
    requires |base| > 0
    ensures fresh(slots) && |place| == |base| && Holds(slots[..], base, hash, place)
  {
    var size := TableSize(|base|);
    slots := new Option<nat>[size](_ => None);
    place := [];
    for b := 0 to |base|
      invariant |place| == b && fresh(slots) && slots.Length == size && Holds(slots[..], base, hash, place)
    {
      place := InsertBase(slots, base, hash, b, place);
    }
  }

  method CountDelta(delta: seq<bool>) returns (n: nat)
    ensures n == |set i | 0 <= i < |delta| && delta[i]|
  {
    n := 0;
    for i := 0 to |delta|
      invariant n == |set h | 0 <= h < i && delta[h]|
    {
      ghost var before := set h | 0 <= h < i && delta[h];
      if delta[i] {
        n := n + 1;
        assert (set h | 0 <= h < i + 1 && delta[h]) == before + {i};
      } else {
        assert (set h | 0 <= h < i + 1 && delta[h]) == before;
      }
    }
  }

  method CountMissing(to: seq<Option<nat>>) returns (n: nat)
    ensures n == |set b | 0 <= b < |to| && to[b].None?|
  {
    n := 0;
    for i := 0 to |to|
      invariant n == |set b | 0 <= b < i && to[b].None?|
    {
      ghost var before := set b | 0 <= b < i && to[b].None?;
      if to[i].None? {
        n := n + 1;
        assert (set b | 0 <= b < i + 1 && to[b].None?) == before + {i};
      } else {
        assert (set b | 0 <= b < i + 1 && to[b].None?) == before;
      }
    }
  }

  // ---------------------------------------------------------------- coverage

  /** A passage belongs to a visible document of its own segment. */
  ghost predicate PassageVisible(ss: seq<Segment>, i: nat, k: nat)
    requires i < |ss| && k < |ss[i].passages|
  {
    exists j :: 0 <= j < |ss[i].documents| && ss[i].documents[j].id == ss[i].passages[k].parent && RecordVisible(ss, i, j)
  }

  /** The keys a base built at some manifest contains. */
  ghost predicate InBase(base: seq<Descriptor>, b: nat, k: nat)
    requires b < |base| && k < |base[b].content.passages|
  {
    PassageVisible(Contents(base), b, k)
  }

  /** A name that was published by generation m and is in use at generation n names the same segment at m. */
  lemma {:induction false} RunKeepsIdentity(states: seq<State>, moves: seq<Move>, m: nat, n: nat, d: Descriptor)
    requires Run(states, moves) && states[0] == Initial() && m <= n < |states|
    requires d in states[n].manifest.segments && d.id in states[m].publishedIds
    ensures d in states[m].manifest.segments
    decreases n
  {
    if m < n {
      assert d in states[n - 1].manifest.segments by { StepIdentity(states, moves, m, n - 1, d); }
      RunKeepsIdentity(states, moves, m, n - 1, d);
    }
  }

  lemma SameNameSameSegment(states: seq<State>, moves: seq<Move>, m: nat, n: nat, b: nat, i: nat)
    requires Run(states, moves) && states[0] == Initial() && m <= n < |states|
    requires b < |states[m].manifest.segments| && i < |states[n].manifest.segments|
    requires states[m].manifest.segments[b].id == states[n].manifest.segments[i].id
    ensures states[m].manifest.segments[b] == states[n].manifest.segments[i]
  {
    InitialOk();
    RunKeeps(states, moves, m);
    var d := states[n].manifest.segments[i];
    assert d.id in Ids(states[m].manifest.segments);
    RunKeepsIdentity(states, moves, m, n, d);
  }

  /** No current segment is served by two base segments. */
  lemma JoinIsInjective(base: seq<Descriptor>, current: seq<Descriptor>, fingerprint: Descriptor -> nat, plan: QueryPlan)
    requires DistinctDescriptors(base) && JoinOk(base, current, fingerprint, plan)
    ensures forall a, b :: 0 <= a < b < |base| && plan.baseToCurrent[a].Some? ==> plan.baseToCurrent[a] != plan.baseToCurrent[b]
  {
    forall a, b | 0 <= a < b < |base| && plan.baseToCurrent[a].Some? ensures plan.baseToCurrent[a] != plan.baseToCurrent[b] {
      assert base[a].id != base[b].id;
    }
  }

  lemma ServingBase(base: seq<Descriptor>, current: seq<Descriptor>, fingerprint: Descriptor -> nat, plan: QueryPlan, i: nat) returns (b: nat)
    requires DistinctDescriptors(current) && JoinOk(base, current, fingerprint, plan) && i < |current| && !plan.currentIsDelta[i]
    ensures b < |base| && plan.baseToCurrent[b] == Some(i) && base[b].id == current[i].id
  {
    b :| 0 <= b < |base| && SameSegment(base[b], current[i], fingerprint);
    assert current[plan.baseToCurrent[b].value].id == current[i].id;
  }

  /** A passage visible later was visible when the base was built, if the base has its segment. */
  lemma VisibleLaterVisibleInBase(states: seq<State>, moves: seq<Move>, m: nat, n: nat, b: nat, i: nat, k: nat)
    requires Run(states, moves) && states[0] == Initial() && m <= n < |states| && Keeps(states[m], states[n], b, i)
    requires k < |states[n].manifest.segments[i].content.passages|
    requires PassageVisible(Contents(states[n].manifest.segments), i, k)
    ensures InBase(states[m].manifest.segments, b, k)
  {
    var now, built := Contents(states[n].manifest.segments), Contents(states[m].manifest.segments);
    var j :| 0 <= j < |now[i].documents| && now[i].documents[j].id == now[i].passages[k].parent && RecordVisible(now, i, j);
    if !RecordVisible(built, b, j) {
      HiddenStaysHidden(states, moves, m, n, b, i, j);
    }
  }

  /**
   A base built at one generation and the delta segments of a later one together cover every
   passage visible at the later generation: each current segment is either a delta or served by
   exactly one base segment, and in the second case the base holds the passage.
   */
  lemma BaseAndDeltaCover(states: seq<State>, moves: seq<Move>, m: nat, n: nat, fingerprint: Descriptor -> nat, plan: QueryPlan, i: nat, k: nat)
    requires Run(states, moves) && states[0] == Initial() && m <= n < |states|
    requires JoinOk(states[m].manifest.segments, states[n].manifest.segments, fingerprint, plan)
    requires i < |states[n].manifest.segments| && k < |states[n].manifest.segments[i].content.passages|
    requires PassageVisible(Contents(states[n].manifest.segments), i, k)
    ensures plan.currentIsDelta[i] ==> forall b :: 0 <= b < |plan.baseToCurrent| ==> plan.baseToCurrent[b] != Some(i)
    ensures !plan.currentIsDelta[i] ==> exists b ::
              && 0 <= b < |plan.baseToCurrent| && plan.baseToCurrent[b] == Some(i)
              && states[m].manifest.segments[b] == states[n].manifest.segments[i]
              && InBase(states[m].manifest.segments, b, k)
  {
    if !plan.currentIsDelta[i] {
      assert DistinctDescriptors(states[n].manifest.segments) by { AllOk(states, moves); }
      var b := ServingBase(states[m].manifest.segments, states[n].manifest.segments, fingerprint, plan, i);
      SameNameSameSegment(states, moves, m, n, b, i);
      VisibleLaterVisibleInBase(states, moves, m, n, b, i, k);
    }
  }
}
