/** Safety of every run of the lifecycle state machine. */
module LifecycleSafety {
  import opened Common
  import opened Catalog
  import opened Slices
  import opened Compaction
  import opened Lifecycle

  // ---------------------------------------------------------------- the inductive invariant

  predicate DistinctDescriptors(ds: seq<Descriptor>) {
    forall j, k :: 0 <= j < k < |ds| ==> ds[j].id != ds[k].id
  }

  predicate OnDisk(disk: map<SegId, Segment>, ds: seq<Descriptor>) {
    forall k :: 0 <= k < |ds| ==> ds[k].id in disk && disk[ds[k].id] == ds[k].content
  }

  /** The part of a work record that no other process can disturb. */
  ghost predicate WorkShape(w: Work) {
    && OrderedPartition(w.plan, |w.units|) && DistinctIds(w.units) && AllWellFormed(w.units)
    && |w.built| <= |w.plan| && DistinctDescriptors(w.built)
    && Contents(w.built) == Written(w.units, w.plan, |w.built|)
  }

  /** The batch is pending: it has been accepted but never published. */
  predicate Pending(s: State, b: Batch) {
    BatchOk(b) && b.tag in s.usedTags && b.tag !in Tags(s.log)
  }

  predicate LogNames(s: State, b: Batch, base: nat) {
    s.wal == Some(Wal(base, b))
  }

  predicate LogAvoids(s: State, b: Batch) {
    s.wal.Some? ==> s.wal.value.batch.tag != b.tag
  }

  ghost predicate ProcessOk(s: State, q: Process) {
    match q
    case Idle => true
    case Planned(b, mode, base) =>
      base == s.manifest && Pending(s, b) && (if mode == Replay then LogNames(s, b, base.generation) else LogAvoids(s, b))
    case Writing(b, mode, base, w) =>
      && base == s.manifest && Pending(s, b) && (if mode == Bulk then LogAvoids(s, b) else LogNames(s, b, base.generation))
      && WorkShape(w) && w.units == b.units
    case Published(b, mode) =>
      && b.tag in Tags(s.log)
      && (mode != Bulk ==> s.manifest.generation > 0 && LogNames(s, b, s.manifest.generation - 1))
    case Waiting => true
    case Cleaning(base) => base == s.manifest && s.wal.None?
    case Selected(base, first, count) => first + count <= |base.segments| && base.segments <= s.manifest.segments
    case Merging(base, first, count, w) =>
      && first + count <= |base.segments| && base.segments <= s.manifest.segments && WorkShape(w)
      && CollectedFrom(Contents(RangeOf(base, first, count)), DropsTombstones(base, first, count), w.units)
    case Relocked(base, first, count, w, current) =>
      && first + count <= |base.segments| && base.segments <= s.manifest.segments && WorkShape(w)
      && CollectedFrom(Contents(RangeOf(base, first, count)), DropsTombstones(base, first, count), w.units)
      && current == s.manifest && |w.built| == |w.plan|
    case Sweeping(doomed) =>
      forall k :: 0 <= k < |doomed| ==> doomed[k] in s.publishedIds && doomed[k] !in Ids(s.manifest.segments)
  }

  ghost predicate Locks(s: State) {
    forall p: Pid :: (HoldsWriter(Proc(s, p)) <==> s.writer == Some(p)) && (HoldsCompaction(Proc(s, p)) <==> s.compaction == Some(p))
  }

  predicate Files(s: State) {
    && DistinctDescriptors(s.manifest.segments)
    && OnDisk(s.disk, s.manifest.segments)
    && s.disk.Keys <= s.usedIds
    && Ids(s.manifest.segments) <= s.publishedIds <= s.usedIds
  }

  /** Directories under construction exist, are unpublished, and belong to one process only. */
  ghost predicate Construction(s: State) {
    && (forall p :: OnDisk(s.disk, Built(Proc(s, p))) && Ids(Built(Proc(s, p))) !! s.publishedIds)
    && (forall p, q :: p != q ==> Ids(Built(Proc(s, p))) !! Ids(Built(Proc(s, q))))
  }

  ghost predicate Processes(s: State) {
    forall p :: ProcessOk(s, Proc(s, p))
  }

  predicate History(s: State) {
    && View(Contents(s.manifest.segments)) == Replayed(s.log)
    && NoRepeats(s.log)
    && Tags(s.log) <= s.usedTags
    && s.acknowledged <= Tags(s.log)
  }

  /** The log on disk is not ahead of the manifest, and says how its batch stands. */
  predicate LogFile(s: State) {
    s.wal.Some? ==>
      var w := s.wal.value;
      && BatchOk(w.batch) && w.batch.tag in s.usedTags
      && w.base <= s.manifest.generation
      && (s.manifest.generation == w.base ==> !s.foreign && w.batch.tag !in Tags(s.log))
      && (s.manifest.generation == w.base + 1 ==> (s.foreign <==> w.batch.tag !in Tags(s.log)))
      && (s.manifest.generation > w.base + 1 ==> s.foreign)
  }

  ghost predicate Inv(s: State) {
    Locks(s) && Files(s) && Construction(s) && Processes(s) && History(s) && LogFile(s)
  }

  // ---------------------------------------------------------------- framing

  /** Another process keeps its part of the invariant when the shared parts it relies on are kept. */
  lemma KeepsProcess(s: State, t: State, q: Process)
    requires ProcessOk(s, q)
    requires s.usedTags <= t.usedTags && s.publishedIds <= t.publishedIds
    requires HoldsWriter(q) ==> t.manifest == s.manifest && t.wal == s.wal && t.log == s.log
    requires q.Selected? || q.Merging? ==> s.manifest.segments <= t.manifest.segments
    ensures ProcessOk(t, q)
  {
  }

  /** All processes but p are untouched and keep their part. */
  lemma OthersKeep(s: State, t: State, p: Pid)
    requires Processes(s)
    requires forall x :: x != p ==> Proc(t, x) == Proc(s, x)
    requires s.usedTags <= t.usedTags && s.publishedIds <= t.publishedIds
    requires (t.manifest == s.manifest && t.wal == s.wal && t.log == s.log)
      || forall x :: x != p ==> !HoldsWriter(Proc(s, x))
    requires s.manifest.segments <= t.manifest.segments || forall x :: x != p ==> !HoldsCompaction(Proc(s, x))
    ensures forall x :: x != p ==> ProcessOk(t, Proc(t, x))
  {
    forall x | x != p ensures ProcessOk(t, Proc(t, x)) {
      KeepsProcess(s, t, Proc(s, x));
    }
  }

  lemma IdleIsOk(s: State)
    ensures ProcessOk(s, Idle)
  {
  }

  /** A step that changes neither files nor history keeps what they say. */
  lemma FramesKeep(s: State, t: State, p: Pid)
    requires Files(s) && Construction(s) && History(s) && LogFile(s)
    requires t.manifest == s.manifest && t.disk == s.disk && t.wal == s.wal && t.log == s.log && t.acknowledged == s.acknowledged
    requires t.usedIds == s.usedIds && t.usedTags == s.usedTags && t.publishedIds == s.publishedIds && t.foreign == s.foreign
    requires (forall x :: x != p ==> Proc(t, x) == Proc(s, x)) && (Built(Proc(t, p)) == [] || Built(Proc(t, p)) == Built(Proc(s, p)))
    ensures Files(t) && Construction(t) && History(t) && LogFile(t)
  {
  }

  lemma FilesKeep(s: State, t: State, p: Pid)
    requires Files(s) && Construction(s)
    requires t.manifest == s.manifest && t.disk == s.disk && t.usedIds == s.usedIds && t.publishedIds == s.publishedIds
    requires (forall x :: x != p ==> Proc(t, x) == Proc(s, x)) && (Built(Proc(t, p)) == [] || Built(Proc(t, p)) == Built(Proc(s, p)))
    ensures Files(t) && Construction(t)
  {
  }

  // ---------------------------------------------------------------- updates

  lemma {:induction false} BeginUpdateKeeps(s: State, p: Pid, batch: Batch, mode: Mode)
    requires Inv(s) && Enabled(s, p, BeginUpdate(batch, mode))
    ensures Inv(Next(s, p, BeginUpdate(batch, mode)))
  {
    var t := Next(s, p, BeginUpdate(batch, mode));
    OthersKeep(s, t, p);
    assert ProcessOk(t, Proc(t, p));
  }

  lemma {:induction false} BeginReplayKeeps(s: State, p: Pid)
    requires Inv(s) && Enabled(s, p, BeginReplay)
    ensures Inv(Next(s, p, BeginReplay))
  {
    var t := Next(s, p, BeginReplay);
    OthersKeep(s, t, p);
    assert ProcessOk(t, Proc(t, p));
  }

  lemma {:induction false} ClearStaleKeeps(s: State, p: Pid)
    requires Inv(s) && Enabled(s, p, ClearStale)
    ensures Inv(Next(s, p, ClearStale))
  {
    var t := Next(s, p, ClearStale);
    OthersKeep(s, t, p);
    assert ProcessOk(t, Proc(t, p));
  }

  lemma {:induction false} LogFailsKeeps(s: State, p: Pid, renamed: bool)
    requires Inv(s) && Enabled(s, p, LogFails(renamed))
    ensures Inv(Next(s, p, LogFails(renamed)))
  {
    hide Files, Construction, View, CollectedFrom, WorkShape;
    var t := Next(s, p, LogFails(renamed));
    FilesKeep(s, t, p);
    assert ProcessOk(s, Proc(s, p));
    OthersKeep(s, t, p);
    IdleIsOk(t);
  }

  /** A process that starts to write has built nothing yet. */
  lemma StartedProcess(s: State, t: State, p: Pid, plan: seq<Slice>)
    requires Processes(s) && Enabled(s, p, WriteLog(plan)) && t == Next(s, p, WriteLog(plan))
    ensures ProcessOk(t, Proc(t, p)) && Built(Proc(t, p)) == []
  {
    assert ProcessOk(s, Proc(s, p));
    assert Contents([]) == [];
  }

  lemma {:induction false} WriteLogKeeps(s: State, p: Pid, plan: seq<Slice>)
    requires Inv(s) && Enabled(s, p, WriteLog(plan))
    ensures Inv(Next(s, p, WriteLog(plan)))
  {
    hide Files, Construction, View, CollectedFrom;
    var t := Next(s, p, WriteLog(plan));
    assert ProcessOk(s, Proc(s, p));
    StartedProcess(s, t, p, plan);
    FilesKeep(s, t, p);
    hide WorkShape, OrderedPartition;
    OthersKeep(s, t, p);
  }

  lemma {:induction false} SkipLogKeeps(s: State, p: Pid, plan: seq<Slice>)
    requires Inv(s) && Enabled(s, p, SkipLog(plan))
    ensures Inv(Next(s, p, SkipLog(plan)))
  {
    hide Files, Construction, History, LogFile, View, CollectedFrom;
    var t := Next(s, p, SkipLog(plan));
    FramesKeep(s, t, p);
    OthersKeep(s, t, p);
    assert ProcessOk(s, Proc(s, p));
    assert Contents([]) == [];
    assert ProcessOk(t, Proc(t, p));
  }

  /** One more directory: fresh name, content of the next slice. */
  lemma WorkGrows(w: Work, id: SegId)
    requires WorkShape(w) && |w.built| < |w.plan| && id !in Ids(w.built)
    ensures WorkShape(w.(built := w.built + [Descriptor(id, NextContent(w))]))
  {
    var d := Descriptor(id, NextContent(w));
    assert Contents(w.built + [d]) == Contents(w.built) + [d.content];
  }

  /** A directory with a fresh name joins the ones its process is building. */
  lemma ConstructionGrows(s: State, t: State, p: Pid, d: Descriptor)
    requires Files(s) && Construction(s) && d.id !in s.usedIds
    requires t.disk == s.disk[d.id := d.content] && t.publishedIds == s.publishedIds
    requires (forall x :: x != p ==> Proc(t, x) == Proc(s, x)) && Built(Proc(t, p)) == Built(Proc(s, p)) + [d]
    ensures Construction(t)
  {
    var built := Built(Proc(s, p));
    assert Ids(built + [d]) == Ids(built) + {d.id} by {
      assert (built + [d])[|built|] == d;
      assert forall k :: 0 <= k < |built| ==> (built + [d])[k] == built[k];
    }
    forall x: Pid
      ensures OnDisk(t.disk, Built(Proc(t, x))) && Ids(Built(Proc(t, x))) !! t.publishedIds
      ensures d.id !in Ids(Built(Proc(s, x)))
    {
      assert OnDisk(s.disk, Built(Proc(s, x)));
    }
  }

  lemma {:induction false} WriteSegmentKeeps(s: State, p: Pid, id: SegId)
    requires Inv(s) && Enabled(s, p, WriteSegment(id))
    ensures Inv(Next(s, p, WriteSegment(id)))
  {
    ConstructionGrows(s, Next(s, p, WriteSegment(id)), p, Descriptor(id, NextContent(Proc(s, p).work)));
    WriteSegmentProcesses(s, p, id);
    WriteSegmentShares(s, p, id);
  }

  lemma WriteSegmentShares(s: State, p: Pid, id: SegId)
    requires Inv(s) && Enabled(s, p, WriteSegment(id))
    ensures var t := Next(s, p, WriteSegment(id)); Locks(t) && Files(t) && History(t) && LogFile(t)
  {
    assert s.manifest == Next(s, p, WriteSegment(id)).manifest;
    assert id !in Ids(s.manifest.segments);
  }

  lemma WriteSegmentProcesses(s: State, p: Pid, id: SegId)
    requires Inv(s) && Enabled(s, p, WriteSegment(id))
    ensures Processes(Next(s, p, WriteSegment(id)))
  {
    var t := Next(s, p, WriteSegment(id));
    var q := Proc(s, p);
    assert OnDisk(s.disk, Built(q));
    assert ProcessOk(s, q);
    WorkGrows(q.work, id);
    assert ProcessOk(t, Proc(t, p));
    OthersKeep(s, t, p);
  }

  lemma HistoryKept(s: State, t: State)
    requires History(s) && LogFile(s)
    requires t.manifest == s.manifest && t.wal == s.wal && t.log == s.log && t.acknowledged == s.acknowledged
    requires t.usedTags == s.usedTags && t.foreign == s.foreign
    ensures History(t) && LogFile(t)
  {
  }

  lemma RestartedProcess(s: State, p: Pid, plan: seq<Slice>)
    requires Processes(s) && Enabled(s, p, Restart(plan))
    ensures var t := Next(s, p, Restart(plan)); ProcessOk(t, Proc(t, p)) && Built(Proc(t, p)) == []
  {
    hide CollectedFrom;
    assert ProcessOk(s, Proc(s, p));
    assert Contents([]) == [];
  }

  lemma {:induction false} RestartKeeps(s: State, p: Pid, plan: seq<Slice>)
    requires Inv(s) && Enabled(s, p, Restart(plan))
    ensures Inv(Next(s, p, Restart(plan)))
  {
    hide History, LogFile, Files, Construction, View, CollectedFrom;
    var t := Next(s, p, Restart(plan));
    RestartedProcess(s, p, plan);
    OthersKeep(s, t, p);
    RemovalKeeps(s, t, p, Ids(Built(Proc(s, p))));
    HistoryKept(s, t);
  }

  /** A process may remove its own unpublished directories without touching anything it shares. */
  lemma RemovalKeeps(s: State, t: State, p: Pid, removed: set<SegId>)
    requires Files(s) && Construction(s)
    requires removed <= Ids(Built(Proc(s, p))) && t.disk == s.disk - removed
    requires t.manifest == s.manifest && t.publishedIds == s.publishedIds && t.usedIds == s.usedIds
    requires (forall x :: x != p ==> Proc(t, x) == Proc(s, x)) && Built(Proc(t, p)) == []
    ensures Files(t) && Construction(t)
  {
    forall x: Pid ensures OnDisk(t.disk, Built(Proc(t, x))) && Ids(Built(Proc(t, x))) !! t.publishedIds {
      if x != p {
        assert OnDisk(s.disk, Built(Proc(s, x))) && Ids(Built(Proc(s, x))) !! Ids(Built(Proc(s, p)));
      }
    }
  }

  lemma {:induction false} FailKeeps(s: State, p: Pid, removed: set<SegId>, walCleared: bool)
    requires Inv(s) && Enabled(s, p, Fail(removed, walCleared))
    ensures Inv(Next(s, p, Fail(removed, walCleared)))
  {
    var t := Next(s, p, Fail(removed, walCleared));
    OthersKeep(s, t, p);
    RemovalKeeps(s, t, p, removed);
  }

  lemma {:induction false} CrashKeeps(s: State, p: Pid)
    requires Inv(s) && Enabled(s, p, Crash)
    ensures Inv(Next(s, p, Crash))
  {
    hide Files, Construction, History, LogFile, ProcessOk;
    var t := Next(s, p, Crash);
    FramesKeep(s, t, p);
    OthersKeep(s, t, p);
    IdleIsOk(t);
  }

  /** Appending the segments of a batch to a manifest applies the batch to the view. */
  lemma AppendApplies(base: seq<Descriptor>, w: Work)
    requires WorkShape(w) && |w.built| == |w.plan|
    ensures View(Contents(base + w.built)) == ApplyUnits(View(Contents(base)), w.units)
  {
    hide Merged, LiveOnly, ApplyUnits, UnitEntries, OrderedPartition, DistinctIds, AllWellFormed, DistinctDescriptors;
    assert Contents(base + w.built) == Contents(base) + Contents(w.built);
    MergedConcat(Contents(base), Contents(w.built));
    WrittenEntries(w.units, w.plan);
    ApplyUnitsOverride(Merged(Contents(base)), w.units);
  }

  lemma TagsAppend(log: seq<Batch>, b: Batch)
    ensures Tags(log + [b]) == Tags(log) + {b.tag}
  {
    assert (log + [b])[|log|] == b;
    forall k | 0 <= k < |log| ensures (log + [b])[k] == log[k] {}
  }

  lemma PublishHistory(s: State, p: Pid)
    requires Inv(s) && Enabled(s, p, Publish)
    ensures History(Next(s, p, Publish))
  {
    var q := Proc(s, p);
    var t := Next(s, p, Publish);
    assert ProcessOk(s, q);
    AppendApplies(q.base.segments, q.work);
    assert t.log[..|t.log| - 1] == s.log;
    TagsAppend(s.log, q.batch);
    forall j, k | 0 <= j < k < |t.log| ensures t.log[j].tag != t.log[k].tag {
      assert s.log[j].tag in Tags(s.log);
    }
  }

  lemma PublishFiles(s: State, t: State, p: Pid, q: Process)
    requires Inv(s) && Built(Proc(s, p)) == Built(q) && (q.Writing? || q.Relocked?) && DistinctDescriptors(Built(q))
    requires (forall x :: x != p ==> Proc(t, x) == Proc(s, x)) && Built(Proc(t, p)) == []
    requires t.disk == s.disk && t.usedIds == s.usedIds && t.publishedIds == s.publishedIds + Ids(Built(q))
    requires DistinctDescriptors(t.manifest.segments)
    requires forall d :: d in t.manifest.segments ==> d in s.manifest.segments || d in Built(q)
    ensures Files(t) && Construction(t)
  {
    assert OnDisk(s.disk, Built(Proc(s, p)));
    forall k | 0 <= k < |t.manifest.segments|
      ensures t.manifest.segments[k].id in t.disk && t.disk[t.manifest.segments[k].id] == t.manifest.segments[k].content
      ensures t.manifest.segments[k].id in t.publishedIds
    {
      var d := t.manifest.segments[k];
      if d in s.manifest.segments {
        var j :| 0 <= j < |s.manifest.segments| && s.manifest.segments[j] == d;
        assert d.id in Ids(s.manifest.segments);
      } else {
        assert d in Built(q);
        var j :| 0 <= j < |Built(q)| && Built(q)[j] == d;
      }
    }
    forall x: Pid ensures OnDisk(t.disk, Built(Proc(t, x))) && Ids(Built(Proc(t, x))) !! t.publishedIds {
      if x != p {
        assert Ids(Built(Proc(s, x))) !! Ids(Built(Proc(s, p)));
      }
    }
  }

  lemma DistinctAppend(ds: seq<Descriptor>, more: seq<Descriptor>)
    requires DistinctDescriptors(ds) && DistinctDescriptors(more) && Ids(ds) !! Ids(more)
    ensures DistinctDescriptors(ds + more)
  {
    forall j, k | 0 <= j < k < |ds + more| ensures (ds + more)[j].id != (ds + more)[k].id {
      if j < |ds| <= k {
        assert ds[j].id in Ids(ds) && more[k - |ds|].id in Ids(more);
      }
    }
  }

  lemma {:induction false} PublishKeeps(s: State, p: Pid)
    requires Inv(s) && Enabled(s, p, Publish)
    ensures Inv(Next(s, p, Publish))
  {
    PublishHistory(s, p);
    PublishAppendsFiles(s, p);
    PublishProcesses(s, p);
    PublishLogFile(s, p);
  }

  lemma PublishProcesses(s: State, p: Pid)
    requires Inv(s) && Enabled(s, p, Publish)
    ensures Processes(Next(s, p, Publish))
  {
    var q := Proc(s, p);
    var t := Next(s, p, Publish);
    assert ProcessOk(s, q);
    TagsAppend(s.log, q.batch);
    assert ProcessOk(t, Proc(t, p));
    OthersKeep(s, t, p);
  }

  lemma PublishLogFile(s: State, p: Pid)
    requires Inv(s) && Enabled(s, p, Publish)
    ensures LogFile(Next(s, p, Publish)) && Locks(Next(s, p, Publish))
  {
    var q := Proc(s, p);
    assert ProcessOk(s, q);
    TagsAppend(s.log, q.batch);
  }

  lemma PublishAppendsFiles(s: State, p: Pid)
    requires Inv(s) && Enabled(s, p, Publish)
    ensures Files(Next(s, p, Publish)) && Construction(Next(s, p, Publish))
  {
    var q := Proc(s, p);
    assert ProcessOk(s, q);
    assert Ids(Built(Proc(s, p))) !! s.publishedIds;
    DistinctAppend(q.base.segments, q.work.built);
    PublishFiles(s, Next(s, p, Publish), p, q);
  }

  lemma {:induction false} AcknowledgeKeeps(s: State, p: Pid)
    requires Inv(s) && Enabled(s, p, Acknowledge)
    ensures Inv(Next(s, p, Acknowledge))
  {
    hide Files, Construction, View, CollectedFrom, WorkShape;
    var t := Next(s, p, Acknowledge);
    assert ProcessOk(s, Proc(s, p));
    FilesKeep(s, t, p);
    OthersKeep(s, t, p);
    IdleIsOk(t);
  }

  lemma {:induction false} ClearFailsKeeps(s: State, p: Pid)
    requires Inv(s) && Enabled(s, p, ClearFails)
    ensures Inv(Next(s, p, ClearFails))
  {
    var t := Next(s, p, ClearFails);
    OthersKeep(s, t, p);
  }

  // ---------------------------------------------------------------- compaction

  lemma {:induction false} BeginCompactionKeeps(s: State, p: Pid)
    requires Inv(s) && Enabled(s, p, BeginCompaction)
    ensures Inv(Next(s, p, BeginCompaction))
  {
    var t := Next(s, p, BeginCompaction);
    assert ProcessOk(s, Proc(s, p));
    OthersKeep(s, t, p);
    assert ProcessOk(t, Proc(t, p));
  }

  lemma {:induction false} LockForSelectKeeps(s: State, p: Pid)
    requires Inv(s) && Enabled(s, p, LockForSelect)
    ensures Inv(Next(s, p, LockForSelect))
  {
    var t := Next(s, p, LockForSelect);
    assert ProcessOk(s, Proc(s, p));
    OthersKeep(s, t, p);
    assert ProcessOk(t, Proc(t, p));
  }

  lemma {:induction false} SelectKeeps(s: State, p: Pid, first: nat, count: nat)
    requires Inv(s) && Enabled(s, p, Select(first, count))
    ensures Inv(Next(s, p, Select(first, count)))
  {
    var t := Next(s, p, Select(first, count));
    assert ProcessOk(s, Proc(s, p));
    OthersKeep(s, t, p);
    assert ProcessOk(t, Proc(t, p));
  }

  lemma {:induction false} RelockKeeps(s: State, p: Pid)
    requires Inv(s) && Enabled(s, p, Relock)
    ensures Inv(Next(s, p, Relock))
  {
    hide Files, Construction, History, LogFile, View, CollectedFrom, WorkShape;
    var t := Next(s, p, Relock);
    assert ProcessOk(s, Proc(s, p));
    FramesKeep(s, t, p);
    OthersKeep(s, t, p);
    assert ProcessOk(t, Proc(t, p));
  }

  /** While the collector holds both locks nobody else is building anything. */
  lemma CollectorIsAlone(s: State, p: Pid, x: Pid)
    requires Locks(s) && Proc(s, p).Cleaning?
    ensures Built(Proc(s, x)) == []
  {
    assert HoldsWriter(Proc(s, p)) && HoldsCompaction(Proc(s, p));
  }

  lemma {:induction false} CollectKeeps(s: State, p: Pid, id: SegId)
    requires Inv(s) && Enabled(s, p, Collect(id))
    ensures Inv(Next(s, p, Collect(id)))
  {
    var t := Next(s, p, Collect(id));
    assert ProcessOk(s, Proc(s, p));
    forall x: Pid ensures Built(Proc(s, x)) == [] { CollectorIsAlone(s, p, x); }
    OthersKeep(s, t, p);
    assert ProcessOk(t, Proc(t, p));
  }

  /** A range of a manifest prefix is on disk, so loading it gives the descriptors' contents. */
  lemma LoadedRange(s: State, base: Manifest, first: nat, count: nat)
    requires Files(s) && first + count <= |base.segments| && base.segments <= s.manifest.segments
    ensures OnDisk(s.disk, RangeOf(base, first, count))
    ensures Loaded(s.disk, RangeOf(base, first, count)) == Contents(RangeOf(base, first, count))
  {
    var range := RangeOf(base, first, count);
    forall k | 0 <= k < |range| ensures range[k].id in s.disk && s.disk[range[k].id] == range[k].content {
      assert range[k] == s.manifest.segments[first + k];
    }
  }

  lemma MergedProcess(s: State, p: Pid, units: seq<Unit>, plan: seq<Slice>)
    requires Inv(s) && Enabled(s, p, Merge(units, plan))
    ensures var t := Next(s, p, Merge(units, plan)); ProcessOk(t, Proc(t, p)) && Built(Proc(t, p)) == []
  {
    hide Construction, History, LogFile, Locks, View;
    var q := Proc(s, p);
    assert ProcessOk(s, q);
    LoadedRange(s, q.base, q.first, q.count);
    hide Files, OnDisk, CollectedFrom;
    assert Contents([]) == [];
  }

  lemma {:induction false} MergeKeeps(s: State, p: Pid, units: seq<Unit>, plan: seq<Slice>)
    requires Inv(s) && Enabled(s, p, Merge(units, plan))
    ensures Inv(Next(s, p, Merge(units, plan)))
  {
    hide Files, Construction, History, LogFile, OnDisk, View, Pending, LogNames, LogAvoids;
    var t := Next(s, p, Merge(units, plan));
    MergedProcess(s, p, units, plan);
    FramesKeep(s, t, p);
    OthersKeep(s, t, p);
  }

  lemma ContentsSplice(ds: seq<Descriptor>, first: nat, count: nat, output: seq<Descriptor>)
    requires first + count <= |ds|
    ensures Contents(Splice(ds, first, count, output)) == Splice(Contents(ds), first, count, Contents(output))
  {
  }

  /** Splicing compacted output into a grown manifest leaves the view alone. */
  lemma SpliceContents(base: seq<Descriptor>, current: seq<Descriptor>, first: nat, count: nat, w: Work)
    requires first + count <= |base| && base <= current
    requires WorkShape(w) && |w.built| == |w.plan|
    requires CollectedFrom(Contents(base[first..first + count]), first == 0 && count == |base|, w.units)
    ensures View(Contents(Splice(current, first, count, w.built))) == View(Contents(current))
  {
    ContentsSplice(current, first, count, w.built);
    WrittenEntries(w.units, w.plan);
    assert Contents(base)[first..first + count] == Contents(base[first..first + count]);
    SplicePreservesView(Contents(base), Contents(current), first, count, Contents(w.built));
  }

  lemma SpliceHistory(s: State, p: Pid)
    requires Inv(s) && Enabled(s, p, PublishSplice)
    ensures History(Next(s, p, PublishSplice))
  {
    hide View, CollectedFrom, WorkShape, Splice, Replayed;
    var q := Proc(s, p);
    assert ProcessOk(s, q);
    SpliceContents(q.base.segments, q.current.segments, q.first, q.count, q.work);
  }

  lemma SpliceAt(ds: seq<Descriptor>, first: nat, count: nat, output: seq<Descriptor>, k: nat)
    requires first + count <= |ds| && k < |Splice(ds, first, count, output)|
    ensures Splice(ds, first, count, output)[k] ==
            if k < first then ds[k] else if k < first + |output| then output[k - first] else ds[k - |output| + count]
  {
  }

  /** A splice of fresh names keeps names distinct and drops exactly the names of the range. */
  lemma DistinctSplice(ds: seq<Descriptor>, first: nat, count: nat, output: seq<Descriptor>)
    requires first + count <= |ds| && DistinctDescriptors(ds) && DistinctDescriptors(output) && Ids(ds) !! Ids(output)
    ensures var after := Splice(ds, first, count, output);
            && DistinctDescriptors(after)
            && (forall d :: d in after ==> d in ds || d in output)
            && (forall k :: first <= k < first + count ==> ds[k].id !in Ids(after))
  {
    var after := Splice(ds, first, count, output);
    assert forall k :: 0 <= k < |output| ==> output[k].id in Ids(output);
    assert forall k :: 0 <= k < |ds| ==> ds[k].id in Ids(ds);
    forall j, k | 0 <= j < k < |after| ensures after[j].id != after[k].id {
      SpliceAt(ds, first, count, output, j);
      SpliceAt(ds, first, count, output, k);
    }
    forall k | first <= k < first + count ensures ds[k].id !in Ids(after) {
      forall j | 0 <= j < |after| ensures after[j].id != ds[k].id {
        SpliceAt(ds, first, count, output, j);
      }
    }
  }

  lemma SpliceNames(s: State, p: Pid)
    requires Inv(s) && Enabled(s, p, PublishSplice)
    ensures var q, after := Proc(s, p), Next(s, p, PublishSplice).manifest.segments;
            && DistinctDescriptors(after)
            && (forall d :: d in after ==> d in s.manifest.segments || d in q.work.built)
            && (forall k :: q.first <= k < q.first + q.count ==> s.manifest.segments[k].id !in Ids(after))
  {
    var q := Proc(s, p);
    assert ProcessOk(s, q);
    assert Ids(Built(Proc(s, p))) !! s.publishedIds;
    hide Splice, CollectedFrom, History, LogFile;
    DistinctSplice(s.manifest.segments, q.first, q.count, q.work.built);
  }

  lemma SpliceDescriptors(s: State, p: Pid)
    requires Inv(s) && Enabled(s, p, PublishSplice)
    ensures var t := Next(s, p, PublishSplice);
            && DistinctDescriptors(t.manifest.segments)
            && (forall d :: d in t.manifest.segments ==> d in s.manifest.segments || d in Proc(s, p).work.built)
            && ProcessOk(t, Proc(t, p))
  {
    hide Splice, CollectedFrom, History, LogFile, DistinctDescriptors, Construction, Locks, WorkShape;
    var q := Proc(s, p);
    var t := Next(s, p, PublishSplice);
    assert ProcessOk(s, q);
    SpliceNames(s, p);
    var doomed := Proc(t, p).doomed;
    forall k | 0 <= k < |doomed| ensures doomed[k] in t.publishedIds && doomed[k] !in Ids(t.manifest.segments) {
      assert doomed[k] == s.manifest.segments[q.first + k].id;
      assert doomed[k] in Ids(s.manifest.segments);
    }
  }

  lemma SpliceFiles(s: State, p: Pid)
    requires Inv(s) && Enabled(s, p, PublishSplice)
    ensures Files(Next(s, p, PublishSplice)) && Construction(Next(s, p, PublishSplice))
  {
    assert ProcessOk(s, Proc(s, p));
    SpliceDescriptors(s, p);
    hide Splice, LogFile, History, Files, Construction, CollectedFrom;
    PublishFiles(s, Next(s, p, PublishSplice), p, Proc(s, p));
  }

  lemma SpliceProcesses(s: State, p: Pid)
    requires Inv(s) && Enabled(s, p, PublishSplice)
    ensures Locks(Next(s, p, PublishSplice)) && Processes(Next(s, p, PublishSplice))
  {
    hide Splice, LogFile, History, Files, Construction, CollectedFrom, WorkShape;
    var t := Next(s, p, PublishSplice);
    assert ProcessOk(s, Proc(s, p));
    SpliceDescriptors(s, p);
    OthersKeep(s, t, p);
  }

  lemma {:induction false} PublishSpliceKeeps(s: State, p: Pid)
    requires Inv(s) && Enabled(s, p, PublishSplice)
    ensures Inv(Next(s, p, PublishSplice))
  {
    hide Locks, Files, Construction, Processes, History, LogFile, Enabled, Next;
    SpliceHistory(s, p);
    SpliceFiles(s, p);
    SpliceProcesses(s, p);
    SpliceLogFile(s, p);
  }

  lemma SpliceLogFile(s: State, p: Pid)
    requires Inv(s) && Enabled(s, p, PublishSplice)
    ensures LogFile(Next(s, p, PublishSplice))
  {
    hide Splice, Files, Construction, History, Tags;
    assert ProcessOk(s, Proc(s, p));
  }

  lemma {:induction false} SweepOneKeeps(s: State, p: Pid)
    requires Inv(s) && Enabled(s, p, SweepOne)
    ensures Inv(Next(s, p, SweepOne))
  {
    var t := Next(s, p, SweepOne);
    assert ProcessOk(s, Proc(s, p));
    OthersKeep(s, t, p);
    assert ProcessOk(t, Proc(t, p));
    forall x: Pid ensures OnDisk(t.disk, Built(Proc(t, x))) {
      assert OnDisk(s.disk, Built(Proc(s, x))) && Ids(Built(Proc(s, x))) !! s.publishedIds;
    }
  }

  lemma {:induction false} FinishKeeps(s: State, p: Pid)
    requires Inv(s) && Enabled(s, p, Finish)
    ensures Inv(Next(s, p, Finish))
  {
    var t := Next(s, p, Finish);
    OthersKeep(s, t, p);
  }

  // ---------------------------------------------------------------- all runs

  lemma StepKeeps(s: State, p: Pid, a: Action)
    requires Inv(s) && Enabled(s, p, a)
    ensures Inv(Next(s, p, a))
  {
    hide Inv, Enabled, Next;
    match a
    case BeginUpdate(batch, mode) => BeginUpdateKeeps(s, p, batch, mode);
    case BeginReplay => BeginReplayKeeps(s, p);
    case ClearStale => ClearStaleKeeps(s, p);
    case WriteLog(plan) => WriteLogKeeps(s, p, plan);
    case LogFails(renamed) => LogFailsKeeps(s, p, renamed);
    case SkipLog(plan) => SkipLogKeeps(s, p, plan);
    case WriteSegment(id) => WriteSegmentKeeps(s, p, id);
    case Restart(plan) => RestartKeeps(s, p, plan);
    case Publish => PublishKeeps(s, p);
    case Acknowledge => AcknowledgeKeeps(s, p);
    case ClearFails => ClearFailsKeeps(s, p);
    case Fail(removed, walCleared) => FailKeeps(s, p, removed, walCleared);
    case Crash => CrashKeeps(s, p);
    case _ => CompactionStepKeeps(s, p, a);
  }

  predicate CompactionAction(a: Action) {
    || a.BeginCompaction? || a.LockForSelect? || a.Collect? || a.Select? || a.Merge?
    || a.Relock? || a.PublishSplice? || a.SweepOne? || a.Finish?
  }

  lemma CompactionStepKeeps(s: State, p: Pid, a: Action)
    requires Inv(s) && Enabled(s, p, a) && CompactionAction(a)
    ensures Inv(Next(s, p, a))
  {
    match a
    case BeginCompaction => BeginCompactionKeeps(s, p);
    case LockForSelect => LockForSelectKeeps(s, p);
    case Collect(id) => CollectKeeps(s, p, id);
    case Select(first, count) => SelectKeeps(s, p, first, count);
    case Merge(units, plan) => MergeKeeps(s, p, units, plan);
    case Relock => RelockKeeps(s, p);
    case PublishSplice => PublishSpliceKeeps(s, p);
    case SweepOne => SweepOneKeeps(s, p);
    case Finish => FinishKeeps(s, p);
  }

  lemma InitialOk()
    ensures Inv(Initial())
  {
    assert Contents([]) == [];
  }

  lemma {:induction false} RunKeeps(states: seq<State>, moves: seq<Move>, n: nat)
    requires Run(states, moves) && Inv(states[0]) && n < |states|
    ensures Inv(states[n])
  {
    if n > 0 {
      RunKeeps(states, moves, n - 1);
      var m := moves[n - 1];
      StepKeeps(states[n - 1], m.p, m.action);
    }
  }
}
