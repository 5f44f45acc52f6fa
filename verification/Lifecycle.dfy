/**
 The index lifecycle as a state machine: updates with a write-ahead log, recovery, compaction with
 its unlocked merge phase, garbage collection, crashes and failures, interleaved freely.

 Assumptions about the parts below this level: the two file locks are exclusive and vanish with
 their holder, compare-and-publish of the manifest is atomic, and directory names are never reused.
 */
module Lifecycle {
  import opened Common
  import opened Catalog
  import opened Slices
  import opened Compaction

  type Pid = nat
  type SegId = nat

  /** A manifest entry; the checksums it carries pin the content of the directory. */
  datatype Descriptor = Descriptor(id: SegId, content: Segment)

  datatype Manifest = Manifest(generation: nat, segments: seq<Descriptor>)

  /** One update request; the tag tells requests apart. */
  datatype Batch = Batch(tag: nat, units: seq<Unit>)

  datatype Wal = Wal(base: nat, batch: Batch)

  /** Logged: an update request.  Bulk: initial build, no log.  Replay: recovery of a logged batch. */
  datatype Mode = Logged | Bulk | Replay

  /** Units being written out as segments: the chosen partition and the directories made so far. */
  datatype Work = Work(units: seq<Unit>, plan: seq<Slice>, built: seq<Descriptor>)

  datatype Process =
    | Idle
      // update side, all under the writer lock
    | Planned(batch: Batch, mode: Mode, base: Manifest)
    | Writing(batch: Batch, mode: Mode, base: Manifest, work: Work)
    | Published(batch: Batch, mode: Mode)
      // compaction side, all under the compaction lock
    | Waiting
    | Cleaning(base: Manifest)
    | Selected(base: Manifest, first: nat, count: nat)
    | Merging(base: Manifest, first: nat, count: nat, work: Work)
    | Relocked(base: Manifest, first: nat, count: nat, work: Work, current: Manifest)
    | Sweeping(doomed: seq<SegId>)

  /**
   Shared state.  The last five fields only record history: batches in publish order, tags whose
   update returned OK, directory names and tags ever used, names ever published, and whether some
   other publish happened since the present log was written.
   */
  datatype State = State(
    manifest: Manifest,
    disk: map<SegId, Segment>,
    wal: Option<Wal>,
    writer: Option<Pid>,
    compaction: Option<Pid>,
    processes: map<Pid, Process>,
    log: seq<Batch>,
    acknowledged: set<nat>,
    usedIds: set<SegId>,
    usedTags: set<nat>,
    publishedIds: set<SegId>,
    foreign: bool)

  datatype Action =
    | BeginUpdate(batch: Batch, mode: Mode)
    | BeginReplay
    | ClearStale
    | WriteLog(plan: seq<Slice>)
    | LogFails(renamed: bool)
    | SkipLog(plan: seq<Slice>)
    | WriteSegment(id: SegId)
    | Restart(plan: seq<Slice>)
    | Publish
    | Acknowledge
    | ClearFails
    | Fail(removed: set<SegId>, walCleared: bool)
    | Crash
    | BeginCompaction
    | LockForSelect
    | Collect(id: SegId)
    | Select(first: nat, count: nat)
    | Merge(units: seq<Unit>, plan: seq<Slice>)
    | Relock
    | PublishSplice
    | SweepOne
    | Finish

  function Proc(s: State, p: Pid): Process {
    if p in s.processes then s.processes[p] else Idle
  }

  function With(s: State, p: Pid, q: Process): State {
    s.(processes := s.processes[p := q])
  }

  function Contents(ds: seq<Descriptor>): (r: seq<Segment>)
    ensures |r| == |ds| && forall k :: 0 <= k < |ds| ==> r[k] == ds[k].content
  {
    seq(|ds|, k requires 0 <= k < |ds| => ds[k].content)
  }

  function Ids(ds: seq<Descriptor>): set<SegId> {
    set k | 0 <= k < |ds| :: ds[k].id
  }

  predicate HoldsWriter(q: Process) {
    q.Planned? || q.Writing? || q.Published? || q.Cleaning? || q.Relocked? || q.Sweeping?
  }

  predicate HoldsCompaction(q: Process) {
    q.Waiting? || q.Cleaning? || q.Selected? || q.Merging? || q.Relocked? || q.Sweeping?
  }

  /** Directories a process is still building; not yet named by any manifest. */
  function Built(q: Process): seq<Descriptor> {
    if q.Writing? || q.Merging? || q.Relocked? then q.work.built else []
  }

  function WithWork(q: Process, work: Work): Process
    requires q.Writing? || q.Merging?
  {
    match q
    case Writing(batch, mode, base, _) => Writing(batch, mode, base, work)
    case Merging(base, first, count, _) => Merging(base, first, count, work)
  }

  predicate BatchOk(b: Batch) {
    DistinctIds(b.units) && AllWellFormed(b.units)
  }

  predicate RangeUnchanged(base: Manifest, current: Manifest, first: nat, count: nat) {
    && first + count <= |base.segments| && first + count <= |current.segments|
    && base.segments[first..first + count] == current.segments[first..first + count]
  }

  function RangeOf(base: Manifest, first: nat, count: nat): seq<Descriptor>
    requires first + count <= |base.segments|
  {
    base.segments[first..first + count]
  }

  predicate DropsTombstones(base: Manifest, first: nat, count: nat) {
    first == 0 && count == |base.segments|
  }

  /** What collecting a range loaded from disk guarantees about its units. */
  ghost predicate CollectedFrom(loaded: seq<Segment>, drop: bool, units: seq<Unit>) {
    && DistinctIds(units) && AllWellFormed(units)
    && UnitEntries(units) == Kept(Merged(loaded), drop)
  }

  /** The range as found on disk under the names the base manifest gives. */
  ghost function Loaded(disk: map<SegId, Segment>, ds: seq<Descriptor>): seq<Segment>
    requires forall k :: 0 <= k < |ds| ==> ds[k].id in disk
  {
    seq(|ds|, k requires 0 <= k < |ds| => disk[ds[k].id])
  }

  ghost predicate Enabled(s: State, p: Pid, a: Action) {
    var q := Proc(s, p);
    match a
    case BeginUpdate(batch, mode) =>
      q.Idle? && s.writer.None? && mode != Replay && BatchOk(batch) && batch.tag !in s.usedTags
    case BeginReplay => q.Idle? && s.writer.None? && s.wal.Some? && s.manifest.generation == s.wal.value.base
    case ClearStale => q.Idle? && s.writer.None? && s.wal.Some? && s.manifest.generation == s.wal.value.base + 1
    case WriteLog(plan) => q.Planned? && q.mode == Logged && OrderedPartition(plan, |q.batch.units|)
    case LogFails(_) => q.Planned? && q.mode == Logged
    case SkipLog(plan) => q.Planned? && q.mode != Logged && OrderedPartition(plan, |q.batch.units|)
    case WriteSegment(id) =>
      && (q.Writing? || q.Merging?) && |q.work.built| < |q.work.plan| && id !in s.usedIds
      && OrderedPartition(q.work.plan, |q.work.units|)
    case Restart(plan) => (q.Writing? || q.Merging?) && OrderedPartition(plan, |q.work.units|)
    case Publish => q.Writing? && |q.work.built| == |q.work.plan| && s.manifest.generation == q.base.generation
    case Acknowledge => q.Published?
    case ClearFails => q.Published? && q.mode != Bulk
    case Fail(removed, _) => !q.Idle? && !q.Published? && removed <= Ids(Built(q))
    case Crash => !q.Idle?
    case BeginCompaction => q.Idle? && s.compaction.None?
    case LockForSelect => q.Waiting? && s.writer.None? && s.wal.None?
    case Collect(id) => q.Cleaning? && id in s.disk && id !in Ids(q.base.segments)
    case Select(first, count) => q.Cleaning? && count > 0 && first + count <= |q.base.segments|
    case Merge(units, plan) =>
      && q.Selected? && q.first + q.count <= |q.base.segments| && OrderedPartition(plan, |units|)
      && (forall k :: 0 <= k < q.count ==> RangeOf(q.base, q.first, q.count)[k].id in s.disk)
      && CollectedFrom(Loaded(s.disk, RangeOf(q.base, q.first, q.count)), DropsTombstones(q.base, q.first, q.count), units)
    case Relock =>
      q.Merging? && |q.work.built| == |q.work.plan| && s.writer.None? && RangeUnchanged(q.base, s.manifest, q.first, q.count)
    case PublishSplice =>
      && q.Relocked? && s.manifest.generation == q.current.generation
      && q.first + q.count <= |q.base.segments| && q.first + q.count <= |q.current.segments|
    case SweepOne => q.Sweeping? && |q.doomed| > 0
    case Finish => q.Sweeping? && |q.doomed| == 0
  }

  /** Give up every lock of the process. */
  function Released(s: State, p: Pid): State {
    With(s, p, Idle).(
      writer := if s.writer == Some(p) then None else s.writer,
      compaction := if s.compaction == Some(p) then None else s.compaction)
  }

  /** The segment of the next slice of a plan. */
  ghost function NextContent(w: Work): Segment
    requires |w.built| < |w.plan| && OrderedPartition(w.plan, |w.units|)
  {
    PartitionBounds(w.plan, |w.units|, |w.built|);
    WriteSlice(SliceUnits(w.units, w.plan[|w.built|]))
  }

  ghost function DoWriteSegment(s: State, p: Pid, id: SegId): State
    requires Enabled(s, p, WriteSegment(id))
  {
    var q := Proc(s, p);
    var w := q.work;
    var content := NextContent(w);
    With(s, p, WithWork(q, w.(built := w.built + [Descriptor(id, content)]))).(
      disk := s.disk[id := content], usedIds := s.usedIds + {id})
  }

  function DoPublish(s: State, p: Pid): State
    requires Proc(s, p).Writing?
  {
    var q := Proc(s, p);
    With(s, p, Published(q.batch, q.mode)).(
      manifest := Manifest(q.base.generation + 1, q.base.segments + q.work.built),
      log := s.log + [q.batch],
      publishedIds := s.publishedIds + Ids(q.work.built),
      foreign := s.foreign || !(s.wal.Some? && s.wal.value.batch == q.batch))
  }

  function DoPublishSplice(s: State, p: Pid): State
    requires Proc(s, p).Relocked?
    requires Proc(s, p).first + Proc(s, p).count <= |Proc(s, p).base.segments|
    requires Proc(s, p).first + Proc(s, p).count <= |Proc(s, p).current.segments|
  {
    var q := Proc(s, p);
    var range := RangeOf(q.base, q.first, q.count);
    With(s, p, Sweeping(seq(|range|, k requires 0 <= k < |range| => range[k].id))).(
      manifest := Manifest(q.current.generation + 1, Splice(q.current.segments, q.first, q.count, q.work.built)),
      publishedIds := s.publishedIds + Ids(q.work.built),
      foreign := true)
  }

  ghost function Next(s: State, p: Pid, a: Action): State
    requires Enabled(s, p, a)
  {
    var q := Proc(s, p);
    match a
    case BeginUpdate(batch, mode) =>
      With(s, p, Planned(batch, mode, s.manifest)).(writer := Some(p), usedTags := s.usedTags + {batch.tag})
    case BeginReplay => With(s, p, Planned(s.wal.value.batch, Replay, s.manifest)).(writer := Some(p))
    case ClearStale => s.(wal := None)
    case WriteLog(plan) =>
      With(s, p, Writing(q.batch, q.mode, q.base, Work(q.batch.units, plan, []))).(
        wal := Some(Wal(q.base.generation, q.batch)), foreign := false)
    case LogFails(renamed) =>
      if renamed then Released(s, p).(wal := Some(Wal(q.base.generation, q.batch)), foreign := false) else Released(s, p)
    case SkipLog(plan) => With(s, p, Writing(q.batch, q.mode, q.base, Work(q.batch.units, plan, [])))
    case WriteSegment(id) => DoWriteSegment(s, p, id)
    case Restart(plan) => With(s, p, WithWork(q, q.work.(plan := plan, built := []))).(disk := s.disk - Ids(q.work.built))
    case Publish => DoPublish(s, p)
    case Acknowledge =>
      Released(s, p).(
        wal := if q.mode == Bulk then s.wal else None,
        acknowledged := if q.mode == Replay then s.acknowledged else s.acknowledged + {q.batch.tag})
    case ClearFails => Released(s, p)
    case Fail(removed, walCleared) =>
      Released(s, p).(
        disk := s.disk - removed,
        wal := if q.Writing? && q.mode == Logged && walCleared then None else s.wal)
    case Crash => Released(s, p)
    case BeginCompaction => With(s, p, Waiting).(compaction := Some(p))
    case LockForSelect => With(s, p, Cleaning(s.manifest)).(writer := Some(p))
    case Collect(id) => s.(disk := s.disk - {id})
    case Select(first, count) => With(s, p, Selected(q.base, first, count)).(writer := None)
    case Merge(units, plan) => With(s, p, Merging(q.base, q.first, q.count, Work(units, plan, [])))
    case Relock =>
      With(s, p, Relocked(q.base, q.first, q.count, q.work, s.manifest)).(writer := Some(p))
    case PublishSplice => DoPublishSplice(s, p)
    case SweepOne => With(s, p, Sweeping(q.doomed[1..])).(disk := s.disk - {q.doomed[0]})
    case Finish => Released(s, p)
  }

  /** An empty index of generation 1, as the build creates it. */
  function Initial(): State {
    State(Manifest(1, []), map[], None, None, None, map[], [], {}, {}, {}, {}, false)
  }

  datatype Move = Move(p: Pid, action: Action)

  ghost predicate Leads(s: State, m: Move, t: State) {
    Enabled(s, m.p, m.action) && t == Next(s, m.p, m.action)
  }

  /** A run: any finite interleaving of enabled moves, with the states it passes through. */
  ghost predicate Run(states: seq<State>, moves: seq<Move>) {
    && |states| == |moves| + 1
    && forall i {:trigger moves[i]} :: 0 <= i < |moves| ==> Leads(states[i], moves[i], states[i + 1])
  }

  // ---------------------------------------------------------------- meaning of the batch log

  /** Apply one operation to a view: an upsert sets the document, a delete removes it. */
  function ApplyUnit(v: Entries, u: Unit): Entries {
    match u
    case Tombstone(id) => v - {id}
    case DocumentUnit(d, ps) => v[d.id := Live(d, ps)]
  }

  function ApplyUnits(v: Entries, us: seq<Unit>): Entries {
    if |us| == 0 then v else ApplyUnit(ApplyUnits(v, us[..|us| - 1]), us[|us| - 1])
  }

  /** The view after whole batches in publish order, from an empty index. */
  function Replayed(log: seq<Batch>): Entries {
    if |log| == 0 then map[] else ApplyUnits(Replayed(log[..|log| - 1]), log[|log| - 1].units)
  }

  lemma ApplyUnitOverride(v: Entries, m: Entries, u: Unit)
    ensures ApplyUnit(LiveOnly(v + m), u) == LiveOnly(v + m[UnitId(u) := UnitEntry(u)])
  {
  }

  /** Applying operations one by one is overriding with the entries they define. */
  lemma {:induction false} ApplyUnitsOverride(v: Entries, us: seq<Unit>)
    ensures ApplyUnits(LiveOnly(v), us) == LiveOnly(v + UnitEntries(us))
  {
    if |us| == 0 {
      assert v + map[] == v;
    } else {
      ApplyUnitsOverride(v, us[..|us| - 1]);
      ApplyUnitOverride(v, UnitEntries(us[..|us| - 1]), us[|us| - 1]);
    }
  }

  function Tags(log: seq<Batch>): set<nat> {
    set k | 0 <= k < |log| :: log[k].tag
  }

  predicate NoRepeats(log: seq<Batch>) {
    forall j, k :: 0 <= j < k < |log| ==> log[j].tag != log[k].tag
  }
}
