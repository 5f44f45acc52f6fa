/**
 Runs from the empty index in which a synced update log is overtaken and discarded, is written over,
 or is in conflict with the manifest for good.
 */
module LogLoss {
  import opened Common
  import opened Catalog
  import opened Slices
  import opened Compaction
  import opened Lifecycle
  import opened LifecycleSafety
  import opened LifecycleTheorems
  import opened LogFate

  // ---------------------------------------------------------------- pieces of runs

  function OneSlice(n: nat): (plan: seq<Slice>)
    ensures OrderedPartition(plan, n)
  {
    [Slice(0, n)]
  }

  /** A process that is free to start and a request that is new. */
  predicate CanStart(t: State, x: Pid, b: Batch) {
    t.writer.None? && t.compaction != Some(x) && Proc(t, x).Idle? && BatchOk(b) && b.tag !in t.usedTags
  }

  function StartMoves(x: Pid, b: Batch, plan: seq<Slice>): seq<Move> {
    [Move(x, BeginUpdate(b, Logged)), Move(x, WriteLog(plan))]
  }

  /** The state behind StartMoves. */
  function Started(t: State, x: Pid, b: Batch, plan: seq<Slice>): State {
    With(t, x, Writing(b, Logged, t.manifest, Work(b.units, plan, []))).(
      writer := Some(x), usedTags := t.usedTags + {b.tag}, wal := Some(Wal(t.manifest.generation, b)), foreign := false)
  }

  lemma Starts(t: State, x: Pid, b: Batch, plan: seq<Slice>) returns (states: seq<State>)
    requires CanStart(t, x, b) && OrderedPartition(plan, |b.units|)
    ensures Run(states, StartMoves(x, b, plan)) && states[0] == t && states[2] == Started(t, x, b, plan)
  {
    var m := StartMoves(x, b, plan);
    var s1 := Next(t, x, m[0].action);
    states := [t, s1, Next(s1, x, m[1].action)];
    assert states[2].processes == Started(t, x, b, plan).processes;
  }

  function PublishMoves(x: Pid, id: SegId, last: Action): seq<Move> {
    [Move(x, WriteSegment(id)), Move(x, Publish), Move(x, last)]
  }

  /**
   An update that wrote its log and is not disturbed publishes its batch.  It then clears its log,
   or crashes before that.
   */
  lemma Publishes(s: State, x: Pid, id: SegId, last: Action) returns (states: seq<State>)
    requires s.writer == Some(x) && s.compaction != Some(x) && id !in s.usedIds && Proc(s, x).Writing? && Proc(s, x).mode == Logged
    requires Proc(s, x).base == s.manifest && Proc(s, x).work == Work(Proc(s, x).batch.units, OneSlice(|Proc(s, x).batch.units|), [])
    requires last == Acknowledge || last == Crash
    ensures Run(states, PublishMoves(x, id, last)) && states[0] == s
    ensures var b := Proc(s, x).batch;
      && states[3].manifest == Manifest(s.manifest.generation + 1, s.manifest.segments + [Descriptor(id, WriteSlice(b.units))])
      && states[3].log == s.log + [b]
    ensures states[3].wal == if last == Crash then s.wal else None
    ensures states[3].writer.None? && states[3].compaction == s.compaction
    ensures forall y :: Proc(states[3], y) == if y == x then Idle else Proc(s, y)
    ensures states[3].usedTags == s.usedTags && states[3].usedIds == s.usedIds + {id}
  {
    var m, b := PublishMoves(x, id, last), Proc(s, x).batch;
    assert SliceUnits(b.units, Slice(0, |b.units|)) == b.units;
    var s1 := Next(s, x, m[0].action);
    assert Proc(s1, x).work.built == [Descriptor(id, WriteSlice(b.units))];
    var s2 := Next(s1, x, m[1].action);
    states := [s, s1, s2, Next(s2, x, last)];
  }

  function UpdateMoves(x: Pid, b: Batch, id: SegId, last: Action): seq<Move> {
    StartMoves(x, b, OneSlice(|b.units|)) + PublishMoves(x, id, last)
  }

  /** A whole update. */
  lemma UpdatePublishes(t: State, x: Pid, b: Batch, id: SegId, last: Action) returns (states: seq<State>)
    requires CanStart(t, x, b) && id !in t.usedIds && (last == Acknowledge || last == Crash)
    ensures Run(states, UpdateMoves(x, b, id, last)) && states[0] == t
    ensures states[5].manifest == Manifest(t.manifest.generation + 1, t.manifest.segments + [Descriptor(id, WriteSlice(b.units))])
    ensures states[5].wal == (if last == Crash then Some(Wal(t.manifest.generation, b)) else None) && states[5].log == t.log + [b]
    ensures states[5].writer.None? && states[5].compaction == t.compaction
    ensures forall y :: Proc(states[5], y) == Proc(t, y)
    ensures states[5].usedTags == t.usedTags + {b.tag} && states[5].usedIds == t.usedIds + {id}
  {
    hide Run, OneSlice;
    var plan := OneSlice(|b.units|);
    var start := Starts(t, x, b, plan);
    var rest := Publishes(Started(t, x, b, plan), x, id, last);
    states := Joined(start, StartMoves(x, b, plan), rest, PublishMoves(x, id, last));
  }

  /** The state behind StartMoves and a crash. */
  function Crashed(t: State, x: Pid, b: Batch): State {
    With(t, x, Idle).(usedTags := t.usedTags + {b.tag}, wal := Some(Wal(t.manifest.generation, b)), foreign := false)
  }

  function CrashMoves(x: Pid, b: Batch, plan: seq<Slice>): seq<Move> {
    StartMoves(x, b, plan) + [Move(x, Crash)]
  }

  /** Whenever the writer lock is free, an update can leave a synced, unpublished log behind. */
  lemma CrashAfterSync(t: State, x: Pid, b: Batch, plan: seq<Slice>) returns (states: seq<State>)
    requires CanStart(t, x, b) && OrderedPartition(plan, |b.units|)
    ensures Run(states, CrashMoves(x, b, plan)) && states[0] == t && states[3] == Crashed(t, x, b)
  {
    var start := Starts(t, x, b, plan);
    var s := Started(t, x, b, plan);
    var e := Next(s, x, Crash);
    assert e.processes == Crashed(t, x, b).processes;
    hide Next, Enabled, Started;
    assert Leads(s, [Move(x, Crash)][0], e);
    states := Joined(start, StartMoves(x, b, plan), [s, e], [Move(x, Crash)]);
  }

  // ---------------------------------------------------------------- a log that is written over

  /**
   One process syncs its log and crashes.  Another looked for a log to recover before that, without
   the lock, and then writes its own over it.  Nothing was published, and the first log is gone.
   */
  lemma LogIsWrittenOver(x: Pid, a: Batch, y: Pid, b: Batch) returns (states: seq<State>)
    requires BatchOk(a) && BatchOk(b) && a.tag != b.tag && x != y
    ensures Run(states, CrashMoves(x, a, OneSlice(|a.units|)) + StartMoves(y, b, OneSlice(|b.units|))) && states[0] == Initial()
    ensures states[3].wal == Some(Wal(1, a)) && states[3].writer.None?
    ensures states[5].wal == Some(Wal(1, b)) && !states[5].foreign && states[5].manifest == Initial().manifest
    ensures Occurrences(states[5].log, a.tag) == 0 && Lost(states[5], a)
  {
    var first := CrashAfterSync(Initial(), x, a, OneSlice(|a.units|));
    var s := Crashed(Initial(), x, a);
    var second := Starts(s, y, b, OneSlice(|b.units|));
    states := Joined(first, CrashMoves(x, a, OneSlice(|a.units|)), second, StartMoves(y, b, OneSlice(|b.units|)));
    assert states[..4][3] == s;
  }

  // ---------------------------------------------------------------- a log that is overtaken

  function PrepareMoves(p: Pid, n: nat, units: seq<Unit>, id: SegId): seq<Move> {
    [Move(p, BeginCompaction), Move(p, LockForSelect), Move(p, Select(0, n)), Move(p, Merge(units, OneSlice(|units|))), Move(p, WriteSegment(id))]
  }

  /** The state of a compaction of all segments that has written its output and waits for the writer lock. */
  function Prepared(t: State, p: Pid, units: seq<Unit>, id: SegId): State {
    var content := WriteSlice(units);
    With(t, p, Merging(t.manifest, 0, |t.manifest.segments|, Work(units, OneSlice(|units|), [Descriptor(id, content)]))).(
      compaction := Some(p), disk := t.disk[id := content], usedIds := t.usedIds + {id})
  }

  function Chosen(t: State, p: Pid): State {
    With(t, p, Selected(t.manifest, 0, |t.manifest.segments|)).(compaction := Some(p))
  }

  function Queued(t: State, p: Pid): State {
    With(t, p, Waiting).(compaction := Some(p))
  }

  function Locked(t: State, p: Pid): State {
    With(Queued(t, p), p, Cleaning(t.manifest)).(writer := Some(p))
  }

  lemma Queues(t: State, p: Pid)
    requires t.compaction.None? && Proc(t, p).Idle?
    ensures Leads(t, Move(p, BeginCompaction), Queued(t, p))
  {
  }

  lemma LocksToSelect(t: State, p: Pid)
    requires t.writer.None? && t.wal.None?
    ensures Leads(Queued(t, p), Move(p, LockForSelect), Locked(t, p))
  {
  }

  lemma Selects(t: State, p: Pid)
    requires t.writer.None? && |t.manifest.segments| > 0
    ensures Leads(Locked(t, p), Move(p, Select(0, |t.manifest.segments|)), Chosen(t, p))
  {
    assert Next(Locked(t, p), p, Select(0, |t.manifest.segments|)).processes == Chosen(t, p).processes;
  }

  lemma Chooses(t: State, p: Pid) returns (states: seq<State>)
    requires t.writer.None? && t.compaction.None? && t.wal.None? && Proc(t, p).Idle? && |t.manifest.segments| > 0
    ensures Run(states, [Move(p, BeginCompaction), Move(p, LockForSelect), Move(p, Select(0, |t.manifest.segments|))])
    ensures states[0] == t && states[3] == Chosen(t, p)
  {
    hide Leads, Queued, Locked, Chosen;
    Queues(t, p);
    LocksToSelect(t, p);
    Selects(t, p);
    states := [t, Queued(t, p), Locked(t, p), Chosen(t, p)];
  }

  lemma Merges(t: State, p: Pid, units: seq<Unit>, id: SegId) returns (states: seq<State>)
    requires OnDisk(t.disk, t.manifest.segments) && id !in t.usedIds
    requires CollectedFrom(Contents(t.manifest.segments), true, units)
    ensures Run(states, [Move(p, Merge(units, OneSlice(|units|))), Move(p, WriteSegment(id))])
    ensures states[0] == Chosen(t, p) && states[2] == Prepared(t, p, units, id)
  {
    hide CollectedFrom;
    var s, ds := Chosen(t, p), t.manifest.segments;
    assert RangeOf(t.manifest, 0, |ds|) == ds && Loaded(t.disk, ds) == Contents(ds);
    assert SliceUnits(units, Slice(0, |units|)) == units;
    var s1 := Next(s, p, Merge(units, OneSlice(|units|)));
    var s2 := Next(s1, p, WriteSegment(id));
    assert Proc(s2, p).work.built == [Descriptor(id, WriteSlice(units))];
    assert s2.processes == Prepared(t, p, units, id).processes;
    states := [s, s1, s2];
  }

  lemma Prepares(t: State, p: Pid, units: seq<Unit>, id: SegId) returns (states: seq<State>)
    requires t.writer.None? && t.compaction.None? && t.wal.None? && Proc(t, p).Idle? && |t.manifest.segments| > 0
    requires OnDisk(t.disk, t.manifest.segments) && id !in t.usedIds
    requires CollectedFrom(Contents(t.manifest.segments), true, units)
    ensures Run(states, PrepareMoves(p, |t.manifest.segments|, units, id)) && states[0] == t && states[5] == Prepared(t, p, units, id)
  {
    hide Run, CollectedFrom, OnDisk, Prepared, Chosen;
    var n := |t.manifest.segments|;
    var a := Chooses(t, p);
    var b := Merges(t, p, units, id);
    states := Joined(a, [Move(p, BeginCompaction), Move(p, LockForSelect), Move(p, Select(0, n))],
      b, [Move(p, Merge(units, OneSlice(|units|))), Move(p, WriteSegment(id))]);
    assert [Move(p, BeginCompaction), Move(p, LockForSelect), Move(p, Select(0, n))]
      + [Move(p, Merge(units, OneSlice(|units|))), Move(p, WriteSegment(id))] == PrepareMoves(p, n, units, id);
  }

  /** A request that deletes one document. */
  function Delete(tag: nat): Batch {
    Batch(tag, [Tombstone([1])])
  }

  /** Compacting the one segment of a delete drops the tombstone and leaves nothing. */
  lemma DeleteCompacts(tag: nat, id: SegId)
    ensures CollectedFrom(Contents([Descriptor(id, WriteSlice(Delete(tag).units))]), true, [])
  {
    var content, us := WriteSlice(Delete(tag).units), Delete(tag).units;
    WriteSliceEntries(us);
    MergedAppend([], content);
    assert us[..0] == [];
    assert UnitEntries(us) == map[][[1] := Deleted];
    assert Contents([Descriptor(id, content)]) == [content] && [] + [content] == [content];
    assert Merged([content]) == map[] + UnitEntries(us);
    assert LiveOnly(Merged([content])) == map[];
  }

  /**
   While a finished compaction waits for the writer lock, an update syncs its log and crashes, which
   publishes nothing; the compaction then publishes the very generation the log was meant for.
   */
  lemma CompactionOvertakesLog(c: State, p: Pid) returns (states: seq<State>)
    requires Inv(c) && Enabled(c, p, Relock) && c.wal.Some? && c.wal.value.base == c.manifest.generation
    ensures Run(states, [Move(p, Relock), Move(p, PublishSplice)]) && states[0] == c
    ensures states[2].wal == c.wal && states[2].manifest.generation == c.wal.value.base + 1
    ensures Occurrences(states[2].log, c.wal.value.batch.tag) == 0
    ensures states[2].writer == Some(p) && forall y: Pid :: y != p ==> Proc(states[2], y) == Proc(c, y)
  {
    var d := Next(c, p, Relock);
    states := [c, d, Next(d, p, PublishSplice)];
    OccurrencesCount(c.log, c.wal.value.batch.tag);
  }

  /** The next recovery takes such a log for a published one. */
  lemma OvertakenLogIsDiscarded(e: State, p: Pid, x: Pid) returns (states: seq<State>)
    requires Inv(e) && e.writer == Some(p) && x != p && Proc(e, x).Idle?
    requires e.wal.Some? && e.manifest.generation == e.wal.value.base + 1 && Occurrences(e.log, e.wal.value.batch.tag) == 0
    ensures Run(states, [Move(p, Crash), Move(x, ClearStale)]) && states[0] == e
    ensures states[2].wal.None? && Occurrences(states[2].log, e.wal.value.batch.tag) == 0
  {
    var f := Next(e, p, Crash);
    states := [e, f, Next(f, x, ClearStale)];
  }

  function OvertakingMoves(p: Pid): seq<Move> {
    [Move(p, Relock), Move(p, PublishSplice)]
  }

  function DiscardMoves(p: Pid, y: Pid): seq<Move> {
    [Move(p, Crash), Move(y, ClearStale)]
  }

  /** All moves: an update, a compaction up to its lock, an update that crashes, the rest of the compaction, a recovery. */
  function LosingMoves(b: Batch): seq<Move> {
    UpdateMoves(0, Delete(0), 0, Acknowledge) + PrepareMoves(1, 1, [], 1) + CrashMoves(2, b, OneSlice(|b.units|)) + OvertakingMoves(1) + DiscardMoves(1, 3)
  }

  /** Nothing runs, no log, and the index has the one segment of a delete. */
  ghost predicate Quiet(t: State) {
    && t.writer.None? && t.compaction.None? && t.wal.None? && (forall y :: Proc(t, y).Idle?)
    && t.manifest.segments == [Descriptor(0, WriteSlice(Delete(0).units))]
    && t.usedTags == {0} && t.usedIds == {0} && Inv(t)
  }

  lemma FirstUpdate() returns (states: seq<State>)
    ensures Run(states, UpdateMoves(0, Delete(0), 0, Acknowledge)) && states[0] == Initial() && Quiet(states[5])
  {
    hide Run, Inv, WriteSlice, UpdateMoves;
    assert BatchOk(Delete(0));
    states := UpdatePublishes(Initial(), 0, Delete(0), 0, Acknowledge);
    InitialOk();
    KeepsInv(states, UpdateMoves(0, Delete(0), 0, Acknowledge));
    assert [] + [Descriptor(0, WriteSlice(Delete(0).units))] == [Descriptor(0, WriteSlice(Delete(0).units))];
    MoveCounts(Delete(0));
  }

  lemma MoveCounts(b: Batch)
    ensures |UpdateMoves(0, Delete(0), 0, Acknowledge)| == 5 && |PrepareMoves(1, 1, [], 1)| == 5
    ensures |CrashMoves(2, b, OneSlice(|b.units|))| == 3 && |OvertakingMoves(1)| == |DiscardMoves(1, 3)| == 2
    ensures OvertakingMoves(1) == [Move(1, Relock), Move(1, PublishSplice)] && DiscardMoves(1, 3) == [Move(1, Crash), Move(3, ClearStale)]
    ensures LosingMoves(b) == UpdateMoves(0, Delete(0), 0, Acknowledge) + PrepareMoves(1, 1, [], 1) + CrashMoves(2, b, OneSlice(|b.units|)) + OvertakingMoves(1) + DiscardMoves(1, 3)
  {
  }

  lemma KeepsInv(states: seq<State>, moves: seq<Move>)
    requires Run(states, moves) && Inv(states[0])
    ensures |states| == |moves| + 1 && Inv(states[|moves|])
  {
    hide Inv, Leads;
    RunKeeps(states, moves, |moves|);
  }

  lemma PrepareQuiet(t: State) returns (states: seq<State>)
    requires Quiet(t)
    ensures Run(states, PrepareMoves(1, 1, [], 1)) && states[0] == t && states[5] == Prepared(t, 1, [], 1)
  {
    DeleteCompacts(0, 0);
    hide Run, Prepared, PrepareMoves, CollectedFrom, WriteSlice, Contents, Delete;
    states := Prepares(t, 1, [], 1);
  }

  lemma WaitsForLock(t: State, s: State, b: Batch)
    requires Quiet(t) && s == Crashed(Prepared(t, 1, [], 1), 2, b)
    ensures Enabled(s, 1, Relock) && s.wal == Some(Wal(s.manifest.generation, b)) && s.writer.None? && Proc(s, 3).Idle?
  {
    hide Inv, WriteSlice;
    assert Proc(t, 3).Idle?;
  }

  lemma CrashWhileWaiting(t: State, b: Batch) returns (states: seq<State>)
    requires Quiet(t) && BatchOk(b) && b.tag != 0
    ensures Run(states, CrashMoves(2, b, OneSlice(|b.units|))) && states[0] == Prepared(t, 1, [], 1) && states[3] == Crashed(Prepared(t, 1, [], 1), 2, b)
  {
    hide Run, Inv, WriteSlice, BatchOk, CrashMoves;
    assert Proc(t, 2).Idle?;
    states := CrashAfterSync(Prepared(t, 1, [], 1), 2, b, OneSlice(|b.units|));
  }

  /**
   A synced log is lost, for any request: a compaction that waits for the writer lock publishes the
   generation the log was meant for, and the next recovery takes the log for a published one.
   */
  lemma LogIsOvertaken(b: Batch) returns (states: seq<State>)
    requires BatchOk(b) && b.tag != 0
    ensures Run(states, LosingMoves(b)) && states[0] == Initial() && |LosingMoves(b)| == 17
    ensures states[13].wal.Some? && states[13].wal.value.batch == b && states[13].writer.None?
    ensures states[17].wal.None? && Occurrences(states[17].log, b.tag) == 0
  {
    hide Enabled, Next, Inv, Leads, Quiet, Prepared, UpdateMoves, PrepareMoves, CrashMoves, OvertakingMoves, DiscardMoves, LosingMoves, BatchOk;
    InitialOk();
    MoveCounts(b);
    var m1 := UpdateMoves(0, Delete(0), 0, Acknowledge);
    var m2, m3, m4, m5 := PrepareMoves(1, 1, [], 1), CrashMoves(2, b, OneSlice(|b.units|)), OvertakingMoves(1), DiscardMoves(1, 3);
    var a := FirstUpdate();
    var t := a[5];
    var c := PrepareQuiet(t);
    states := Joined(a, m1, c, m2);
    var d := CrashWhileWaiting(t, b);
    states := Joined(states, m1 + m2, d, m3);
    KeepsInv(states, m1 + m2 + m3);
    WaitsForLock(t, d[3], b);
    var e := CompactionOvertakesLog(d[3], 1);
    states := Joined(states, m1 + m2 + m3, e, m4);
    KeepsInv(states, m1 + m2 + m3 + m4);
    var f := OvertakenLogIsDiscarded(e[2], 1, 3);
    states := Joined(states, m1 + m2 + m3 + m4, f, m5);
  }

  // ---------------------------------------------------------------- a log in conflict

  function ConflictMoves(b: Batch): seq<Move> {
    UpdateMoves(0, Delete(0), 0, Acknowledge) + PrepareMoves(1, 1, [], 1) + UpdateMoves(2, b, 2, Crash) + OvertakingMoves(1)
  }

  lemma ConflictCounts(b: Batch)
    ensures |UpdateMoves(0, Delete(0), 0, Acknowledge)| == |PrepareMoves(1, 1, [], 1)| == |UpdateMoves(2, b, 2, Crash)| == 5
    ensures |OvertakingMoves(1)| == 2
  {
  }

  /** The compaction still finds its range, and goes on past what was published meanwhile. */
  lemma SplicesAfter(s: State) returns (states: seq<State>)
    requires Proc(s, 1).Merging? && |Proc(s, 1).work.built| == |Proc(s, 1).work.plan| && s.writer.None?
    requires RangeUnchanged(Proc(s, 1).base, s.manifest, Proc(s, 1).first, Proc(s, 1).count)
    ensures Run(states, OvertakingMoves(1)) && states[0] == s
    ensures states[2].wal == s.wal && states[2].log == s.log && states[2].manifest.generation == s.manifest.generation + 1
  {
    var s1 := Next(s, 1, Relock);
    states := [s, s1, Next(s1, 1, PublishSplice)];
  }

  lemma PublishWhileWaiting(t: State, b: Batch) returns (states: seq<State>)
    requires Quiet(t) && BatchOk(b) && b.tag != 0
    ensures Run(states, UpdateMoves(2, b, 2, Crash)) && states[0] == Prepared(t, 1, [], 1)
    ensures states[5].wal == Some(Wal(t.manifest.generation, b)) && states[5].manifest.generation == t.manifest.generation + 1
    ensures states[5].log == t.log + [b] && states[5].writer.None? && Proc(states[5], 1) == Proc(Prepared(t, 1, [], 1), 1)
    ensures RangeUnchanged(t.manifest, states[5].manifest, 0, 1)
  {
    hide Run, Inv, WriteSlice, BatchOk, UpdateMoves;
    assert Proc(t, 2).Idle?;
    states := UpdatePublishes(Prepared(t, 1, [], 1), 2, b, 2, Crash);
  }

  lemma WaitingProcess(t: State)
    requires Quiet(t)
    ensures Proc(Prepared(t, 1, [], 1), 1) == Merging(t.manifest, 0, 1, Work([], OneSlice(0), [Descriptor(1, WriteSlice([]))])) && |OneSlice(0)| == 1
  {
  }

  /**
   A log that recovery can neither replay nor discard: its update published the batch and crashed
   before clearing the log, and a compaction that was waiting for the lock published once more.
   */
  lemma LogComesIntoConflict(b: Batch) returns (states: seq<State>)
    requires BatchOk(b) && b.tag != 0
    ensures Run(states, ConflictMoves(b)) && states[0] == Initial() && |ConflictMoves(b)| == 17
    ensures states[17].wal.Some? && states[17].wal.value.batch == b && Conflicting(states[17])
    ensures Occurrences(states[17].log, b.tag) == 1
  {
    hide Enabled, Next, Inv, Leads, Quiet, Prepared, UpdateMoves, PrepareMoves, OvertakingMoves, BatchOk, WriteSlice, OneSlice;
    InitialOk();
    ConflictCounts(b);
    var m1, m2 := UpdateMoves(0, Delete(0), 0, Acknowledge), PrepareMoves(1, 1, [], 1);
    var m3, m4 := UpdateMoves(2, b, 2, Crash), OvertakingMoves(1);
    var a := FirstUpdate();
    var t := a[5];
    var c := PrepareQuiet(t);
    states := Joined(a, m1, c, m2);
    var d := PublishWhileWaiting(t, b);
    states := Joined(states, m1 + m2, d, m3);
    WaitingProcess(t);
    var e := SplicesAfter(d[5]);
    states := Joined(states, m1 + m2 + m3, e, m4);
    KeepsInv(states, m1 + m2 + m3 + m4);
    assert b.tag in Tags(t.log + [b]) by { assert (t.log + [b])[|t.log|] == b; }
    AppliedOnce(states[17], b.tag);
  }

  lemma AppliedOnce(s: State, tag: nat)
    requires Inv(s) && tag in Tags(s.log)
    ensures Occurrences(s.log, tag) == 1
  {
    OccurrencesCount(s.log, tag);
  }
}
