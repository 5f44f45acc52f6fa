/** What collection, compaction and acknowledgement leave behind: directories, tombstones, logs and locks. */
module LifecycleCleanup {
  import opened Common
  import opened Catalog
  import opened Compaction
  import opened Lifecycle
  import opened LifecycleSafety
  import opened LifecycleTheorems

  // ---------------------------------------------------------------- garbage collection

  /** Every move of the run is p removing one directory. */
  predicate OnlyCollects(moves: seq<Move>, p: Pid) {
    forall i :: 0 <= i < |moves| ==> moves[i].p == p && moves[i].action.Collect?
  }

  lemma OneMove(t: State, m: Move) returns (states: seq<State>)
    requires Enabled(t, m.p, m.action)
    ensures Run(states, [m]) && states[0] == t && states[1] == Next(t, m.p, m.action)
  {
    states := [t, Next(t, m.p, m.action)];
    assert Leads(states[0], [m][0], states[1]);
  }

  lemma FewerDirectories(disk: map<SegId, Segment>, id: SegId)
    requires id in disk
    ensures |disk - {id}| < |disk| && (disk - {id}).Keys == disk.Keys - {id}
  {
    assert (disk - {id}).Keys == disk.Keys - {id};
    assert |disk - {id}| == |(disk - {id}).Keys| && |disk| == |disk.Keys|;
  }

  /**
   From every reachable state a collector can go on until the directories on disk are exactly those
   the manifest names, with their content, and nothing else has changed.
   */
  lemma {:induction false} CollectionCleans(t: State, p: Pid) returns (states: seq<State>, moves: seq<Move>)
    requires Inv(t) && Proc(t, p).Cleaning?
    ensures Run(states, moves) && states[0] == t && OnlyCollects(moves, p)
    ensures var u := states[|moves|];
      u.disk.Keys == Ids(t.manifest.segments) && (forall id :: id in u.disk ==> id in t.disk && u.disk[id] == t.disk[id]) && u == t.(disk := u.disk)
    decreases |t.disk|
  {
    hide *;
    CleaningFacts(t, p);
    if id :| id in t.disk && id !in Ids(t.manifest.segments) {
      var u := CollectedOne(t, p, id);
      var first := OneMove(t, Move(p, Collect(id)));
      var rest, more := CollectionCleans(u, p);
      states := Joined(first, [Move(p, Collect(id))], rest, more);
      moves := [Move(p, Collect(id))] + more;
      CollectFirst(id, more, p);
    } else {
      states, moves := [t], [];
      NoMoves(t);
    }
  }

  lemma CollectedOne(t: State, p: Pid, id: SegId) returns (u: State)
    requires Inv(t) && Proc(t, p).Cleaning? && id in t.disk && id !in Ids(t.manifest.segments)
    ensures Enabled(t, p, Collect(id)) && u == Next(t, p, Collect(id)) == t.(disk := t.disk - {id})
    ensures Inv(u) && Proc(u, p) == Proc(t, p) && |u.disk| < |t.disk|
  {
    hide Inv;
    CleaningFacts(t, p);
    CollectKeeps(t, p, id);
    FewerDirectories(t.disk, id);
    u := t.(disk := t.disk - {id});
  }

  lemma CollectFirst(id: SegId, more: seq<Move>, p: Pid)
    requires OnlyCollects(more, p)
    ensures OnlyCollects([Move(p, Collect(id))] + more, p)
  {
  }

  lemma NoMoves(t: State)
    ensures Run([t], []) && forall p :: OnlyCollects([], p)
  {
  }

  lemma CleaningFacts(t: State, p: Pid)
    requires Inv(t) && Proc(t, p).Cleaning?
    ensures Proc(t, p).base == t.manifest && t.wal.None? && Ids(t.manifest.segments) <= t.disk.Keys
    ensures forall id :: id in t.disk && id !in Ids(t.manifest.segments) ==> Enabled(t, p, Collect(id)) && Next(t, p, Collect(id)) == t.(disk := t.disk - {id})
  {
    assert ProcessOk(t, Proc(t, p));
  }

  /** Directories are collected while no log is waiting, so none that a replay could still need to see is lost. */
  lemma CollectsWithoutLog(t: State, p: Pid, id: SegId)
    requires Reachable(t) && Enabled(t, p, Collect(id))
    ensures t.wal.None? && t.writer == Some(p) && t.compaction == Some(p)
    ensures Next(t, p, Collect(id)) == t.(disk := t.disk - {id}) && id !in Ids(t.manifest.segments)
  {
    ReachableOk(t);
    CleaningFacts(t, p);
    assert HoldsWriter(Proc(t, p)) && HoldsCompaction(Proc(t, p));
  }

  // ---------------------------------------------------------------- the sweep behind a compaction

  /** Sweeping removes every doomed directory and no other, and gives up both locks. */
  lemma {:induction false} SweepRemoves(t: State, p: Pid) returns (states: seq<State>, moves: seq<Move>)
    requires Proc(t, p).Sweeping? && t.writer == t.compaction == Some(p)
    ensures Run(states, moves) && states[0] == t && |moves| == |Proc(t, p).doomed| + 1
    ensures var u := states[|moves|];
      && (forall id :: id in u.disk <==> id in t.disk && id !in Proc(t, p).doomed) && (forall id :: id in u.disk ==> u.disk[id] == t.disk[id])
      && u.manifest == t.manifest && u.log == t.log && u.wal == t.wal && u.writer.None? && u.compaction.None? && Proc(u, p).Idle?
    decreases |Proc(t, p).doomed|
  {
    var doomed := Proc(t, p).doomed;
    if |doomed| == 0 {
      states := OneMove(t, Move(p, Finish));
      moves := [Move(p, Finish)];
    } else {
      var u := Next(t, p, SweepOne);
      assert Proc(u, p) == Sweeping(doomed[1..]);
      var first := OneMove(t, Move(p, SweepOne));
      var rest, more := SweepRemoves(u, p);
      states := Joined(first, [Move(p, SweepOne)], rest, more);
      moves := [Move(p, SweepOne)] + more;
      assert doomed == [doomed[0]] + doomed[1..];
    }
  }

  /** A compaction that publishes and sweeps replaces the directories of its range by the ones it built. */
  lemma CompactionReplaces(t: State, p: Pid) returns (states: seq<State>, moves: seq<Move>)
    requires Reachable(t) && Proc(t, p).Relocked?
    ensures Run(states, moves) && states[0] == t && |moves| == Proc(t, p).count + 2
    ensures var q, u := Proc(t, p), states[|moves|];
      && q.first + q.count <= |t.manifest.segments|
      && u.manifest.segments == t.manifest.segments[..q.first] + q.work.built + t.manifest.segments[q.first + q.count..]
      && u.manifest.generation == t.manifest.generation + 1
      && (forall id :: id in u.disk <==> id in t.disk && id !in Ids(t.manifest.segments[q.first..q.first + q.count]))
      && View(Contents(u.manifest.segments)) == View(Contents(t.manifest.segments))
      && u.writer.None? && u.compaction.None? && Proc(u, p).Idle?
  {
    hide Reachable, Inv, View, Contents, Run, Ids, Enabled, Next;
    RelockedFacts(t, p);
    var q := Proc(t, p);
    var u := Next(t, p, PublishSplice);
    SplicedView(t, p);
    SplicedFacts(t, p);
    var first := OneMove(t, Move(p, PublishSplice));
    var rest, more := SweepRemoves(u, p);
    states := Joined(first, [Move(p, PublishSplice)], rest, more);
    moves := [Move(p, PublishSplice)] + more;
    DoomedAre(RangeOf(q.base, q.first, q.count));
  }

  lemma SplicedFacts(t: State, p: Pid)
    requires Enabled(t, p, PublishSplice)
    ensures var q, u := Proc(t, p), Next(t, p, PublishSplice);
      && q.first + q.count <= |q.base.segments| && q.first + q.count <= |q.current.segments|
      && var range := RangeOf(q.base, q.first, q.count);
      && Proc(u, p) == Sweeping(seq(|range|, k requires 0 <= k < |range| => range[k].id))
      && u.manifest == Manifest(q.current.generation + 1, q.current.segments[..q.first] + q.work.built + q.current.segments[q.first + q.count..])
      && u.disk == t.disk && u.writer == t.writer && u.compaction == t.compaction
  {
  }

  lemma DoomedAre(range: seq<Descriptor>)
    ensures forall id :: id in seq(|range|, k requires 0 <= k < |range| => range[k].id) <==> id in Ids(range)
  {
    var ids := seq(|range|, k requires 0 <= k < |range| => range[k].id);
    forall id | id in Ids(range) ensures id in ids {
      var k :| 0 <= k < |range| && range[k].id == id;
      assert ids[k] == id;
    }
  }

  lemma RelockedFacts(t: State, p: Pid)
    requires Reachable(t) && Proc(t, p).Relocked?
    ensures var q := Proc(t, p);
      && q.first + q.count <= |q.base.segments| && q.base.segments <= t.manifest.segments && q.current == t.manifest
      && RangeOf(q.base, q.first, q.count) == t.manifest.segments[q.first..q.first + q.count]
    ensures Inv(t) && Enabled(t, p, PublishSplice) && t.writer == t.compaction == Some(p)
  {
    ReachableOk(t);
    assert ProcessOk(t, Proc(t, p)) && HoldsWriter(Proc(t, p)) && HoldsCompaction(Proc(t, p));
  }

  lemma SplicedView(t: State, p: Pid)
    requires Inv(t) && Enabled(t, p, PublishSplice)
    ensures View(Contents(Next(t, p, PublishSplice).manifest.segments)) == View(Contents(t.manifest.segments))
  {
    PublishSpliceKeeps(t, p);
    hide View, Contents, Replayed;
  }

  // ---------------------------------------------------------------- which tombstones a compaction keeps

  /**
   The units a compaction writes say what the range says.  Its tombstones are gone exactly when the
   range was the whole manifest the compaction started from; otherwise every one of them is kept.
   */
  lemma CompactionUnits(t: State, p: Pid)
    requires Reachable(t) && (Proc(t, p).Merging? || Proc(t, p).Relocked?)
    ensures var q := Proc(t, p);
      && q.first + q.count <= |t.manifest.segments| && q.base.segments <= t.manifest.segments
      && var range := Contents(t.manifest.segments[q.first..q.first + q.count]);
      UnitEntries(q.work.units) == if q.first == 0 && q.count == |q.base.segments| then View(range) else Merged(range)
  {
    hide Inv, ProcessOk, UnitEntries, WorkShape, Merged, DistinctIds, AllWellFormed, Reachable;
    ReachableProcess(t, p);
    var q := Proc(t, p);
    RangeIsThere(t, q);
    assert RangeOf(q.base, q.first, q.count) == t.manifest.segments[q.first..q.first + q.count];
    KeptCases(Merged(Contents(RangeOf(q.base, q.first, q.count))));
  }

  lemma ReachableProcess(t: State, p: Pid)
    requires Reachable(t)
    ensures ProcessOk(t, Proc(t, p))
  {
    hide ProcessOk, Reachable;
    ReachableOk(t);
  }

  lemma RangeIsThere(t: State, q: Process)
    requires ProcessOk(t, q) && (q.Merging? || q.Relocked?)
    ensures q.first + q.count <= |q.base.segments| && q.base.segments <= t.manifest.segments
    ensures CollectedFrom(Contents(RangeOf(q.base, q.first, q.count)), DropsTombstones(q.base, q.first, q.count), q.work.units)
  {
  }

  lemma KeptCases(m: Entries)
    ensures Kept(m, true) == LiveOnly(m) && Kept(m, false) == m
  {
  }

  // ---------------------------------------------------------------- a finished update

  /** An update that returns OK is published once, recorded as acknowledged, and leaves neither lock nor log. */
  lemma AcknowledgedUpdate(t: State, p: Pid)
    requires Reachable(t) && Enabled(t, p, Acknowledge)
    ensures var q, u := Proc(t, p), Next(t, p, Acknowledge);
      && Occurrences(u.log, q.batch.tag) == 1 && u.manifest == t.manifest && u.disk == t.disk
      && (q.mode != Replay ==> q.batch.tag in u.acknowledged) && (q.mode != Bulk ==> u.wal.None?)
      && u.writer.None? && Proc(u, p).Idle?
  {
    ReachableOk(t);
    assert ProcessOk(t, Proc(t, p));
    assert HoldsWriter(Proc(t, p));
    OccurrencesCount(t.log, Proc(t, p).batch.tag);
  }
}
