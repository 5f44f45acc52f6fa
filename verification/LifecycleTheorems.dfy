/** What holds in every state that some run of the lifecycle reaches. */
module LifecycleTheorems {
  import opened Common
  import opened Catalog
  import opened Lifecycle
  import opened LifecycleSafety

  /** Some run from the empty index passes through the state. */
  ghost predicate Reachable(t: State) {
    exists states, moves, n: nat :: Run(states, moves) && states[0] == Initial() && n < |states| && states[n] == t
  }

  lemma ReachableOk(t: State)
    requires Reachable(t)
    ensures Inv(t)
  {
    var states, moves, n: nat :| Run(states, moves) && states[0] == Initial() && n < |states| && states[n] == t;
    InitialOk();
    RunKeeps(states, moves, n);
  }

  /** How often a request appears among the published batches. */
  function Occurrences(log: seq<Batch>, tag: nat): nat {
    if |log| == 0 then 0 else Occurrences(log[..|log| - 1], tag) + if log[|log| - 1].tag == tag then 1 else 0
  }

  lemma {:induction false} OccurrencesCount(log: seq<Batch>, tag: nat)
    ensures tag !in Tags(log) ==> Occurrences(log, tag) == 0
    ensures NoRepeats(log) && tag in Tags(log) ==> Occurrences(log, tag) == 1
  {
    if |log| > 0 {
      var init, last := log[..|log| - 1], log[|log| - 1];
      OccurrencesCount(init, tag);
      assert last.tag in Tags(log);
      assert forall k :: 0 <= k < |init| ==> init[k] == log[k];
      if tag in Tags(log) && last.tag != tag {
        var k :| 0 <= k < |log| && log[k].tag == tag;
        assert init[k].tag in Tags(init);
      }
    }
  }

  /**
   The searchable view is the result of applying whole batches in publish order; no batch is
   applied twice, and every update that returned OK is among them.
   */
  lemma ViewIsPublishedBatches(t: State, tag: nat)
    requires Reachable(t)
    ensures View(Contents(t.manifest.segments)) == Replayed(t.log)
    ensures Occurrences(t.log, tag) <= 1
    ensures tag in t.acknowledged ==> Occurrences(t.log, tag) == 1
  {
    ReachableOk(t);
    OccurrencesCount(t.log, tag);
  }

  lemma StepGrows(s: State, p: Pid, a: Action)
    requires Enabled(s, p, a)
    ensures s.log <= Next(s, p, a).log && s.acknowledged <= Next(s, p, a).acknowledged
    ensures s.publishedIds <= Next(s, p, a).publishedIds
  {
  }

  /** Publishing only ever extends the batch log: nothing published or acknowledged is lost later in a run. */
  lemma {:induction false} LogOnlyGrows(states: seq<State>, moves: seq<Move>, m: nat, n: nat)
    requires Run(states, moves) && m <= n < |states|
    ensures states[m].log <= states[n].log && states[m].acknowledged <= states[n].acknowledged
    decreases n
  {
    if m < n {
      hide Enabled, Next;
      LogOnlyGrows(states, moves, m, n - 1);
      assert Leads(states[n - 1], moves[n - 1], states[n]);
      StepGrows(states[n - 1], moves[n - 1].p, moves[n - 1].action);
    }
  }

  /** Every segment the manifest names is on disk with the content the manifest pins. */
  lemma ManifestIsOnDisk(t: State, d: Descriptor)
    requires Reachable(t) && d in t.manifest.segments
    ensures d.id in t.disk && t.disk[d.id] == d.content
  {
    ReachableOk(t);
  }

  /**
   Neither garbage collection nor the sweep after a compaction ever removes a directory that some
   live process is still building or that the manifest names.
   */
  lemma RemovalsSpareLiveWork(t: State, p: Pid, a: Action, x: Pid, id: SegId)
    requires Reachable(t) && Enabled(t, p, a) && (a.Collect? || a.SweepOne?)
    requires id in t.disk && id !in Next(t, p, a).disk
    ensures id !in Ids(t.manifest.segments) && id !in Ids(Built(Proc(t, x)))
  {
    ReachableOk(t);
    assert ProcessOk(t, Proc(t, p));
    if a.Collect? {
      CollectorIsAlone(t, p, x);
    } else {
      assert Ids(Built(Proc(t, x))) !! t.publishedIds;
    }
  }

  /** A compaction that finished writing always finds its range where it left it. */
  lemma CompactionRangeSurvives(t: State, p: Pid)
    requires Reachable(t) && Proc(t, p).Merging?
    ensures RangeUnchanged(Proc(t, p).base, t.manifest, Proc(t, p).first, Proc(t, p).count)
  {
    ReachableOk(t);
    assert ProcessOk(t, Proc(t, p));
  }

  /**
   When recovery discards a log as already published, its batch has been applied exactly once if
   and only if no other publish happened since the log was written; otherwise it was never applied.
   */
  lemma DiscardedLogIsApplied(t: State, p: Pid)
    requires Reachable(t) && Enabled(t, p, ClearStale)
    ensures var n := Occurrences(t.log, t.wal.value.batch.tag); if t.foreign then n == 0 else n == 1
  {
    ReachableOk(t);
    OccurrencesCount(t.log, t.wal.value.batch.tag);
  }

  /** When recovery replays a log, the batch was not applied before and is applied once afterwards. */
  lemma ReplayedLogIsApplied(t: State, p: Pid)
    requires Reachable(t) && Enabled(t, p, Publish) && Proc(t, p).mode == Replay
    ensures t.wal == Some(Wal(t.manifest.generation, Proc(t, p).batch))
    ensures Occurrences(t.log, Proc(t, p).batch.tag) == 0
    ensures Occurrences(Next(t, p, Publish).log, Proc(t, p).batch.tag) == 1
  {
    ReachableOk(t);
    assert ProcessOk(t, Proc(t, p));
    OccurrencesCount(t.log, Proc(t, p).batch.tag);
    assert Next(t, p, Publish).log[..|t.log|] == t.log;
  }

  // ---------------------------------------------------------------- pieces of runs

  lemma Joined(a: seq<State>, ma: seq<Move>, b: seq<State>, mb: seq<Move>) returns (c: seq<State>)
    requires Run(a, ma) && Run(b, mb) && a[|ma|] == b[0]
    ensures Run(c, ma + mb) && |a| == |ma| + 1 && |b| == |mb| + 1 && |c| == |ma| + |mb| + 1
    ensures c[0] == a[0] && c[|ma| + |mb|] == b[|mb|] && c[..|ma| + 1] == a
  {
    hide Leads;
    c := a + b[1..];
    forall i | 0 <= i < |ma + mb| ensures Leads(c[i], (ma + mb)[i], c[i + 1]) {
      if i < |ma| {
        assert Leads(a[i], ma[i], a[i + 1]);
      } else {
        assert Leads(b[i - |ma|], mb[i - |ma|], b[i - |ma| + 1]);
      }
    }
  }
}
