/**
 What becomes of a written update log.  A log stays on disk, replayable, until the first move that
 decides about it; only the publish of its own batch decides in its favour.
 */
module LogFate {
  import opened Common
  import opened Lifecycle
  import opened LifecycleSafety
  import opened LifecycleTheorems

  /** The move renames a log holding the batch into place. */
  predicate Writes(s: State, m: Move, b: Batch) {
    && (m.action.WriteLog? || m.action == LogFails(true))
    && Proc(s, m.p).Planned? && Proc(s, m.p).batch == b
  }

  predicate PublishesBatch(s: State, m: Move, b: Batch) {
    m.action == Publish && Proc(s, m.p).Writing? && Proc(s, m.p).batch == b
  }

  predicate PublishesOther(s: State, m: Move, b: Batch) {
    m.action == PublishSplice || (m.action == Publish && !PublishesBatch(s, m, b))
  }

  /** A publish, a log renamed over the present one, or a failing update that clears its own log. */
  predicate Decides(s: State, m: Move) {
    || m.action == Publish || m.action == PublishSplice
    || m.action.WriteLog? || m.action == LogFails(true)
    || (m.action.Fail? && m.action.walCleared && Proc(s, m.p).Writing? && Proc(s, m.p).mode == Logged)
  }

  ghost predicate Undecided(states: seq<State>, moves: seq<Move>, m: nat, n: nat)
    requires Run(states, moves) && n <= |moves|
  {
    forall i :: m < i < n ==> !Decides(states[i], moves[i])
  }

  // ---------------------------------------------------------------- one step

  /** Recovery that runs now would replay the batch. */
  predicate Replayable(s: State, b: Batch) {
    LogNames(s, b, s.manifest.generation)
  }

  /** The batch is out of reach: not published, held by no update, and no log of it can be replayed. */
  ghost predicate Lost(s: State, b: Batch) {
    && b.tag in s.usedTags && b.tag !in Tags(s.log)
    && (forall p :: Proc(s, p).Planned? || Proc(s, p).Writing? ==> Proc(s, p).batch.tag != b.tag)
    && (s.wal.Some? && s.wal.value.batch.tag == b.tag ==> s.wal.value.base < s.manifest.generation)
  }

  lemma WriteMakesReplayable(s: State, m: Move, b: Batch)
    requires Inv(s) && Enabled(s, m.p, m.action) && Writes(s, m, b)
    ensures Replayable(Next(s, m.p, m.action), b) && Next(s, m.p, m.action).manifest == s.manifest
  {
    assert ProcessOk(s, Proc(s, m.p));
  }

  lemma UndecidedKeeps(s: State, m: Move, b: Batch)
    requires Inv(s) && Enabled(s, m.p, m.action) && Replayable(s, b) && !Decides(s, m)
    ensures Replayable(Next(s, m.p, m.action), b) && Next(s, m.p, m.action).manifest == s.manifest
  {
    assert ProcessOk(s, Proc(s, m.p));
  }

  lemma DecidedForOthers(s: State, m: Move, b: Batch)
    requires Inv(s) && Enabled(s, m.p, m.action) && Replayable(s, b)
    requires Decides(s, m) && !PublishesBatch(s, m, b)
    ensures Lost(Next(s, m.p, m.action), b)
  {
    var t := Next(s, m.p, m.action);
    assert ProcessOk(s, Proc(s, m.p));
    forall p | Proc(t, p).Planned? || Proc(t, p).Writing? ensures Proc(t, p).batch.tag != b.tag {
      if p != m.p {
        assert HoldsWriter(Proc(s, p));
      }
    }
    assert b.tag !in Tags(t.log) by {
      assert t.log == s.log || t.log == s.log + [Proc(s, m.p).batch];
    }
  }

  lemma OtherProcessKept(s: State, m: Move, p: Pid)
    requires Enabled(s, m.p, m.action) && p != m.p
    ensures Proc(Next(s, m.p, m.action), p) == Proc(s, p)
  {
  }

  /** A process that goes on with an update keeps its batch. */
  lemma BatchKept(s: State, m: Move)
    requires Enabled(s, m.p, m.action) && !m.action.BeginUpdate? && !m.action.BeginReplay?
    ensures var q, r := Proc(s, m.p), Proc(Next(s, m.p, m.action), m.p);
      r.Planned? || r.Writing? ==> (q.Planned? || q.Writing?) && r.batch == q.batch
  {
  }

  /** No process comes to hold the batch: new ones have fresh tags, and its log cannot be replayed. */
  lemma LostIsNotHeld(s: State, m: Move, b: Batch, p: Pid)
    requires Enabled(s, m.p, m.action) && Lost(s, b)
    ensures var q := Proc(Next(s, m.p, m.action), p); q.Planned? || q.Writing? ==> q.batch.tag != b.tag
  {
    if p != m.p {
      hide Enabled, Next;
      OtherProcessKept(s, m, p);
    } else if !m.action.BeginUpdate? && !m.action.BeginReplay? {
      hide Enabled, Next;
      BatchKept(s, m);
    }
  }

  lemma LostIsNotPublished(s: State, m: Move, b: Batch)
    requires Enabled(s, m.p, m.action) && Lost(s, b)
    ensures b.tag !in Tags(Next(s, m.p, m.action).log)
  {
    var t := Next(s, m.p, m.action);
    if m.action == Publish {
      assert Proc(s, m.p).batch.tag != b.tag;
      assert t.log == s.log + [Proc(s, m.p).batch];
    } else {
      assert t.log == s.log;
    }
  }

  lemma LostIsNotLogged(s: State, m: Move, b: Batch)
    requires Enabled(s, m.p, m.action) && Lost(s, b)
    ensures var t := Next(s, m.p, m.action);
      t.wal.Some? && t.wal.value.batch.tag == b.tag ==> t.wal.value.base < t.manifest.generation
    ensures b.tag in Next(s, m.p, m.action).usedTags
  {
    var q := Proc(s, m.p);
    assert q.Planned? || q.Writing? ==> q.batch.tag != b.tag;
  }

  lemma LostStaysLost(s: State, m: Move, b: Batch)
    requires Enabled(s, m.p, m.action) && Lost(s, b)
    ensures Lost(Next(s, m.p, m.action), b)
  {
    hide Enabled, Next, Tags, Proc;
    LostIsNotPublished(s, m, b);
    LostIsNotLogged(s, m, b);
    forall p ensures var q := Proc(Next(s, m.p, m.action), p); q.Planned? || q.Writing? ==> q.batch.tag != b.tag {
      LostIsNotHeld(s, m, b, p);
    }
  }

  // ---------------------------------------------------------------- runs

  /** While nothing decides about it, the log stays on disk and fits the manifest. */
  lemma {:induction false} UndecidedLogStays(states: seq<State>, moves: seq<Move>, m: nat, n: nat, b: Batch)
    requires Run(states, moves) && states[0] == Initial() && m < n <= |moves|
    requires Writes(states[m], moves[m], b) && Undecided(states, moves, m, n)
    ensures Replayable(states[n], b) && states[n].manifest == states[m].manifest
    decreases n
  {
    hide Enabled, Next, Writes, Decides, Replayable, Inv;
    InitialOk();
    assert Leads(states[n - 1], moves[n - 1], states[n]);
    RunKeeps(states, moves, n - 1);
    if n == m + 1 {
      WriteMakesReplayable(states[m], moves[m], b);
    } else {
      UndecidedLogStays(states, moves, m, n - 1, b);
      UndecidedKeeps(states[n - 1], moves[n - 1], b);
    }
  }

  lemma {:induction false} LostForGood(states: seq<State>, moves: seq<Move>, j: nat, n: nat, b: Batch)
    requires Run(states, moves) && j <= n <= |moves| && Lost(states[j], b)
    ensures Lost(states[n], b)
    decreases n
  {
    if j < n {
      hide Enabled, Next, Lost;
      LostForGood(states, moves, j, n - 1, b);
      assert Leads(states[n - 1], moves[n - 1], states[n]);
      LostStaysLost(states[n - 1], moves[n - 1], b);
    }
  }

  lemma PublishedForGood(states: seq<State>, moves: seq<Move>, j: nat, n: nat, b: Batch)
    requires Run(states, moves) && states[0] == Initial() && j < n <= |moves| && PublishesBatch(states[j], moves[j], b)
    ensures Occurrences(states[n].log, b.tag) == 1
  {
    InitialOk();
    RunKeeps(states, moves, n);
    assert Leads(states[j], moves[j], states[j + 1]);
    LogOnlyGrows(states, moves, j + 1, n);
    var k := |states[j].log|;
    assert states[j + 1].log[k] == b;
    assert states[n].log[k] == b;
    OccurrencesCount(states[n].log, b.tag);
  }

  /**
   The fate of every log that is renamed into place, in every later state of every run.  Until the
   first deciding move it can be replayed and its batch is not in the index.  If that move publishes
   the batch, the batch is in the index exactly once ever after; otherwise it never gets there.
   */
  lemma FateOfLog(states: seq<State>, moves: seq<Move>, m: nat, j: nat, n: nat, b: Batch)
    requires Run(states, moves) && states[0] == Initial() && m < j <= n <= |moves|
    requires Writes(states[m], moves[m], b) && Undecided(states, moves, m, j)
    ensures j == n ==> states[n].wal == Some(Wal(states[n].manifest.generation, b)) && Occurrences(states[n].log, b.tag) == 0
    ensures j < n && Decides(states[j], moves[j]) ==>
      Occurrences(states[n].log, b.tag) == if PublishesBatch(states[j], moves[j], b) then 1 else 0
  {
    hide Enabled, Next, Writes, Decides, Lost, Inv, PublishesBatch;
    InitialOk();
    UndecidedLogStays(states, moves, m, j, b);
    RunKeeps(states, moves, j);
    if j == n {
      PendingIsAbsent(states[n], b);
    } else if Decides(states[j], moves[j]) {
      assert Leads(states[j], moves[j], states[j + 1]);
      if PublishesBatch(states[j], moves[j], b) {
        PublishedForGood(states, moves, j, n, b);
      } else {
        DecidedForOthers(states[j], moves[j], b);
        LostForGood(states, moves, j + 1, n, b);
        LostIsAbsent(states[n], b);
      }
    }
  }

  lemma PendingIsAbsent(s: State, b: Batch)
    requires Inv(s) && Replayable(s, b)
    ensures Occurrences(s.log, b.tag) == 0
  {
    OccurrencesCount(s.log, b.tag);
  }

  lemma LostIsAbsent(s: State, b: Batch)
    requires Lost(s, b)
    ensures Occurrences(s.log, b.tag) == 0
  {
    OccurrencesCount(s.log, b.tag);
  }

  // ---------------------------------------------------------------- what recovery finds

  /** The log on disk was written by move m, and the state records whether others published since. */
  ghost predicate WrittenAt(states: seq<State>, moves: seq<Move>, n: nat, m: nat)
    requires Run(states, moves) && n <= |moves|
  {
    && states[n].wal.Some? && m < n
    && Writes(states[m], moves[m], states[n].wal.value.batch)
    && states[n].wal.value.base == states[m].manifest.generation
    && (states[n].foreign <==> exists j :: m < j < n && PublishesOther(states[j], moves[j], states[n].wal.value.batch))
  }

  lemma StepWritesOrKeeps(s: State, m: Move)
    requires Enabled(s, m.p, m.action)
    ensures var t := Next(s, m.p, m.action);
      t.wal.Some? && !Writes(s, m, t.wal.value.batch) ==>
        t.wal == s.wal && (t.foreign <==> s.foreign || PublishesOther(s, m, t.wal.value.batch))
  {
    hide BatchOk, RangeUnchanged, Ids, CollectedFrom, Loaded, NextContent;
  }

  lemma WriteIsUnforeign(s: State, m: Move, b: Batch)
    requires Inv(s) && Enabled(s, m.p, m.action) && Writes(s, m, b)
    ensures Next(s, m.p, m.action).wal == Some(Wal(s.manifest.generation, b)) && !Next(s, m.p, m.action).foreign
  {
    assert ProcessOk(s, Proc(s, m.p));
  }

  /** A log on disk has a write it comes from, and the record of other publishes means what it says. */
  lemma {:induction false} LogHasOrigin(states: seq<State>, moves: seq<Move>, n: nat) returns (m: nat)
    requires Run(states, moves) && states[0] == Initial() && n <= |moves| && states[n].wal.Some?
    ensures WrittenAt(states, moves, n, m)
    decreases n
  {
    hide Enabled, Next, Writes, PublishesOther, Inv;
    InitialOk();
    RunKeeps(states, moves, n - 1);
    assert Leads(states[n - 1], moves[n - 1], states[n]);
    StepWritesOrKeeps(states[n - 1], moves[n - 1]);
    if Writes(states[n - 1], moves[n - 1], states[n].wal.value.batch) {
      WriteIsUnforeign(states[n - 1], moves[n - 1], states[n].wal.value.batch);
      m := n - 1;
    } else {
      m := LogHasOrigin(states, moves, n - 1);
    }
  }

  /**
   What recovery finds under the lock.  It replays exactly a log of the present generation, whose
   batch was never applied.  It discards a log of the generation before; that batch was applied if
   and only if nothing else was published since the log was written.  Any other log is a conflict,
   and something else was published since.
   */
  lemma RecoveryFinds(states: seq<State>, moves: seq<Move>, n: nat) returns (m: nat)
    requires Run(states, moves) && states[0] == Initial() && n <= |moves| && states[n].wal.Some?
    ensures m < n && Writes(states[m], moves[m], states[n].wal.value.batch)
    ensures var w, s := states[n].wal.value, states[n];
      var overtaken := exists j :: m < j < n && PublishesOther(states[j], moves[j], w.batch);
      && w.base <= s.manifest.generation
      && (s.manifest.generation == w.base ==> !overtaken && Occurrences(s.log, w.batch.tag) == 0)
      && (s.manifest.generation == w.base + 1 ==> Occurrences(s.log, w.batch.tag) == if overtaken then 0 else 1)
      && (s.manifest.generation > w.base + 1 ==> overtaken)
  {
    hide Enabled, Next, Writes, PublishesOther;
    InitialOk();
    RunKeeps(states, moves, n);
    m := LogHasOrigin(states, moves, n);
    OccurrencesCount(states[n].log, states[n].wal.value.batch.tag);
  }

  predicate Conflicting(s: State) {
    s.wal.Some? && s.manifest.generation > s.wal.value.base + 1
  }

  lemma ConflictStepStays(s: State, m: Move)
    requires Inv(s) && Enabled(s, m.p, m.action) && Conflicting(s)
    requires !(m.action.WriteLog? || m.action == LogFails(true))
    ensures Conflicting(Next(s, m.p, m.action)) && Next(s, m.p, m.action).wal == s.wal
  {
    assert ProcessOk(s, Proc(s, m.p));
  }

  /** A conflict is for good: no recovery removes the log, only an update that writes over it does. */
  lemma {:induction false} ConflictIsForGood(states: seq<State>, moves: seq<Move>, m: nat, n: nat)
    requires Run(states, moves) && states[0] == Initial() && m <= n <= |moves| && Conflicting(states[m])
    requires forall i :: m <= i < n ==> !(moves[i].action.WriteLog? || moves[i].action == LogFails(true))
    ensures Conflicting(states[n]) && states[n].wal == states[m].wal
    decreases n
  {
    if m < n {
      hide Enabled, Next, Inv, Conflicting;
      InitialOk();
      ConflictIsForGood(states, moves, m, n - 1);
      assert Leads(states[n - 1], moves[n - 1], states[n]);
      RunKeeps(states, moves, n - 1);
      ConflictStepStays(states[n - 1], moves[n - 1]);
    }
  }
}
