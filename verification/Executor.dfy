/** Submitters and workers of a bounded executor, interleaved at the points where the lock is taken. */
module Executor {
  import opened Common

  /** A batch worker first sees work, then waits for more of it, then collects. */
  datatype Worker = Idle | Collecting | Busy(batch: seq<nat>) | Exited

  /** batch is None for ordinary workers that take one job at a time. */
  datatype Policy = Policy(capacity: nat, batch: Option<nat>)

  datatype State = State(
    queue: seq<nat>, accepting: bool, workers: seq<Worker>, active: nat, submitted: nat, completed: nat, rejected: nat,
    accepted: seq<nat>, taken: seq<nat>, finished: seq<nat>)

  /** A submission carries a function to run, or an item for the batch function. */
  datatype Action = Submit(job: nat, item: bool) | Wake(w: nat) | Collect(w: nat) | Finish(w: nat) | Close | Exit(w: nat)

  predicate PolicyOk(p: Policy) {
    p.capacity > 0 && (p.batch.Some? ==> 0 < p.batch.value <= p.capacity)
  }

  function MaxTake(p: Policy): nat {
    if p.batch.None? then 1 else p.batch.value
  }

  function TakeCount(p: Policy, s: State): nat {
    if |s.queue| < MaxTake(p) then |s.queue| else MaxTake(p)
  }

  predicate Is(s: State, w: nat, x: Worker) {
    w < |s.workers| && s.workers[w] == x
  }

  predicate Enabled(s: State, p: Policy, a: Action) {
    match a
    case Submit(_, _) => true
    case Wake(w) => Is(s, w, Idle) && |s.queue| > 0
    case Collect(w) => Is(s, w, Collecting)
    case Finish(w) => w < |s.workers| && s.workers[w].Busy?
    case Close => true
    case Exit(w) => Is(s, w, Idle) && |s.queue| == 0 && !s.accepting
  }

  /** Take the oldest jobs off the queue and start on them. */
  function Taken(s: State, w: nat, n: nat): State
    requires w < |s.workers| && n <= |s.queue|
  {
    s.(queue := s.queue[n..], workers := s.workers[w := Busy(s.queue[..n])], active := s.active + n, taken := s.taken + s.queue[..n])
  }

  function Done(s: State, w: nat): State
    requires w < |s.workers| && s.workers[w].Busy?
  {
    var b := s.workers[w].batch;
    s.(workers := s.workers[w := Idle], active := if |b| <= s.active then s.active - |b| else 0,
       completed := s.completed + |b|, finished := s.finished + b)
  }

  function Next(s: State, p: Policy, a: Action): State
    requires PolicyOk(p) && Enabled(s, p, a)
  {
    match a
    case Submit(job, item) =>
      if item != p.batch.Some? || !s.accepting || |s.queue| >= p.capacity then s.(rejected := s.rejected + 1)
      else s.(queue := s.queue + [job], submitted := s.submitted + 1, accepted := s.accepted + [job])
    case Wake(w) => if p.batch.None? then Taken(s, w, 1) else s.(workers := s.workers[w := Collecting])
    case Collect(w) => Taken(s, w, TakeCount(p, s))
    case Finish(w) => Done(s, w)
    case Close => s.(accepting := false)
    case Exit(w) => s.(workers := s.workers[w := Exited])
  }

  ghost predicate Leads(s: State, p: Policy, a: Action, t: State)
    requires PolicyOk(p)
  {
    Enabled(s, p, a) && t == Next(s, p, a)
  }

  ghost predicate Run(states: seq<State>, actions: seq<Action>, p: Policy)
    requires PolicyOk(p)
  {
    && |states| == |actions| + 1
    && forall i, j :: 0 <= i < j < |states| && j == i + 1 ==> Leads(states[i], p, actions[i], states[j])
  }

  /** A batch executor has exactly one worker. */
  predicate Initial(s: State, p: Policy) {
    && s == State([], true, s.workers, 0, 0, 0, 0, [], [], [])
    && (forall w :: 0 <= w < |s.workers| ==> s.workers[w] == Idle) && (p.batch.Some? ==> |s.workers| == 1)
  }

  // ---------------------------------------------------------------- jobs in hand

  function Hand(x: Worker): multiset<nat> {
    if x.Busy? then multiset(x.batch) else multiset{}
  }

  function InHand(ws: seq<Worker>): multiset<nat> {
    if |ws| == 0 then multiset{} else InHand(ws[..|ws| - 1]) + Hand(ws[|ws| - 1])
  }

  lemma {:induction false} InHandUpdate(ws: seq<Worker>, w: nat, x: Worker)
    requires w < |ws|
    ensures InHand(ws[w := x]) + Hand(ws[w]) == InHand(ws) + Hand(x)
  {
    hide Hand;
    var n := |ws| - 1;
    if w == n {
      assert ws[w := x][..n] == ws[..n];
    } else {
      InHandUpdate(ws[..n], w, x);
      assert ws[w := x][..n] == ws[..n][w := x];
      Shift(InHand(ws[..n][w := x]), Hand(ws[w]), InHand(ws[..n]), Hand(x), Hand(ws[n]));
    }
  }

  lemma Shift(a: multiset<nat>, b: multiset<nat>, c: multiset<nat>, d: multiset<nat>, l: multiset<nat>)
    requires a + b == c + d
    ensures a + l + b == c + l + d
  {
    assert a + l + b == a + b + l && c + l + d == c + d + l;
  }

  lemma HandsFree(ws: seq<Worker>, w: nat, x: Worker)
    requires w < |ws| && !ws[w].Busy? && !x.Busy?
    ensures InHand(ws[w := x]) == InHand(ws)
  {
    hide InHand;
    InHandUpdate(ws, w, x);
    assert InHand(ws[w := x]) + multiset{} == InHand(ws[w := x]) && InHand(ws) + multiset{} == InHand(ws);
  }

  lemma {:induction false} NothingInHand(ws: seq<Worker>)
    requires forall w :: 0 <= w < |ws| ==> !ws[w].Busy?
    ensures InHand(ws) == multiset{}
  {
    if |ws| > 0 { NothingInHand(ws[..|ws| - 1]); }
  }

  // ---------------------------------------------------------------- the invariant

  /** First in, first out: what was accepted is what was taken followed by what still waits. */
  predicate Fifo(s: State) {
    s.accepted == s.taken + s.queue
  }

  /** Every taken job is in one worker's hands or finished, and the counters agree. */
  predicate Accounted(s: State) {
    && multiset(s.taken) == multiset(s.finished) + InHand(s.workers)
    && s.active == |InHand(s.workers)| && s.completed == |s.finished| && s.submitted == |s.accepted|
  }

  predicate WorkersOk(s: State, p: Policy) {
    && |s.queue| <= p.capacity && (p.batch.Some? ==> |s.workers| == 1)
    && (forall w :: 0 <= w < |s.workers| && s.workers[w].Busy? ==> 0 < |s.workers[w].batch| <= MaxTake(p))
    && (forall w :: 0 <= w < |s.workers| && s.workers[w].Collecting? ==> p.batch.Some? && |s.queue| > 0)
    && (forall w :: 0 <= w < |s.workers| && s.workers[w].Exited? ==> !s.accepting && |s.queue| == 0)
  }

  predicate Inv(s: State, p: Policy) {
    Fifo(s) && Accounted(s) && WorkersOk(s, p)
  }

  lemma TakenKeeps(s: State, p: Policy, w: nat, n: nat)
    requires PolicyOk(p) && Inv(s, p) && w < |s.workers| && !s.workers[w].Busy? && 0 < n <= |s.queue| && n <= MaxTake(p)
    requires p.batch.None? || s.workers[w].Collecting?
    ensures Inv(Taken(s, w, n), p)
  {
    hide Accounted, InHand;
    TakenAccounts(s, w, n);
    assert s.queue == s.queue[..n] + s.queue[n..];
    assert s.taken + s.queue[..n] + s.queue[n..] == s.taken + (s.queue[..n] + s.queue[n..]);
  }

  lemma TakenAccounts(s: State, w: nat, n: nat)
    requires Accounted(s) && w < |s.workers| && !s.workers[w].Busy? && n <= |s.queue|
    ensures Accounted(Taken(s, w, n))
  {
    hide InHand;
    var b := s.queue[..n];
    InHandUpdate(s.workers, w, Busy(b));
    assert InHand(s.workers[w := Busy(b)]) == InHand(s.workers) + multiset(b);
    assert |multiset(b)| == |b|;
  }

  /** The jobs a worker has in hand are among the active ones. */
  lemma BusyIsActive(s: State, w: nat)
    requires Accounted(s) && w < |s.workers| && s.workers[w].Busy?
    ensures |s.workers[w].batch| <= s.active
  {
    hide InHand;
    var b := s.workers[w].batch;
    InHandUpdate(s.workers, w, Idle);
    assert InHand(s.workers[w := Idle]) + multiset(b) == InHand(s.workers);
    assert |InHand(s.workers[w := Idle]) + multiset(b)| == |InHand(s.workers[w := Idle])| + |multiset(b)|;
    assert |multiset(b)| == |b|;
  }

  lemma DoneAccounts(s: State, w: nat)
    requires Accounted(s) && w < |s.workers| && s.workers[w].Busy?
    ensures Accounted(Done(s, w))
  {
    hide InHand;
    var b := s.workers[w].batch;
    InHandUpdate(s.workers, w, Idle);
    assert InHand(s.workers[w := Idle]) + multiset(b) == InHand(s.workers);
    assert |InHand(s.workers[w := Idle]) + multiset(b)| == |InHand(s.workers[w := Idle])| + |multiset(b)|;
    assert |multiset(b)| == |b|;
  }

  lemma StepKeeps(s: State, p: Policy, a: Action)
    requires PolicyOk(p) && Inv(s, p) && Enabled(s, p, a)
    ensures Inv(Next(s, p, a), p)
  {
    hide InHand, Taken, Done;
    match a
    case Submit(job, _) => assert s.taken + (s.queue + [job]) == s.taken + s.queue + [job];
    case Wake(w) =>
      if p.batch.None? { TakenKeeps(s, p, w, 1); } else { HandsFree(s.workers, w, Collecting); }
    case Collect(w) => TakenKeeps(s, p, w, TakeCount(p, s));
    case Finish(w) => FinishKeeps(s, p, w);
    case Close =>
    case Exit(w) => HandsFree(s.workers, w, Exited);
  }

  lemma FinishKeeps(s: State, p: Policy, w: nat)
    requires PolicyOk(p) && Inv(s, p) && w < |s.workers| && s.workers[w].Busy?
    ensures Inv(Done(s, w), p)
  {
    DoneAccounts(s, w);
    hide Accounted;
  }

  lemma InitialOk(s: State, p: Policy)
    requires Initial(s, p)
    ensures Inv(s, p)
  {
    NothingInHand(s.workers);
  }

  lemma {:induction false} RunKeeps(states: seq<State>, actions: seq<Action>, p: Policy, n: nat)
    requires PolicyOk(p) && Run(states, actions, p) && Initial(states[0], p) && n < |states|
    ensures Inv(states[n], p)
  {
    hide Inv, Enabled, Next, Initial;
    if n == 0 {
      InitialOk(states[0], p);
    } else {
      RunKeeps(states, actions, p, n - 1);
      assert Leads(states[n - 1], p, actions[n - 1], states[n]);
      StepKeeps(states[n - 1], p, actions[n - 1]);
    }
  }

  /** The counters of every reachable state add up. */
  lemma CountersAddUp(s: State, p: Policy)
    requires Inv(s, p)
    ensures s.submitted == |s.queue| + s.active + s.completed && |s.queue| <= p.capacity
  {
    hide InHand;
    assert |multiset(s.taken)| == |s.taken| && |multiset(s.finished)| == |s.finished|;
    assert |multiset(s.finished) + InHand(s.workers)| == |multiset(s.finished)| + |InHand(s.workers)|;
  }

  /**
   In every interleaving: submitted is queued plus active plus completed, jobs leave the queue in the
   order they were accepted, each exactly once, and every batch is non-empty and bounded.
   */
  lemma JobsAccounted(states: seq<State>, actions: seq<Action>, p: Policy, n: nat)
    requires PolicyOk(p) && Run(states, actions, p) && Initial(states[0], p) && n < |states|
    ensures var s := states[n];
      && s.submitted == |s.queue| + s.active + s.completed && |s.queue| <= p.capacity
      && s.taken <= s.accepted && s.accepted == s.taken + s.queue
      && multiset(s.taken) == multiset(s.finished) + InHand(s.workers)
      && forall w :: 0 <= w < |s.workers| && s.workers[w].Busy? ==> 0 < |s.workers[w].batch| <= MaxTake(p)
  {
    RunKeeps(states, actions, p, n);
    CountersAddUp(states[n], p);
  }

  /** Closing waits for all workers; when they have left, everything accepted has been completed. */
  lemma CloseCompletes(states: seq<State>, actions: seq<Action>, p: Policy, n: nat)
    requires PolicyOk(p) && Run(states, actions, p) && Initial(states[0], p) && n < |states|
    requires |states[n].workers| > 0 && forall w :: 0 <= w < |states[n].workers| ==> states[n].workers[w].Exited?
    ensures var s := states[n]; s.completed == s.submitted && s.active == 0 && multiset(s.finished) == multiset(s.accepted)
  {
    RunKeeps(states, actions, p, n);
    JobsAccounted(states, actions, p, n);
    var s := states[n];
    NothingInHand(s.workers);
    assert s.workers[0].Exited?;
    assert s.taken + [] == s.taken;
  }
}
