/** The locked sections of the executor on its real fields, each a step of the interleaved model. */
module ExecutorPool {
  import opened JobRing
  import opened Executor

  function TakeAction(p: Policy, w: nat): Action {
    if p.batch.None? then Wake(w) else Collect(w)
  }

  /** Taking jobs, in terms of how many leave the queue. */
  lemma TakeEffect(s: State, p: Policy, w: nat, n: nat)
    requires PolicyOk(p) && Inv(s, p) && Enabled(s, p, TakeAction(p, w)) && n == TakeCount(p, s)
    ensures 0 < n <= |s.queue| && n <= MaxTake(p) && w < |s.workers|
    ensures var t := Next(s, p, TakeAction(p, w));
      && Inv(t, p) && t.queue == s.queue[n..] && t.workers == s.workers[w := Busy(s.queue[..n])] && t.active == s.active + n
      && t.accepting == s.accepting && t.submitted == s.submitted && t.completed == s.completed && t.rejected == s.rejected
  {
    StepKeeps(s, p, TakeAction(p, w));
    hide Inv, InHand;
    assert |s.queue| > 0 by { SomeQueued(s, p, w); }
  }

  /** A submission, in terms of what changes. */
  lemma SubmitEffect(s: State, p: Policy, job: nat, item: bool)
    requires PolicyOk(p) && Inv(s, p)
    ensures |s.queue| <= p.capacity && Enabled(s, p, Submit(job, item))
    ensures var t, ok := Next(s, p, Submit(job, item)), item == p.batch.Some? && s.accepting && |s.queue| < p.capacity;
      && Inv(t, p) && t.queue == (if ok then s.queue + [job] else s.queue) && t.workers == s.workers && t.active == s.active
      && t.accepting == s.accepting && t.submitted == (if ok then s.submitted + 1 else s.submitted)
      && t.completed == s.completed && t.rejected == if ok then s.rejected else s.rejected + 1
  {
    StepKeeps(s, p, Submit(job, item));
    hide InHand;
  }

  lemma SomeQueued(s: State, p: Policy, w: nat)
    requires Inv(s, p) && Enabled(s, p, TakeAction(p, w))
    ensures |s.queue| > 0
  {
  }

  class Pool {
    const policy: Policy
    const ring: Ring
    var accepting: bool
    var active: nat
    var submitted: nat
    var completed: nat
    var rejected: nat
    /** The state of the interleaved model that these fields stand for. */
    ghost var model: State

    ghost predicate Valid()
      reads this, ring, ring.jobs
    {
      && PolicyOk(policy) && Inv(model, policy)
      && ring.Valid() && ring.jobs.Length == policy.capacity && ring.Contents() == model.queue
      && accepting == model.accepting && active == model.active && submitted == model.submitted
      && completed == model.completed && rejected == model.rejected
    }

    constructor (policy: Policy, workers: nat)
      requires PolicyOk(policy) && (policy.batch.Some? ==> workers == 1)
      ensures Valid() && this.policy == policy && Initial(model, policy) && |model.workers| == workers
      ensures fresh(ring) && fresh(ring.jobs)
    {
      this.policy := policy;
      ring := new Ring(policy.capacity);
      accepting := true;
      active, submitted, completed, rejected := 0, 0, 0, 0;
      model := State([], true, seq(workers, _ => Idle), 0, 0, 0, 0, [], [], []);
      new;
      InitialOk(model, policy);
    }

    /** Submission: at the tail of the ring, or refused when it is of the other kind, the ring is full or the executor is closing. */
    method TrySubmit(job: nat, item: bool) returns (ok: bool)
      requires Valid()
      modifies this, ring, ring.jobs
      ensures Valid() && model == Next(old(model), policy, Submit(job, item))
      ensures ok <==> item == policy.batch.Some? && old(accepting) && old(ring.queued) < policy.capacity
    {
      hide Inv, Next;
      SubmitEffect(model, policy, job, item);
      model := Next(model, policy, Submit(job, item));
      if item != policy.batch.Some? || !accepting || ring.queued == ring.jobs.Length {
        rejected := rejected + 1;
        return false;
      }
      ring.Push(job);
      submitted := submitted + 1;
      return true;
    }

    /** A worker takes the oldest job, or up to a batch of them once it has waited. */
    method Take(ghost w: nat) returns (items: seq<nat>)
      requires Valid() && Enabled(model, policy, TakeAction(policy, w))
      modifies this, ring
      ensures Valid() && model == Next(old(model), policy, TakeAction(policy, w))
      ensures Is(model, w, Busy(items)) && 0 < |items| <= MaxTake(policy)
    {
      hide Inv, Next, Enabled, TakeAction;
      TakeEffect(model, policy, w, TakeCount(policy, model));
      ghost var before := model.queue;
      model := Next(model, policy, TakeAction(policy, w));
      items := ring.PopBatch(if policy.batch.None? then 1 else policy.batch.value);
      assert before[..|items|] == items && before[|items|..] == ring.Contents();
      active := active + |items|;
    }

    /** The worker has run its jobs. */
    method Finished(ghost w: nat, count: nat)
      requires Valid() && w < |model.workers| && model.workers[w].Busy? && count == |model.workers[w].batch|
      modifies this
      ensures Valid() && model == Next(old(model), policy, Finish(w))
    {
      BusyIsActive(model, w);
      StepKeeps(model, policy, Finish(w));
      model := Next(model, policy, Finish(w));
      active := active - count;
      completed := completed + count;
    }

    method Snapshot() returns (queued: nat, running: nat, accepted: nat, done: nat)
      requires Valid()
      ensures queued == |model.queue| && running == active && accepted == submitted && done == completed
      ensures accepted == queued + running + done && queued <= policy.capacity
    {
      CountersAddUp(model, policy);
      return ring.queued, active, submitted, completed;
    }

    method Close()
      requires Valid()
      modifies this
      ensures Valid() && model == Next(old(model), policy, Action.Close)
    {
      StepKeeps(model, policy, Action.Close);
      model := Next(model, policy, Action.Close);
      accepting := false;
    }
  }
}
