/** The bounded ring of waiting jobs, changed in place. */
module JobRing {
  /** Place i of a ring of the given size that starts at head: (head + i) modulo the size. */
  function Place(head: nat, i: nat, size: nat): (r: nat)
    requires head < size && i <= size
    ensures r < size
  {
    if head + i < size then head + i else head + i - size
  }

  lemma PlaceIsModulo(head: nat, i: nat, size: nat)
    requires head < size && i <= size
    ensures Place(head, i, size) == (head + i) % size
  {
  }

  class Ring {
    const jobs: array<nat>
    var head: nat
    var queued: nat

    ghost predicate Valid()
      reads this
    {
      jobs.Length > 0 && head < jobs.Length && queued <= jobs.Length
    }

    /** The waiting jobs, oldest first. */
    ghost function Contents(): (s: seq<nat>)
      requires Valid()
      reads this, jobs
      ensures |s| == queued
    {
      seq(queued, i requires 0 <= i < queued && Valid() reads this, jobs => jobs[Place(head, i, jobs.Length)])
    }

    constructor (capacity: nat)
      requires capacity > 0
      ensures Valid() && fresh(jobs) && jobs.Length == capacity && Contents() == []
    {
      jobs := new nat[capacity](_ => 0);
      head, queued := 0, 0;
    }

    /** Store at the tail. */
    method Push(job: nat)
      requires Valid() && queued < jobs.Length
      modifies this`queued, jobs
      ensures Valid() && Contents() == old(Contents()) + [job]
    {
      ghost var before := Contents();
      var tail := (head + queued) % jobs.Length;
      PlaceIsModulo(head, queued, jobs.Length);
      jobs[tail] := job;
      queued := queued + 1;
      forall i | 0 <= i < queued ensures Contents()[i] == (before + [job])[i] {
        if i < queued - 1 { Apart(head, i, queued - 1, jobs.Length); }
      }
    }

    /** Take from the head. */
    method Pop() returns (job: nat)
      requires Valid() && queued > 0
      modifies this`head, this`queued
      ensures Valid() && old(Contents()) == [job] + Contents()
    {
      ghost var before := Contents();
      job := jobs[head];
      assert Place(head, 0, jobs.Length) == head;
      ghost var h := head;
      head := (head + 1) % jobs.Length;
      PlaceIsModulo(h, 1, jobs.Length);
      queued := queued - 1;
      forall i | 0 <= i < queued ensures Contents()[i] == before[i + 1] {
        assert Place(head, i, jobs.Length) == Place(h, i + 1, jobs.Length);
      }
      assert before == [job] + Contents();
    }

    /** Take up to a batch of the oldest jobs. */
    method PopBatch(maxBatch: nat) returns (items: seq<nat>)
      requires Valid()
      modifies this`head, this`queued
      ensures Valid() && old(Contents()) == items + Contents()
      ensures |items| == if old(queued) < maxBatch then old(queued) else maxBatch
    {
      ghost var before := Contents();
      items := [];
      while |items| < maxBatch && queued != 0
        invariant Valid() && before == items + Contents() && |items| <= maxBatch && |items| + queued == |before|
        decreases queued
      {
        ghost var middle := Contents();
        var job := Pop();
        Regroup(items, job, Contents());
        items := items + [job];
      }
    }
  }

  lemma Regroup(items: seq<nat>, job: nat, rest: seq<nat>)
    ensures items + ([job] + rest) == items + [job] + rest
  {
  }

  lemma Apart(head: nat, i: nat, j: nat, size: nat)
    requires head < size && i < j < size
    ensures Place(head, i, size) != Place(head, j, size)
  {
  }
}
