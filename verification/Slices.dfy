/** Contiguous slices of a unit list, and the bisection that refines a plan. */
module Slices {
  import opened Common

  const MaxSegments: nat := 100000

  datatype Slice = Slice(first: nat, count: nat)

  /** The slices cover units 0..n in order, without gap or overlap. */
  ghost predicate OrderedPartition(plan: seq<Slice>, n: nat) {
    && |plan| > 0
    && plan[0].first == 0
    && (forall j, k :: 0 <= j < k < |plan| && k == j + 1 ==> plan[k].first == plan[j].first + plan[j].count)
    && plan[|plan| - 1].first + plan[|plan| - 1].count == n
  }

  predicate NonEmptySlices(plan: seq<Slice>) {
    forall k :: 0 <= k < |plan| ==> plan[k].count > 0
  }

  /** Boundaries of an ordered partition never decrease, so every slice lies inside 0..n. */
  lemma {:induction false} PartitionBounds(plan: seq<Slice>, n: nat, k: nat)
    requires OrderedPartition(plan, n) && k < |plan|
    ensures plan[k].first + plan[k].count <= n
    decreases |plan| - k
  {
    if k < |plan| - 1 {
      PartitionBounds(plan, n, k + 1);
    }
  }

  lemma {:induction false} PartitionStarts(plan: seq<Slice>, n: nat, k: nat)
    requires OrderedPartition(plan, n) && NonEmptySlices(plan) && k < |plan|
    ensures plan[k].first >= k
  {
    if k > 0 {
      PartitionStarts(plan, n, k - 1);
    }
  }

  /** A plan with non-empty slices never has more slices than units. */
  lemma PartitionSize(plan: seq<Slice>, n: nat)
    requires OrderedPartition(plan, n) && NonEmptySlices(plan)
    ensures |plan| <= n
  {
    PartitionStarts(plan, n, |plan| - 1);
  }

  /** The plan with one slice replaced by its two halves. */
  function Halved(plan: seq<Slice>, at: nat): (next: seq<Slice>)
    requires at < |plan|
    ensures |next| == |plan| + 1
  {
    var left := plan[at].count / 2;
    plan[..at] + [Slice(plan[at].first, left), Slice(plan[at].first + left, plan[at].count - left)] + plan[at + 1..]
  }

  /** Split one slice in half; the slice array grows in place by one entry. */
  method Bisect(plan: seq<Slice>, at: nat) returns (r: Result<seq<Slice>>)
    ensures r.Ok? <==> at < |plan| < MaxSegments && plan[at].count >= 2
    ensures r.Err? ==> r.error == if at >= |plan| || plan[at].count < 2 then InvalidArgument else OutOfRange
    ensures r.Ok? ==> |r.value| == |plan| + 1
    ensures forall n :: r.Ok? && OrderedPartition(plan, n) ==> OrderedPartition(r.value, n)
    ensures r.Ok? && NonEmptySlices(plan) ==> NonEmptySlices(r.value)
    ensures r.Ok? ==> r.value[..at] == plan[..at] && r.value[at + 2..] == plan[at + 1..]
    ensures r.Ok? ==> r.value[at].first == plan[at].first && r.value[at].count + r.value[at + 1].count == plan[at].count
    ensures r.Ok? ==> r.value == Halved(plan, at)
  {
    if at >= |plan| || plan[at].count < 2 {
      return Err(InvalidArgument);
    }
    if |plan| >= MaxSegments {
      return Err(OutOfRange);
    }
    var original := plan[at];
    var leftCount := original.count / 2;
    var next := plan[..at]
      + [Slice(original.first, leftCount), Slice(original.first + leftCount, original.count - leftCount)]
      + plan[at + 1..];
    forall n | OrderedPartition(plan, n) ensures OrderedPartition(next, n) {
      forall j, k | 0 <= j < k < |next| && k == j + 1 ensures next[k].first == next[j].first + next[j].count {
        if j < at {
          assert next[j] == plan[j];
        } else if j > at {
          assert next[k] == plan[k - 1];
          assert j > at + 1 ==> next[j] == plan[j - 1];
        }
      }
    }
    r := Ok(next);
  }
}
