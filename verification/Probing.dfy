/**
 Linear probing over a table whose size is a power of two: masking an index with size - 1 wraps it
 around at the end of the table.
 */
module Probing {
  /** The slot after the given one. */
  function Wrap(slot: nat, size: nat): (next: nat)
    requires slot < size
    ensures next < size
  {
    if slot + 1 == size then 0 else slot + 1
  }

  /** The k-th slot a search starting at home visits. */
  function At(home: nat, k: nat, size: nat): (slot: nat)
    requires home < size && k <= size
    ensures slot < size
  {
    if home + k < size then home + k else home + k - size
  }

  /** How far a search starting at home is from a slot; a full sweep visits every slot. */
  function Distance(home: nat, slot: nat, size: nat): (k: nat)
    requires home < size && slot < size
    ensures k < size && At(home, k, size) == slot
    ensures forall j :: 0 <= j < size && At(home, j, size) == slot ==> j == k
  {
    if home <= slot then slot - home else slot + size - home
  }

  function Range(n: nat): (s: set<nat>)
    ensures |s| == n && forall i :: i in s <==> 0 <= i < n
  {
    if n == 0 then {} else Range(n - 1) + {n - 1}
  }

  lemma SubsetSize<T>(a: set<T>, b: set<T>)
    requires a <= b
    ensures |a| <= |b|
  {
    assert b == a + (b - a);
  }

  /** Fewer owned slots than slots leave some slot free. */
  lemma FreeSlot(owned: set<nat>, size: nat) returns (slot: nat)
    requires |owned| < size
    ensures slot < size && slot !in owned
  {
    if Range(size) <= owned {
      SubsetSize(Range(size), owned);
    }
    slot :| slot in Range(size) && slot !in owned;
  }

  predicate PowerOfTwo(n: nat) {
    n == 1 || (n > 1 && n % 2 == 0 && PowerOfTwo(n / 2))
  }

  /** Smallest power of two that leaves the table at most half full. */
  method TableSize(records: nat) returns (size: nat)
    ensures size > 0 && size >= 2 * records && PowerOfTwo(size)
    ensures size > 1 ==> size / 2 < 2 * records
  {
    size := 1;
    while size < records * 2
      invariant size > 0 && PowerOfTwo(size)
      invariant size > 1 ==> size / 2 < 2 * records
      decreases records * 2 - size
    {
      size := size * 2;
    }
  }
}
