/** The admission limiter and what it keeps count of. */
module Ledger {
  import opened Common

  datatype Limit = Limit(inflight: nat, bytes: nat, maxInflight: nat, maxBytes: nat)

  predicate WithinMaxima(l: Limit) {
    l.inflight <= l.maxInflight && l.bytes <= l.maxBytes
  }

  /** One more request of n bytes, if both maxima allow it. */
  function Acquired(l: Limit, n: nat): Option<Limit> {
    if n == 0 || l.inflight >= l.maxInflight || n > l.maxBytes - l.bytes then None
    else Some(l.(inflight := l.inflight + 1, bytes := l.bytes + n))
  }

  /** A release that does not match anything held is ignored. */
  function Released(l: Limit, n: nat): Limit {
    if l.inflight > 0 && n <= l.bytes then l.(inflight := l.inflight - 1, bytes := l.bytes - n) else l
  }

  /** The limiter object: each method runs under its lock. */
  class Limiter {
    var limit: Limit

    constructor (maxInflight: nat, maxBytes: nat)
      ensures limit == Limit(0, 0, maxInflight, maxBytes)
    {
      limit := Limit(0, 0, maxInflight, maxBytes);
    }

    method Acquire(n: nat) returns (r: Result<bool>)
      modifies this
      ensures r.Ok? <==> Acquired(old(limit), n).Some?
      ensures limit == if r.Ok? then Acquired(old(limit), n).value else old(limit)
      ensures r.Err? ==> r.error == if n == 0 then InvalidArgument else OutOfRange
      ensures WithinMaxima(old(limit)) ==> WithinMaxima(limit)
    {
      if n == 0 {
        return Err(InvalidArgument);
      }
      if limit.inflight >= limit.maxInflight || n > limit.maxBytes - limit.bytes {
        return Err(OutOfRange);
      }
      limit := limit.(inflight := limit.inflight + 1, bytes := limit.bytes + n);
      return Ok(true);
    }

    method Release(n: nat)
      modifies this
      ensures limit == Released(old(limit), n)
      // undoes the acquire that led here, and takes nothing that no acquire could have added
      ensures forall before: Limit :: Acquired(before, n) == Some(old(limit)) ==> limit == before
      ensures old(limit).inflight == 0 || n > old(limit).bytes ==> limit == old(limit)
      ensures WithinMaxima(old(limit)) ==> WithinMaxima(limit)
      ensures limit.maxInflight == old(limit).maxInflight && limit.maxBytes == old(limit).maxBytes
    {
      if limit.inflight > 0 && n <= limit.bytes {
        limit := limit.(inflight := limit.inflight - 1, bytes := limit.bytes - n);
      }
    }
  }

  // ---------------------------------------------------------------- holders

  /** Bytes held per holder. */
  type Holders = map<nat, nat>

  ghost function Total(m: Holders): nat
    decreases |m|
  {
    if |m| == 0 then 0
    else
      var x := Any(m);
      assert (m - {x}).Keys == m.Keys - {x};
      m[x] + Total(m - {x})
  }

  ghost function Any(m: Holders): (x: nat)
    requires |m| > 0
    ensures x in m
  {
    var x :| x in m;
    x
  }

  lemma Without(m: Holders, x: nat, y: nat)
    requires x in m && y in m && x != y
    ensures y in m - {x} && (m - {x})[y] == m[y] && m - {x} - {y} == m - {y} - {x} && |m - {x}| < |m|
  {
    assert (m - {x}).Keys == m.Keys - {x};
    assert |m - {x}| == |(m - {x}).Keys| && |m| == |m.Keys|;
  }

  lemma {:induction false} TotalWithout(m: Holders, x: nat)
    requires x in m
    ensures Total(m) == m[x] + Total(m - {x})
    decreases |m|
  {
    var y := Any(m);
    if y != x {
      Without(m, y, x);
      Without(m, x, y);
      TotalWithout(m - {y}, x);
      TotalWithout(m - {x}, y);
    }
  }

  lemma SizeWithout(m: Holders, x: nat)
    requires x in m
    ensures |m - {x}| == |m| - 1
  {
    assert (m - {x}).Keys == m.Keys - {x};
    assert |m - {x}| == |(m - {x}).Keys| && |m| == |m.Keys|;
  }

  /** The limiter counts exactly the holders and their bytes. */
  ghost predicate Balanced(l: Limit, m: Holders) {
    l.inflight == |m| && l.bytes == Total(m) && WithinMaxima(l)
  }

  lemma AcquireBalances(l: Limit, m: Holders, x: nat, n: nat)
    requires Balanced(l, m) && x !in m && Acquired(l, n).Some?
    ensures Balanced(Acquired(l, n).value, m[x := n])
  {
    var after := m[x := n];
    TotalWithout(after, x);
    SizeWithout(after, x);
    assert after - {x} == m;
  }

  /** A holder's own release always matches, so it takes back exactly what was acquired. */
  lemma ReleaseBalances(l: Limit, m: Holders, x: nat)
    requires Balanced(l, m) && x in m
    ensures Balanced(Released(l, m[x]), m - {x})
    ensures Released(l, m[x]).inflight == l.inflight - 1 && Released(l, m[x]).bytes == l.bytes - m[x]
  {
    TotalWithout(m, x);
    SizeWithout(m, x);
  }

  lemma NobodyHolds(l: Limit)
    requires Balanced(l, map[])
    ensures l.inflight == 0 && l.bytes == 0
  {
  }
}
