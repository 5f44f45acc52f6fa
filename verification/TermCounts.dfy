/** Occurrence and posting counts per term, and the payload bytes they imply. */
module TermCounts {
  import opened Common
  import opened Occurrences
  import opened LexicalFormat

  datatype Count = Count(occurrences: nat, postings: nat)

  type Counts = map<Bytes, Count>

  /** The three payloads a term contributes to. */
  datatype Part = Terms | Postings | Positions

  /** Bytes a term adds to one of the payloads. */
  function Cost(part: Part, term: Bytes, c: Count): nat {
    match part
    case Terms => 44 + |term|
    case Postings => 20 + 48 * c.postings + 16 * Blocks(c.postings)
    case Positions => 16 + 8 * c.occurrences
  }

  ghost function TotalCost(part: Part, m: Counts): nat
    decreases |m|
  {
    if |m| == 0 then 0
    else
      var t := Pick(m);
      assert (m - {t}).Keys == m.Keys - {t};
      Cost(part, t, m[t]) + TotalCost(part, m - {t})
  }

  ghost function Pick(m: Counts): (t: Bytes)
    requires |m| > 0
    ensures t in m
  {
    var t :| t in m;
    t
  }

  lemma TotalChoice(part: Part, m: Counts) returns (t: Bytes)
    requires |m| > 0
    ensures t in m && TotalCost(part, m) == Cost(part, t, m[t]) + TotalCost(part, m - {t})
  {
    t := Pick(m);
  }

  lemma Removed(m: Counts, t: Bytes, u: Bytes)
    requires t in m && u in m && t != u
    ensures t in m - {u} && (m - {u})[t] == m[t] && m - {u} - {t} == m - {t} - {u} && |m - {u}| < |m|
  {
    assert (m - {u}).Keys == m.Keys - {u};
    assert |m - {u}| == |(m - {u}).Keys| && |m| == |m.Keys|;
  }

  /** The sum does not depend on the order of the terms. */
  lemma {:induction false} TotalRemove(part: Part, m: Counts, t: Bytes)
    requires t in m
    ensures TotalCost(part, m) == Cost(part, t, m[t]) + TotalCost(part, m - {t})
    decreases |m|
  {
    hide Cost, TotalCost;
    var u := TotalChoice(part, m);
    if u != t {
      Removed(m, t, u);
      Removed(m, u, t);
      TotalRemove(part, m - {u}, t);
      TotalRemove(part, m - {t}, u);
    }
  }

  lemma TotalPut(part: Part, m: Counts, t: Bytes, c: Count)
    ensures TotalCost(part, m[t := c]) + (if t in m then Cost(part, t, m[t]) else 0) == TotalCost(part, m) + Cost(part, t, c)
  {
    hide Cost;
    TotalRemove(part, m[t := c], t);
    if t in m {
      TotalRemove(part, m, t);
      assert m[t := c] - {t} == m - {t};
    } else {
      assert m[t := c] - {t} == m;
    }
  }

  lemma TotalEmpty(part: Part)
    ensures TotalCost(part, map[]) == 0
  {
  }

  // ---------------------------------------------------------------- counting a list

  type Object = (nat, nat)

  function ObjectOf(o: Occurrence): Object {
    (o.objectType, o.ordinal)
  }

  function CountTerm(s: seq<Occurrence>, t: Bytes): nat {
    if |s| == 0 then 0 else CountTerm(s[..|s| - 1], t) + if s[|s| - 1].term == t then 1 else 0
  }

  ghost function Objects(s: seq<Occurrence>, t: Bytes): set<Object> {
    set i | 0 <= i < |s| && s[i].term == t :: ObjectOf(s[i])
  }

  ghost function TermSet(s: seq<Occurrence>): set<Bytes> {
    set i | 0 <= i < |s| :: s[i].term
  }

  /** For each term of the list: how often it occurs and in how many objects. */
  ghost function CountsOf(s: seq<Occurrence>): Counts {
    map t | t in TermSet(s) :: Count(CountTerm(s, t), |Objects(s, t)|)
  }

  lemma ObjectsConcat(a: seq<Occurrence>, b: seq<Occurrence>, t: Bytes)
    ensures Objects(a + b, t) == Objects(a, t) + Objects(b, t)
  {
    forall x | x in Objects(a, t) + Objects(b, t) ensures x in Objects(a + b, t) {
      if x in Objects(a, t) {
        var i :| 0 <= i < |a| && a[i].term == t && ObjectOf(a[i]) == x;
        assert (a + b)[i] == a[i];
      } else {
        var i :| 0 <= i < |b| && b[i].term == t && ObjectOf(b[i]) == x;
        assert (a + b)[|a| + i] == b[i];
      }
    }
    forall x | x in Objects(a + b, t) ensures x in Objects(a, t) + Objects(b, t) {
      var i :| 0 <= i < |a + b| && (a + b)[i].term == t && ObjectOf((a + b)[i]) == x;
      assert i < |a| ==> a[i].term == t;
      assert i >= |a| ==> b[i - |a|].term == t;
    }
  }

  lemma TermSetConcat(a: seq<Occurrence>, b: seq<Occurrence>)
    ensures TermSet(a + b) == TermSet(a) + TermSet(b)
  {
    forall x | x in TermSet(a) + TermSet(b) ensures x in TermSet(a + b) {
      if x in TermSet(a) {
        var i :| 0 <= i < |a| && a[i].term == x;
        assert (a + b)[i] == a[i];
      } else {
        var i :| 0 <= i < |b| && b[i].term == x;
        assert (a + b)[|a| + i] == b[i];
      }
    }
  }

  lemma {:induction false} CountConcat(a: seq<Occurrence>, b: seq<Occurrence>, t: Bytes)
    ensures CountTerm(a + b, t) == CountTerm(a, t) + CountTerm(b, t)
  {
    if |b| == 0 {
      assert a + b == a;
    } else {
      CountConcat(a, b[..|b| - 1], t);
      assert (a + b)[..|a + b| - 1] == a + b[..|b| - 1];
    }
  }

  /** Counts depend on which occurrences there are, not on their order. */
  lemma {:induction false} CountInsert(o: Occurrence, s: seq<Occurrence>, t: Bytes)
    ensures CountTerm(Insert(o, s), t) == CountTerm(s, t) + if o.term == t then 1 else 0
  {
    if |s| == 0 {
      assert Insert(o, s) == [o] && [o][..0] == [];
    } else if Before(o, s[0]) {
      CountConcat([o], s, t);
      assert [o][..0] == [];
    } else {
      CountInsert(o, s[1..], t);
      CountConcat([s[0]], Insert(o, s[1..]), t);
      CountConcat([s[0]], s[1..], t);
      assert s == [s[0]] + s[1..];
    }
  }

  lemma {:induction false} CountSort(s: seq<Occurrence>, t: Bytes)
    ensures CountTerm(Sort(s), t) == CountTerm(s, t)
  {
    if |s| > 0 {
      CountSort(s[1..], t);
      CountInsert(s[0], Sort(s[1..]), t);
      CountConcat([s[0]], s[1..], t);
      assert s == [s[0]] + s[1..] && [s[0]][..0] == [];
    }
  }

  lemma SortedMembers(s: seq<Occurrence>, o: Occurrence)
    ensures o in Sort(s) <==> o in s
  {
    SortMultiset(s);
    assert o in s <==> o in multiset(s);
    assert o in Sort(s) <==> o in multiset(Sort(s));
  }

  lemma SameMembers(a: seq<Occurrence>, b: seq<Occurrence>, t: Bytes)
    requires forall o :: o in a ==> o in b
    ensures Objects(a, t) <= Objects(b, t) && TermSet(a) <= TermSet(b)
  {
    forall x | x in Objects(a, t) ensures x in Objects(b, t) {
      var i :| 0 <= i < |a| && a[i].term == t && ObjectOf(a[i]) == x;
      assert a[i] in b;
      var j :| 0 <= j < |b| && b[j] == a[i];
    }
    forall x | x in TermSet(a) ensures x in TermSet(b) {
      var i :| 0 <= i < |a| && a[i].term == x;
      assert a[i] in b;
      var j :| 0 <= j < |b| && b[j] == a[i];
    }
  }

  lemma CountsSort(s: seq<Occurrence>)
    ensures CountsOf(Sort(s)) == CountsOf(s)
  {
    hide Sort, CountTerm;
    forall o ensures o in Sort(s) <==> o in s { SortedMembers(s, o); }
    SameMembers(s, Sort(s), []);
    SameMembers(Sort(s), s, []);
    forall t ensures Objects(Sort(s), t) == Objects(s, t) && CountTerm(Sort(s), t) == CountTerm(s, t) {
      SameMembers(s, Sort(s), t);
      SameMembers(Sort(s), s, t);
      CountSort(s, t);
    }
  }

  // ---------------------------------------------------------------- counts add up over disjoint objects

  function Lookup(m: Counts, t: Bytes): Count {
    if t in m then m[t] else Count(0, 0)
  }

  function Plus(a: Count, b: Count): Count {
    Count(a.occurrences + b.occurrences, a.postings + b.postings)
  }

  function Merge(a: Counts, b: Counts): Counts {
    map t | t in a.Keys + b.Keys :: Plus(Lookup(a, t), Lookup(b, t))
  }

  lemma {:induction false} AbsentTerm(s: seq<Occurrence>, t: Bytes)
    requires t !in TermSet(s)
    ensures CountTerm(s, t) == 0 && Objects(s, t) == {}
  {
    if |s| > 0 {
      var init := s[..|s| - 1];
      assert forall i :: 0 <= i < |init| ==> init[i] == s[i];
      assert TermSet(init) <= TermSet(s);
      AbsentTerm(init, t);
      assert s[|s| - 1].term in TermSet(s);
      assert forall i :: 0 <= i < |s| ==> s[i].term in TermSet(s);
    }
  }

  lemma LookupCounts(s: seq<Occurrence>, t: Bytes)
    ensures Lookup(CountsOf(s), t) == Count(CountTerm(s, t), |Objects(s, t)|)
  {
    hide CountTerm;
    if t !in TermSet(s) { AbsentTerm(s, t); }
  }

  lemma DisjointSize(a: set<Object>, b: set<Object>)
    requires a !! b
    ensures |a + b| == |a| + |b|
  {
  }

  lemma CountsConcat(a: seq<Occurrence>, b: seq<Occurrence>)
    requires forall t :: Objects(a, t) !! Objects(b, t)
    ensures CountsOf(a + b) == Merge(CountsOf(a), CountsOf(b))
  {
    hide CountTerm, Objects, TermSet;
    TermSetConcat(a, b);
    forall t | t in TermSet(a + b) ensures CountsOf(a + b)[t] == Plus(Lookup(CountsOf(a), t), Lookup(CountsOf(b), t)) {
      CountConcat(a, b, t);
      ObjectsConcat(a, b, t);
      DisjointSize(Objects(a, t), Objects(b, t));
      LookupCounts(a, t);
      LookupCounts(b, t);
    }
  }
}
