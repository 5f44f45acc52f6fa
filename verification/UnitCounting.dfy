/** Term counts of prepared units: scanned once per unit, added up over a slice. */
module UnitCounting {
  import opened Common
  import opened Bm25
  import opened Occurrences
  import opened TermCounts

  // ---------------------------------------------------------------- one more occurrence

  lemma ObjectsStep(s: seq<Occurrence>, o: Occurrence, t: Bytes)
    ensures Objects(s + [o], t) == if o.term == t then Objects(s, t) + {ObjectOf(o)} else Objects(s, t)
    ensures CountTerm(s + [o], t) == CountTerm(s, t) + if o.term == t then 1 else 0
    ensures TermSet(s + [o]) == TermSet(s) + {o.term}
  {
    ObjectsConcat(s, [o], t);
    TermSetConcat(s, [o]);
    assert Objects([o], t) == if o.term == t then {ObjectOf(o)} else {} by {
      assert [o][0] == o;
    }
    assert TermSet([o]) == {o.term} by {
      assert [o][0] == o;
    }
    assert (s + [o])[..|s|] == s;
  }

  // ---------------------------------------------------------------- rebasing keeps counts

  lemma RebasedMember(s: seq<Occurrence>, documents: nat, passages: nat, o: Occurrence, t: Bytes)
    requires forall i :: 0 <= i < |s| ==> s[i].objectType == DocumentType || s[i].objectType == PassageType
    requires o.objectType == DocumentType || o.objectType == PassageType
    ensures ObjectOf(o) in Objects(s, t) <==> ObjectOf(Rebase([o], documents, passages)[0]) in Objects(Rebase(s, documents, passages), t)
  {
    var r := Rebase(s, documents, passages);
    var x := ObjectOf(Rebase([o], documents, passages)[0]);
    if ObjectOf(o) in Objects(s, t) {
      var i :| 0 <= i < |s| && s[i].term == t && ObjectOf(s[i]) == ObjectOf(o);
      assert r[i].term == t && ObjectOf(r[i]) == x;
    }
    if x in Objects(r, t) {
      var i :| 0 <= i < |r| && r[i].term == t && ObjectOf(r[i]) == x;
      assert s[i].term == t && ObjectOf(s[i]) == ObjectOf(o);
    }
  }

  predicate KnownTypes(s: seq<Occurrence>) {
    forall i :: 0 <= i < |s| ==> s[i].objectType == DocumentType || s[i].objectType == PassageType
  }

  lemma RebaseLast(s: seq<Occurrence>, documents: nat, passages: nat) returns (p: Occurrence)
    requires |s| > 0 && KnownTypes(s)
    ensures var init, o := s[..|s| - 1], s[|s| - 1];
      && s == init + [o] && Rebase(s, documents, passages) == Rebase(init, documents, passages) + [p] && p.term == o.term && KnownTypes(init)
      && (forall t :: ObjectOf(o) in Objects(init, t) <==> ObjectOf(p) in Objects(Rebase(init, documents, passages), t))
  {
    var init, o := s[..|s| - 1], s[|s| - 1];
    p := Rebase([o], documents, passages)[0];
    forall t ensures ObjectOf(o) in Objects(init, t) <==> ObjectOf(p) in Objects(Rebase(init, documents, passages), t) {
      RebasedMember(init, documents, passages, o, t);
    }
  }

  lemma {:induction false} RebaseTermCounts(s: seq<Occurrence>, documents: nat, passages: nat, t: Bytes)
    requires KnownTypes(s)
    ensures CountTerm(Rebase(s, documents, passages), t) == CountTerm(s, t)
    ensures |Objects(Rebase(s, documents, passages), t)| == |Objects(s, t)|
  {
    if |s| > 0 {
      hide Objects, CountTerm, TermSet, Rebase, ObjectOf;
      var init, o := s[..|s| - 1], s[|s| - 1];
      var p := RebaseLast(s, documents, passages);
      RebaseTermCounts(init, documents, passages, t);
      ObjectsStep(init, o, t);
      ObjectsStep(Rebase(init, documents, passages), p, t);
      OneMore(Objects(init, t), Objects(Rebase(init, documents, passages), t), ObjectOf(o), ObjectOf(p));
    } else {
      assert Rebase(s, documents, passages) == s;
    }
  }

  lemma OneMore(a: set<Object>, b: set<Object>, x: Object, y: Object)
    requires |a| == |b| && (x in a <==> y in b)
    ensures |a + {x}| == |b + {y}|
  {
    if x in a {
      assert a + {x} == a && b + {y} == b;
    }
  }

  lemma RebaseCounts(s: seq<Occurrence>, documents: nat, passages: nat)
    requires KnownTypes(s)
    ensures CountsOf(Rebase(s, documents, passages)) == CountsOf(s)
  {
    var r := Rebase(s, documents, passages);
    assert forall i :: 0 <= i < |s| ==> r[i].term == s[i].term;
    assert TermSet(r) == TermSet(s);
    hide CountTerm, Objects, Rebase, TermSet;
    forall t ensures CountTerm(r, t) == CountTerm(s, t) && |Objects(r, t)| == |Objects(s, t)| { RebaseTermCounts(s, documents, passages, t); }
  }

  // ---------------------------------------------------------------- a slice of units

  lemma {:induction false} PreparedPassages(ps: seq<seq<Bytes>>, base: nat)
    ensures forall i :: 0 <= i < |PassageList(ps, base)| ==>
      PassageList(ps, base)[i].objectType == PassageType && base <= PassageList(ps, base)[i].ordinal < base + |ps|
  {
    if |ps| > 0 { PreparedPassages(ps[..|ps| - 1], base); }
  }

  lemma PreparedTypes(u: Unit)
    ensures KnownTypes(Prepared(u))
    ensures forall i :: 0 <= i < |Prepared(u)| ==>
      if Prepared(u)[i].objectType == DocumentType then Prepared(u)[i].ordinal == 0 else Prepared(u)[i].ordinal < |u.passages|
  {
    PreparedPassages(u.passages, 0);
    hide PassageList;
  }

  /** Every object of the combined list belongs to one of its units. */
  lemma {:induction false} CombinedObjects(us: seq<Unit>)
    ensures forall i :: 0 <= i < |Combined(us)| ==>
      || (Combined(us)[i].objectType == DocumentType && Combined(us)[i].ordinal < |us|)
      || (Combined(us)[i].objectType == PassageType && Combined(us)[i].ordinal < PassageCount(us))
  {
    if |us| > 0 {
      var init, u := us[..|us| - 1], us[|us| - 1];
      CombinedObjects(init);
      PreparedTypes(u);
      hide Prepared;
    }
  }

  lemma DisjointUnits(a: seq<Occurrence>, b: seq<Occurrence>, documents: nat, passages: nat, t: Bytes)
    requires forall i :: 0 <= i < |a| ==>
      (a[i].objectType == DocumentType && a[i].ordinal < documents) || (a[i].objectType == PassageType && a[i].ordinal < passages)
    requires forall i :: 0 <= i < |b| ==>
      (b[i].objectType == DocumentType && b[i].ordinal >= documents) || (b[i].objectType == PassageType && b[i].ordinal >= passages)
    ensures Objects(a, t) !! Objects(b, t)
  {
  }

  /** Adding a unit to a slice adds its counts, term by term. */
  lemma CombinedCounts(us: seq<Unit>, u: Unit)
    ensures CountsOf(Combined(us + [u])) == Merge(CountsOf(Combined(us)), CountsOf(Prepared(u)))
  {
    var moved := Rebase(Prepared(u), |us|, PassageCount(us));
    assert (us + [u])[..|us|] == us;
    assert Combined(us + [u]) == Combined(us) + moved;
    PreparedTypes(u);
    CombinedObjects(us);
    RebaseCounts(Prepared(u), |us|, PassageCount(us));
    forall t ensures Objects(Combined(us), t) !! Objects(moved, t) { DisjointUnits(Combined(us), moved, |us|, PassageCount(us), t); }
    hide *;
    CountsConcat(Combined(us), moved);
  }

  // ---------------------------------------------------------------- scanning one unit

  /** The key under which the scan remembers an object: documents are 0, passages one past their ordinal. */
  function ScanKey(o: Occurrence): nat {
    if o.objectType == DocumentType then 0 else o.ordinal + 1
  }

  datatype Slot = Slot(occurrences: nat, postings: nat, last: nat)

  /** Objects come in the order of their keys, and a key stands for one object. */
  predicate Scannable(s: seq<Occurrence>) {
    && (forall i, j :: 0 <= i < j < |s| ==> ScanKey(s[i]) <= ScanKey(s[j]))
    && (forall i :: 0 <= i < |s| ==> (s[i].objectType == DocumentType && s[i].ordinal == 0) || s[i].objectType == PassageType)
  }

  lemma PreparedScannable(u: Unit)
    ensures Scannable(Prepared(u))
  {
    PassagesAscend(u.passages, 0);
    PreparedTypes(u);
    PreparedPassages(u.passages, 0);
    hide PassageList;
    var d, p := DocumentList(u, 0), PassageList(u.passages, 0);
    assert forall i :: 0 <= i < |d| ==> d[i].objectType == DocumentType && d[i].ordinal == 0;
    assert Prepared(u) == d + p;
  }

  lemma {:induction false} PassagesAscend(ps: seq<seq<Bytes>>, base: nat)
    ensures forall i, j :: 0 <= i < j < |PassageList(ps, base)| ==> PassageList(ps, base)[i].ordinal <= PassageList(ps, base)[j].ordinal
  {
    if |ps| > 0 {
      PassagesAscend(ps[..|ps| - 1], base);
      PreparedPassages(ps[..|ps| - 1], base);
    }
  }

  /** The scan so far: counts per term and the key of the object seen last. */
  ghost predicate ScanState(s: seq<Occurrence>, m: map<Bytes, Slot>) {
    && m.Keys == TermSet(s)
    && forall t :: t in m ==> SlotOk(s, t, m[t])
  }

  ghost predicate SlotOk(s: seq<Occurrence>, t: Bytes, slot: Slot) {
    && slot.occurrences == CountTerm(s, t) && slot.postings == |Objects(s, t)|
    && (exists i :: 0 <= i < |s| && s[i].term == t && ScanKey(s[i]) == slot.last)
    && (forall i :: 0 <= i < |s| && s[i].term == t ==> ScanKey(s[i]) <= slot.last)
  }

  lemma OldObject(s: seq<Occurrence>, o: Occurrence, slot: Slot)
    requires Scannable(s + [o]) && SlotOk(s, o.term, slot)
    ensures ObjectOf(o) in Objects(s, o.term) <==> slot.last == ScanKey(o)
  {
    var full := s + [o];
    assert full[|s|] == o && forall i :: 0 <= i < |s| ==> full[i] == s[i];
    var i :| 0 <= i < |s| && s[i].term == o.term && ScanKey(s[i]) == slot.last;
    if slot.last == ScanKey(o) {
      assert ObjectOf(s[i]) == ObjectOf(o);
    }
    if ObjectOf(o) in Objects(s, o.term) {
      var j :| 0 <= j < |s| && s[j].term == o.term && ObjectOf(s[j]) == ObjectOf(o);
      assert ScanKey(full[i]) <= ScanKey(full[|s|]);
    }
  }

  lemma SlotStep(s: seq<Occurrence>, o: Occurrence, slot: Slot)
    requires Scannable(s + [o]) && SlotOk(s, o.term, slot)
    ensures SlotOk(s + [o], o.term, Slot(slot.occurrences + 1, if slot.last != ScanKey(o) then slot.postings + 1 else slot.postings, ScanKey(o)))
  {
    hide Objects, CountTerm, TermSet, Scannable, ScanKey;
    OldObject(s, o, slot);
    ObjectsStep(s, o, o.term);
    LastKey(s, o);
    assert (s + [o])[|s|] == o;
  }

  lemma LastKey(s: seq<Occurrence>, o: Occurrence)
    requires Scannable(s + [o])
    ensures forall i :: 0 <= i < |s + [o]| ==> ScanKey((s + [o])[i]) <= ScanKey(o)
  {
    var full := s + [o];
    forall i | 0 <= i < |full| ensures ScanKey(full[i]) <= ScanKey(o) { assert i < |s| ==> ScanKey(full[i]) <= ScanKey(full[|s|]); }
  }

  lemma SlotNew(s: seq<Occurrence>, o: Occurrence)
    requires o.term !in TermSet(s)
    ensures SlotOk(s + [o], o.term, Slot(1, 1, ScanKey(o)))
  {
    AbsentTerm(s, o.term);
    ObjectsStep(s, o, o.term);
    var full := s + [o];
    assert full[|s|] == o;
    assert forall i :: 0 <= i < |s| ==> s[i].term in TermSet(s);
  }

  lemma SlotOther(s: seq<Occurrence>, o: Occurrence, t: Bytes, slot: Slot)
    requires t != o.term && SlotOk(s, t, slot)
    ensures SlotOk(s + [o], t, slot)
  {
    ObjectsStep(s, o, t);
    var full := s + [o];
    var i :| 0 <= i < |s| && s[i].term == t && ScanKey(s[i]) == slot.last;
    assert full[i].term == t && ScanKey(full[i]) == slot.last;
  }

  lemma ScanStep(s: seq<Occurrence>, o: Occurrence, m: map<Bytes, Slot>, slot: Slot)
    requires ScanState(s, m) && SlotOk(s + [o], o.term, slot)
    ensures ScanState(s + [o], m[o.term := slot])
  {
    hide SlotOk, TermSet;
    ObjectsStep(s, o, o.term);
    forall t | t in m && t != o.term ensures SlotOk(s + [o], t, m[t]) { SlotOther(s, o, t, m[t]); }
  }

  /** One pass over a prepared unit counts occurrences and postings of every term. */
  method ScanUnit(s: seq<Occurrence>) returns (m: map<Bytes, Slot>)
    requires Scannable(s)
    ensures ScanState(s, m)
  {
    hide SlotOk, TermSet, Scannable, CountTerm, Objects;
    m := map[];
    EmptyTerms();
    for n := 0 to |s|
      invariant ScanState(s[..n], m)
    {
      var o := s[n];
      assert s[..n + 1] == s[..n] + [o];
      ScannablePrefix(s, n + 1);
      var slot := Slot(1, 1, ScanKey(o));
      if o.term in m {
        var before := m[o.term];
        SlotStep(s[..n], o, before);
        slot := Slot(before.occurrences + 1, if before.last != ScanKey(o) then before.postings + 1 else before.postings, ScanKey(o));
      } else {
        SlotNew(s[..n], o);
      }
      ScanStep(s[..n], o, m, slot);
      m := m[o.term := slot];
    }
    assert s[..|s|] == s;
  }

  lemma EmptyTerms()
    ensures TermSet([]) == {}
  {
  }

  lemma ScannablePrefix(s: seq<Occurrence>, n: nat)
    requires Scannable(s) && n <= |s|
    ensures Scannable(s[..n])
  {
  }

  function CountsFrom(m: map<Bytes, Slot>): Counts {
    map t | t in m :: Count(m[t].occurrences, m[t].postings)
  }

  lemma ScanCounts(s: seq<Occurrence>, m: map<Bytes, Slot>)
    requires ScanState(s, m)
    ensures CountsFrom(m) == CountsOf(s)
  {
  }
}
