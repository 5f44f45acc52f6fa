/** Token occurrences, their total order, and the lists that tokenizing a segment produces. */
module Occurrences {
  import opened Common
  import opened ByteOrder
  import opened Bm25

  const TitleField: nat := 1
  const BodyField: nat := 2
  const PassageField: nat := 3

  datatype Occurrence = Occurrence(term: Bytes, objectType: nat, ordinal: nat, field: nat, position: nat, fieldLength: nat)

  predicate SameObject(a: Occurrence, b: Occurrence) {
    a.objectType == b.objectType && a.ordinal == b.ordinal
  }

  predicate ObjectBefore(a: Occurrence, b: Occurrence) {
    a.objectType < b.objectType || (a.objectType == b.objectType && a.ordinal < b.ordinal)
  }

  predicate PlaceBefore(a: Occurrence, b: Occurrence) {
    a.field < b.field || (a.field == b.field && a.position < b.position)
  }

  /** Term, then object type, ordinal, field and position. */
  predicate Before(a: Occurrence, b: Occurrence) {
    || Less(a.term, b.term)
    || (a.term == b.term && ObjectBefore(a, b))
    || (a.term == b.term && SameObject(a, b) && PlaceBefore(a, b))
  }

  predicate SameKey(a: Occurrence, b: Occurrence) {
    a.term == b.term && SameObject(a, b) && a.field == b.field && a.position == b.position
  }

  lemma BeforeTransitive(a: Occurrence, b: Occurrence, c: Occurrence)
    requires Before(a, b) && Before(b, c)
    ensures Before(a, c)
  {
    if Less(a.term, b.term) && Less(b.term, c.term) { LessTransitive(a.term, b.term, c.term); }
  }

  lemma BeforeTotal(a: Occurrence, b: Occurrence)
    ensures SameKey(a, b) || Before(a, b) || Before(b, a)
  {
    LessTotal(a.term, b.term);
  }

  lemma BeforeIrreflexive(a: Occurrence, b: Occurrence)
    requires Before(a, b)
    ensures !SameKey(a, b) && !Before(b, a)
  {
    LessIrreflexive(a.term);
    if Less(a.term, b.term) { LessAsymmetric(a.term, b.term); }
  }

  predicate Ordered(s: seq<Occurrence>) {
    forall i, j :: 0 <= i < j < |s| ==> Before(s[i], s[j])
  }

  /** No two places of the list hold the same occurrence key. */
  predicate DistinctKeys(s: seq<Occurrence>) {
    forall i, j :: 0 <= i < j < |s| ==> !SameKey(s[i], s[j])
  }

  // ---------------------------------------------------------------- sorting

  function Insert(o: Occurrence, s: seq<Occurrence>): seq<Occurrence> {
    if |s| == 0 || Before(o, s[0]) then [o] + s else [s[0]] + Insert(o, s[1..])
  }

  function Sort(s: seq<Occurrence>): seq<Occurrence> {
    if |s| == 0 then [] else Insert(s[0], Sort(s[1..]))
  }

  lemma {:induction false} InsertMultiset(o: Occurrence, s: seq<Occurrence>)
    ensures multiset(Insert(o, s)) == multiset(s) + multiset{o}
  {
    if !(|s| == 0 || Before(o, s[0])) {
      InsertMultiset(o, s[1..]);
      assert s == [s[0]] + s[1..];
    }
  }

  lemma FirstAndRest(s: seq<Occurrence>)
    requires |s| > 0
    ensures multiset(s) == multiset(s[1..]) + multiset{s[0]}
  {
    assert s == [s[0]] + s[1..];
  }

  lemma {:induction false} SortMultiset(s: seq<Occurrence>)
    ensures multiset(Sort(s)) == multiset(s)
  {
    hide Insert;
    if |s| > 0 {
      SortMultiset(s[1..]);
      InsertMultiset(s[0], Sort(s[1..]));
      FirstAndRest(s);
    }
  }

  lemma {:induction false} InsertOrdered(o: Occurrence, s: seq<Occurrence>)
    requires Ordered(s) && forall i :: 0 <= i < |s| ==> !SameKey(o, s[i])
    ensures Ordered(Insert(o, s))
  {
    if |s| == 0 {
    } else if Before(o, s[0]) {
      forall j | 0 < j < |s| ensures Before(o, s[j]) { BeforeTransitive(o, s[0], s[j]); }
    } else {
      InsertOrdered(o, s[1..]);
      BeforeTotal(o, s[0]);
      var rest := Insert(o, s[1..]);
      InsertMultiset(o, s[1..]);
      forall j | 0 <= j < |rest| ensures Before(s[0], rest[j]) {
        assert rest[j] in multiset(rest);
        if rest[j] != o {
          var k :| 0 <= k < |s[1..]| && s[1..][k] == rest[j];
          assert s[k + 1] == rest[j];
        }
      }
    }
  }

  /** Sorting puts a list of distinct occurrences into strictly increasing order. */
  lemma {:induction false} SortOrdered(s: seq<Occurrence>)
    requires DistinctKeys(s)
    ensures Ordered(Sort(s))
  {
    if |s| > 0 {
      SortOrdered(s[1..]);
      var rest := Sort(s[1..]);
      SortMultiset(s[1..]);
      forall i | 0 <= i < |rest| ensures !SameKey(s[0], rest[i]) {
        assert rest[i] in multiset(s[1..]);
        var k :| 0 <= k < |s[1..]| && s[1..][k] == rest[i];
        assert s[k + 1] == rest[i];
      }
      InsertOrdered(s[0], rest);
    }
  }

  /** The order is total, so the sorted arrangement of given occurrences is unique. */
  lemma {:induction false} SortUnique(s: seq<Occurrence>, t: seq<Occurrence>)
    requires Ordered(s) && Ordered(t) && multiset(s) == multiset(t)
    ensures s == t
  {
    if |s| == 0 {
      assert |multiset(s)| == 0 && |multiset(t)| == |t|;
    } else {
      FirstAgrees(s, t);
      assert s == [s[0]] + s[1..] && t == [t[0]] + t[1..];
      assert multiset(s[1..]) == multiset(s) - multiset{s[0]} && multiset(t[1..]) == multiset(t) - multiset{t[0]};
      SortUnique(s[1..], t[1..]);
    }
  }

  lemma FirstAgrees(s: seq<Occurrence>, t: seq<Occurrence>)
    requires Ordered(s) && Ordered(t) && multiset(s) == multiset(t) && |s| > 0
    ensures |t| > 0 && s[0] == t[0]
  {
    assert s[0] in multiset(s) && s[0] in multiset(t);
    var i :| 0 <= i < |t| && t[i] == s[0];
    assert t[0] in multiset(t) && t[0] in multiset(s);
    var j :| 0 <= j < |s| && s[j] == t[0];
    if i > 0 && j > 0 {
      assert Before(t[0], s[0]) && Before(s[0], t[0]);
      BeforeIrreflexive(s[0], t[0]);
    }
  }

  // ---------------------------------------------------------------- tokenizing a segment

  /** Tokens of a document's title and body and of its passages. */
  datatype Unit = Unit(title: seq<Bytes>, body: seq<Bytes>, passages: seq<seq<Bytes>>)

  function FieldList(tokens: seq<Bytes>, objectType: nat, ordinal: nat, field: nat): seq<Occurrence> {
    seq(|tokens|, i requires 0 <= i < |tokens| => Occurrence(tokens[i], objectType, ordinal, field, i, |tokens|))
  }

  function DocumentList(u: Unit, ordinal: nat): seq<Occurrence> {
    FieldList(u.title, DocumentType, ordinal, TitleField) + FieldList(u.body, DocumentType, ordinal, BodyField)
  }

  function PassageList(passages: seq<seq<Bytes>>, base: nat): seq<Occurrence> {
    if |passages| == 0 then []
    else PassageList(passages[..|passages| - 1], base) + FieldList(passages[|passages| - 1], PassageType, base + |passages| - 1, PassageField)
  }

  /** What one prepared unit holds, with ordinals counted from zero. */
  function Prepared(u: Unit): seq<Occurrence> {
    DocumentList(u, 0) + PassageList(u.passages, 0)
  }

  /** Move a unit's ordinals behind the documents and passages of the units in front of it. */
  function Rebase(s: seq<Occurrence>, documents: nat, passages: nat): seq<Occurrence> {
    seq(|s|, i requires 0 <= i < |s| =>
      s[i].(ordinal := s[i].ordinal + if s[i].objectType == DocumentType then documents else passages))
  }

  function PassageCount(us: seq<Unit>): nat {
    if |us| == 0 then 0 else PassageCount(us[..|us| - 1]) + |us[|us| - 1].passages|
  }

  /** The occurrences of prepared units, each rebased, one unit after the other. */
  function Combined(us: seq<Unit>): seq<Occurrence> {
    if |us| == 0 then []
    else
      var init := us[..|us| - 1];
      Combined(init) + Rebase(Prepared(us[|us| - 1]), |init|, PassageCount(init))
  }

  function AllDocuments(us: seq<Unit>): seq<Occurrence> {
    if |us| == 0 then [] else AllDocuments(us[..|us| - 1]) + DocumentList(us[|us| - 1], |us| - 1)
  }

  function AllPassages(us: seq<Unit>): seq<seq<Bytes>> {
    if |us| == 0 then [] else AllPassages(us[..|us| - 1]) + us[|us| - 1].passages
  }

  /** The occurrences of tokenizing all documents first and then all passages. */
  function Direct(us: seq<Unit>): seq<Occurrence> {
    AllDocuments(us) + PassageList(AllPassages(us), 0)
  }

  // ---------------------------------------------------------------- every token, once

  predicate TokenAt(tokens: seq<Bytes>, o: Occurrence) {
    o.position < |tokens| && o.term == tokens[o.position] && o.fieldLength == |tokens|
  }

  /** Fields 1 and 2 are title and body of a document, object type 1; field 3 is a passage, object type 2. */
  predicate IsToken(us: seq<Unit>, o: Occurrence) {
    || (o.objectType == 1 && o.ordinal < |us| && o.field == 1 && TokenAt(us[o.ordinal].title, o))
    || (o.objectType == 1 && o.ordinal < |us| && o.field == 2 && TokenAt(us[o.ordinal].body, o))
    || (o.objectType == 2 && o.ordinal < |AllPassages(us)| && o.field == 3 && TokenAt(AllPassages(us)[o.ordinal], o))
  }

  lemma FieldListHas(tokens: seq<Bytes>, objectType: nat, ordinal: nat, field: nat, o: Occurrence)
    ensures o in FieldList(tokens, objectType, ordinal, field) <==>
            o.objectType == objectType && o.ordinal == ordinal && o.field == field && TokenAt(tokens, o)
  {
    if o.objectType == objectType && o.ordinal == ordinal && o.field == field && TokenAt(tokens, o) {
      assert FieldList(tokens, objectType, ordinal, field)[o.position] == o;
    }
  }

  lemma {:induction false} DocumentsHave(us: seq<Unit>, o: Occurrence)
    ensures o in AllDocuments(us) <==>
            o.objectType == 1 && o.ordinal < |us| && ((o.field == 1 && TokenAt(us[o.ordinal].title, o)) || (o.field == 2 && TokenAt(us[o.ordinal].body, o)))
  {
    hide FieldList, TokenAt;
    if |us| > 0 {
      var n := |us| - 1;
      DocumentsHave(us[..n], o);
      FieldListHas(us[n].title, DocumentType, n, TitleField, o);
      FieldListHas(us[n].body, DocumentType, n, BodyField, o);
    }
  }

  lemma {:induction false} PassagesHave(ps: seq<seq<Bytes>>, o: Occurrence)
    ensures o in PassageList(ps, 0) <==> o.objectType == 2 && o.ordinal < |ps| && o.field == 3 && TokenAt(ps[o.ordinal], o)
  {
    hide FieldList, TokenAt;
    if |ps| > 0 {
      var n := |ps| - 1;
      PassagesHave(ps[..n], o);
      FieldListHas(ps[n], PassageType, n, PassageField, o);
    }
  }

  /** The occurrences of a segment are exactly the tokens of its titles, bodies and passages at their places. */
  lemma DirectExactly(us: seq<Unit>, o: Occurrence)
    ensures o in Direct(us) <==> IsToken(us, o)
  {
    hide TokenAt;
    DocumentsHave(us, o);
    PassagesHave(AllPassages(us), o);
  }

  lemma RebaseField(tokens: seq<Bytes>, objectType: nat, ordinal: nat, field: nat, documents: nat, passages: nat)
    ensures Rebase(FieldList(tokens, objectType, ordinal, field), documents, passages) ==
            FieldList(tokens, objectType, ordinal + if objectType == DocumentType then documents else passages, field)
  {
  }

  lemma RebaseConcat(a: seq<Occurrence>, b: seq<Occurrence>, documents: nat, passages: nat)
    ensures Rebase(a + b, documents, passages) == Rebase(a, documents, passages) + Rebase(b, documents, passages)
  {
  }

  lemma {:induction false} RebasePassages(ps: seq<seq<Bytes>>, base: nat, documents: nat, passages: nat)
    ensures Rebase(PassageList(ps, base), documents, passages) == PassageList(ps, base + passages)
  {
    if |ps| > 0 {
      var init, n := ps[..|ps| - 1], |ps| - 1;
      RebasePassages(init, base, documents, passages);
      RebaseField(ps[n], PassageType, base + n, PassageField, documents, passages);
      RebaseConcat(PassageList(init, base), FieldList(ps[n], PassageType, base + n, PassageField), documents, passages);
    }
  }

  lemma RebasePrepared(u: Unit, documents: nat, passages: nat)
    ensures Rebase(Prepared(u), documents, passages) == DocumentList(u, documents) + PassageList(u.passages, passages)
  {
    hide FieldList, Rebase;
    RebaseField(u.title, DocumentType, 0, TitleField, documents, passages);
    RebaseField(u.body, DocumentType, 0, BodyField, documents, passages);
    RebaseConcat(FieldList(u.title, DocumentType, 0, TitleField), FieldList(u.body, DocumentType, 0, BodyField), documents, passages);
    RebasePassages(u.passages, 0, documents, passages);
    RebaseConcat(DocumentList(u, 0), PassageList(u.passages, 0), documents, passages);
  }

  lemma {:induction false} PassageListConcat(a: seq<seq<Bytes>>, b: seq<seq<Bytes>>, base: nat)
    ensures PassageList(a + b, base) == PassageList(a, base) + PassageList(b, base + |a|)
  {
    hide FieldList, PassageList;
    if |b| == 0 {
      assert a + b == a;
      NoPassageList(base + |a|);
      assert b == [];
    } else {
      var n := |b| - 1;
      PassageListConcat(a, b[..n], base);
      PassageListLast(a + b, base);
      PassageListLast(b, base + |a|);
      assert (a + b)[..|a + b| - 1] == a + b[..n] && (a + b)[|a + b| - 1] == b[n];
    }
  }

  lemma NoPassageList(base: nat)
    ensures PassageList([], base) == []
  {
  }

  lemma PassageListLast(ps: seq<seq<Bytes>>, base: nat)
    requires |ps| > 0
    ensures PassageList(ps, base) == PassageList(ps[..|ps| - 1], base) + FieldList(ps[|ps| - 1], PassageType, base + |ps| - 1, PassageField)
  {
    hide FieldList;
  }

  lemma {:induction false} PassagesCounted(us: seq<Unit>)
    ensures |AllPassages(us)| == PassageCount(us)
  {
    if |us| > 0 { PassagesCounted(us[..|us| - 1]); }
  }

  lemma CombinedLast(us: seq<Unit>, init: seq<Unit>, u: Unit)
    requires us == init + [u]
    ensures Combined(us) == Combined(init) + (DocumentList(u, |init|) + PassageList(u.passages, PassageCount(init)))
  {
    hide Rebase, Prepared, DocumentList, PassageList;
    RebasePrepared(u, |init|, PassageCount(init));
    assert us[..|us| - 1] == init;
  }

  lemma DirectParts(us: seq<Unit>, init: seq<Unit>, u: Unit)
    requires us == init + [u]
    ensures AllDocuments(us) == AllDocuments(init) + DocumentList(u, |init|)
    ensures AllPassages(us) == AllPassages(init) + u.passages
  {
    hide DocumentList;
    assert us[..|us| - 1] == init;
  }

  lemma DirectLast(us: seq<Unit>, init: seq<Unit>, u: Unit)
    requires us == init + [u]
    ensures Direct(us) == AllDocuments(init) + DocumentList(u, |init|) +
                          (PassageList(AllPassages(init), 0) + PassageList(u.passages, PassageCount(init)))
  {
    hide DocumentList, PassageList, AllDocuments, AllPassages, PassageCount;
    DirectParts(us, init, u);
    PassagesCounted(init);
    PassageListConcat(AllPassages(init), u.passages, 0);
  }

  lemma NoUnits(us: seq<Unit>)
    requires us == []
    ensures Combined(us) == Direct(us) == []
  {
  }

  lemma DirectIs(us: seq<Unit>)
    ensures Direct(us) == AllDocuments(us) + PassageList(AllPassages(us), 0)
  {
  }

  /** Both ways of tokenizing a segment produce the same occurrences, in different orders. */
  lemma {:induction false} CombinedIsDirect(us: seq<Unit>)
    ensures multiset(Combined(us)) == multiset(Direct(us))
  {
    hide *;
    if |us| == 0 {
      NoUnits(us);
    } else {
      var init, u := us[..|us| - 1], us[|us| - 1];
      CombinedIsDirect(init);
      assert us == init + [u];
      CombinedLast(us, init, u);
      DirectLast(us, init, u);
      DirectIs(init);
      Shuffle(Combined(init), AllDocuments(init), PassageList(AllPassages(init), 0),
              DocumentList(u, |init|), PassageList(u.passages, PassageCount(init)));
    }
  }

  lemma Shuffle(c: seq<Occurrence>, d: seq<Occurrence>, p: seq<Occurrence>, e: seq<Occurrence>, q: seq<Occurrence>)
    requires multiset(c) == multiset(d + p)
    ensures multiset(c + (e + q)) == multiset(d + e + (p + q))
  {
  }

  // ---------------------------------------------------------------- tokenized lists are well formed

  predicate SameField(a: Occurrence, b: Occurrence) {
    SameObject(a, b) && a.field == b.field
  }

  /** One occurrence of a segment with the given object counts. */
  predicate OccurrenceOk(o: Occurrence, documents: nat, passages: nat) {
    && |o.term| > 0 && TitleField <= o.field <= PassageField && o.position < o.fieldLength
    && (o.objectType == DocumentType || o.objectType == PassageType)
    && o.ordinal < if o.objectType == DocumentType then documents else passages
  }

  /** Every occurrence fits the segment, keys are distinct, and a field has one length, all of it in the list. */
  predicate ListOk(s: seq<Occurrence>, documents: nat, passages: nat) {
    && DistinctKeys(s)
    && (forall i :: 0 <= i < |s| ==> OccurrenceOk(s[i], documents, passages) && s[i].fieldLength <= |s|)
    && (forall i, j :: 0 <= i < |s| && 0 <= j < |s| && SameField(s[i], s[j]) ==> s[i].fieldLength == s[j].fieldLength)
  }

  lemma ListOkWider(s: seq<Occurrence>, d: nat, p: nat, documents: nat, passages: nat)
    requires ListOk(s, d, p) && d <= documents && p <= passages
    ensures ListOk(s, documents, passages)
  {
  }

  /** Lists about different fields can be put together. */
  lemma ListOkConcat(a: seq<Occurrence>, b: seq<Occurrence>, documents: nat, passages: nat)
    requires ListOk(a, documents, passages) && ListOk(b, documents, passages)
    requires forall i, j :: 0 <= i < |a| && 0 <= j < |b| ==> !SameField(a[i], b[j])
    ensures ListOk(a + b, documents, passages)
  {
    var s := a + b;
    forall i, j | 0 <= i < j < |s| ensures !SameKey(s[i], s[j]) {
      if i < |a| <= j { assert !SameField(a[i], b[j - |a|]); }
    }
    forall i, j | 0 <= i < |s| && 0 <= j < |s| ensures SameField(s[i], s[j]) ==> s[i].fieldLength == s[j].fieldLength {
      if i < |a| <= j {
        assert !SameField(a[i], b[j - |a|]);
      } else if j < |a| <= i {
        assert !SameField(a[j], b[i - |a|]);
      }
    }
  }

  predicate TokensOk(tokens: seq<Bytes>) {
    forall i :: 0 <= i < |tokens| ==> |tokens[i]| > 0
  }

  predicate UnitOk(u: Unit) {
    TokensOk(u.title) && TokensOk(u.body) && forall i :: 0 <= i < |u.passages| ==> TokensOk(u.passages[i])
  }

  lemma FieldListOk(tokens: seq<Bytes>, objectType: nat, ordinal: nat, field: nat, documents: nat, passages: nat)
    requires TokensOk(tokens) && TitleField <= field <= PassageField && (objectType == DocumentType || objectType == PassageType)
    requires ordinal < if objectType == DocumentType then documents else passages
    ensures ListOk(FieldList(tokens, objectType, ordinal, field), documents, passages)
  {
  }

  lemma EmptyListOk(documents: nat, passages: nat)
    ensures ListOk([], documents, passages)
  {
  }

  lemma FieldListObject(tokens: seq<Bytes>, objectType: nat, ordinal: nat, field: nat)
    ensures forall j :: 0 <= j < |FieldList(tokens, objectType, ordinal, field)| ==>
      FieldList(tokens, objectType, ordinal, field)[j].objectType == objectType && FieldList(tokens, objectType, ordinal, field)[j].ordinal == ordinal
  {
  }

  lemma {:induction false} PassageListOk(ps: seq<seq<Bytes>>, base: nat, documents: nat, passages: nat)
    requires (forall i :: 0 <= i < |ps| ==> TokensOk(ps[i])) && base + |ps| <= passages
    ensures ListOk(PassageList(ps, base), documents, passages)
    ensures forall i :: 0 <= i < |PassageList(ps, base)| ==>
      PassageList(ps, base)[i].objectType == PassageType && base <= PassageList(ps, base)[i].ordinal < base + |ps|
  {
    hide PassageList, ListOk, FieldList;
    if |ps| == 0 {
      assert ps == [];
      NoPassageList(base);
      EmptyListOk(documents, passages);
    } else {
      var init, n := ps[..|ps| - 1], |ps| - 1;
      PassageListLast(ps, base);
      PassageListOk(init, base, documents, passages);
      FieldListOk(ps[n], PassageType, base + n, PassageField, documents, passages);
      var a, b := PassageList(init, base), FieldList(ps[n], PassageType, base + n, PassageField);
      FieldListObject(ps[n], PassageType, base + n, PassageField);
      ListOkConcat(a, b, documents, passages);
    }
  }

  lemma DocumentListOk(u: Unit, ordinal: nat, documents: nat, passages: nat)
    requires UnitOk(u) && ordinal < documents
    ensures ListOk(DocumentList(u, ordinal), documents, passages)
    ensures forall i :: 0 <= i < |DocumentList(u, ordinal)| ==>
      DocumentList(u, ordinal)[i].objectType == DocumentType && DocumentList(u, ordinal)[i].ordinal == ordinal
  {
    FieldListOk(u.title, DocumentType, ordinal, TitleField, documents, passages);
    FieldListOk(u.body, DocumentType, ordinal, BodyField, documents, passages);
    var a, b := FieldList(u.title, DocumentType, ordinal, TitleField), FieldList(u.body, DocumentType, ordinal, BodyField);
    assert forall i :: 0 <= i < |a| ==> a[i].field == TitleField;
    assert forall i :: 0 <= i < |b| ==> b[i].field == BodyField;
    hide ListOk;
    ListOkConcat(a, b, documents, passages);
  }

  predicate UnitsOk(us: seq<Unit>) {
    forall i :: 0 <= i < |us| ==> UnitOk(us[i])
  }

  /** The combined list of any units is well formed for their document and passage counts. */
  lemma {:induction false} CombinedOk(us: seq<Unit>)
    requires UnitsOk(us)
    ensures ListOk(Combined(us), |us|, PassageCount(us))
  {
    if |us| > 0 {
      var init, u := us[..|us| - 1], us[|us| - 1];
      CombinedOk(init);
      assert us == init + [u];
      CombinedLast(us, init, u);
      var c, d, p := Combined(init), DocumentList(u, |init|), PassageList(u.passages, PassageCount(init));
      assert forall i :: 0 <= i < |c| ==> OccurrenceOk(c[i], |init|, PassageCount(init));
      DocumentListOk(u, |init|, |us|, PassageCount(us));
      PassageListOk(u.passages, PassageCount(init), |us|, PassageCount(us));
      ListOkWider(c, |init|, PassageCount(init), |us|, PassageCount(us));
      hide ListOk, DocumentList, PassageList, Combined;
      ListOkConcat(d, p, |us|, PassageCount(us));
      ListOkConcat(c, d + p, |us|, PassageCount(us));
    }
  }

  /**
   Writing prepared units with rebased ordinals sorts to exactly the list that tokenizing all
   documents and passages directly sorts to, so every payload built from it is identical.
   */
  lemma PreparedSortsAsDirect(us: seq<Unit>)
    requires UnitsOk(us)
    ensures Sort(Combined(us)) == Sort(Direct(us)) && Ordered(Sort(Direct(us)))
  {
    CombinedOk(us);
    CombinedIsDirect(us);
    SortMultiset(Combined(us));
    SortMultiset(Direct(us));
    SortOrdered(Combined(us));
    DirectDistinct(us);
    SortOrdered(Direct(us));
    SortUnique(Sort(Combined(us)), Sort(Direct(us)));
  }

  lemma {:induction false} AllDocumentsOk(us: seq<Unit>, passages: nat)
    requires UnitsOk(us)
    ensures ListOk(AllDocuments(us), |us|, passages)
    ensures forall i :: 0 <= i < |AllDocuments(us)| ==> AllDocuments(us)[i].objectType == DocumentType && AllDocuments(us)[i].ordinal < |us|
  {
    if |us| > 0 {
      var init, u := us[..|us| - 1], us[|us| - 1];
      AllDocumentsOk(init, passages);
      ListOkWider(AllDocuments(init), |init|, passages, |us|, passages);
      DocumentListOk(u, |init|, |us|, passages);
      hide ListOk, DocumentList;
      ListOkConcat(AllDocuments(init), DocumentList(u, |init|), |us|, passages);
    }
  }

  lemma {:induction false} AllPassagesOk(us: seq<Unit>)
    requires UnitsOk(us)
    ensures forall i :: 0 <= i < |AllPassages(us)| ==> TokensOk(AllPassages(us)[i])
  {
    if |us| > 0 {
      AllPassagesOk(us[..|us| - 1]);
      assert UnitOk(us[|us| - 1]);
    }
  }

  lemma DirectDistinct(us: seq<Unit>)
    requires UnitsOk(us)
    ensures DistinctKeys(Direct(us))
  {
    var n := |AllPassages(us)|;
    AllDocumentsOk(us, n);
    AllPassagesOk(us);
    PassageListOk(AllPassages(us), 0, |us|, n);
    ListOkConcat(AllDocuments(us), PassageList(AllPassages(us), 0), |us|, n);
  }

  /** A prepared unit as the writer receives it. */
  datatype PreparedUnit = PreparedUnit(items: seq<Occurrence>, documents: nat, passages: nat)

  function PreparedUnits(us: seq<Unit>): seq<PreparedUnit> {
    seq(|us|, i requires 0 <= i < |us| => PreparedUnit(Prepared(us[i]), 1, |us[i].passages|))
  }

  /** Copy the items of one unit, adding its bases. */
  method RebaseItems(items: seq<Occurrence>, documents: nat, passages: nat) returns (moved: seq<Occurrence>)
    ensures moved == Rebase(items, documents, passages)
  {
    moved := [];
    for j := 0 to |items|
      invariant |moved| == j && moved == Rebase(items, documents, passages)[..j]
    {
      var o := items[j];
      if o.objectType == DocumentType {
        moved := moved + [o.(ordinal := o.ordinal + documents)];
      } else {
        moved := moved + [o.(ordinal := o.ordinal + passages)];
      }
    }
  }

  lemma NothingCombined(us: seq<Unit>)
    requires us == []
    ensures Combined(us) == [] && PassageCount(us) == 0
  {
  }

  lemma CombinedStep(us: seq<Unit>, i: nat)
    requires i < |us|
    ensures Combined(us[..i + 1]) == Combined(us[..i]) + Rebase(Prepared(us[i]), i, PassageCount(us[..i]))
    ensures PassageCount(us[..i + 1]) == PassageCount(us[..i]) + |us[i].passages|
  {
    hide Rebase, Prepared;
    assert us[..i + 1][..i] == us[..i] && us[..i + 1][i] == us[i];
  }

  /** Copy the items of all prepared units into one list, adding the bases counted so far. */
  method CombinePrepared(units: seq<PreparedUnit>, ghost us: seq<Unit>)
    returns (combined: seq<Occurrence>, documents: nat, passages: nat)
    requires units == PreparedUnits(us)
    ensures combined == Combined(us) && documents == |us| && passages == PassageCount(us)
  {
    hide Prepared, Combined, PassageCount;
    combined, documents, passages := [], 0, 0;
    NothingCombined(us[..0]);
    for i := 0 to |units|
      invariant combined == Combined(us[..i]) && documents == i && passages == PassageCount(us[..i])
    {
      var moved := RebaseItems(units[i].items, documents, passages);
      CombinedStep(us, i);
      combined := combined + moved;
      documents, passages := documents + units[i].documents, passages + units[i].passages;
    }
    assert us[..|us|] == us;
  }
}
