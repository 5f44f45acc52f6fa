/** Occurrences grouped into terms and postings: what the lexical payloads store. */
module LexicalGroups {
  import opened Common
  import opened ByteOrder
  import opened Bm25
  import opened Occurrences

  /** A term with its postings, in the order of their objects. */
  datatype Group = Group(term: Bytes, postings: seq<Posting>)

  function AddPosition(p: Posting, o: Occurrence): Posting
    requires |p.tf| == 3 && |p.length| == 3 && TitleField <= o.field <= PassageField
  {
    p.(tf := p.tf[o.field - 1 := p.tf[o.field - 1] + 1], length := p.length[o.field - 1 := o.fieldLength],
       positions := p.positions + [Position(o.field, o.position)])
  }

  function NewPosting(o: Occurrence): Posting
    requires TitleField <= o.field <= PassageField
  {
    AddPosition(Posting(o.objectType, o.ordinal, [0, 0, 0], [0, 0, 0], []), o)
  }

  predicate OfObject(p: Posting, o: Occurrence) {
    p.objectType == o.objectType && p.ordinal == o.ordinal
  }

  predicate Sized(p: Posting) {
    |p.tf| == 3 && |p.length| == 3 && forall i :: 0 <= i < |p.positions| ==> TitleField <= p.positions[i].field <= PassageField
  }

  predicate SizedPostings(ps: seq<Posting>) {
    |ps| > 0 && forall i :: 0 <= i < |ps| ==> Sized(ps[i])
  }

  predicate SizedGroups(gs: seq<Group>) {
    forall i :: 0 <= i < |gs| ==> SizedPostings(gs[i].postings)
  }

  /** Extend the last posting, or start a new one. */
  function AddToPostings(ps: seq<Posting>, o: Occurrence): seq<Posting>
    requires SizedPostings(ps) && TitleField <= o.field <= PassageField
  {
    var last := ps[|ps| - 1];
    if OfObject(last, o) then ps[..|ps| - 1] + [AddPosition(last, o)] else ps + [NewPosting(o)]
  }

  /** Extend the last group, or start a new one. */
  function Add(gs: seq<Group>, o: Occurrence): (r: seq<Group>)
    requires SizedGroups(gs) && TitleField <= o.field <= PassageField
    ensures SizedGroups(r)
  {
    if |gs| > 0 && gs[|gs| - 1].term == o.term then
      gs[..|gs| - 1] + [Group(o.term, AddToPostings(gs[|gs| - 1].postings, o))]
    else gs + [Group(o.term, [NewPosting(o)])]
  }

  predicate FieldsInRange(s: seq<Occurrence>) {
    forall i :: 0 <= i < |s| ==> TitleField <= s[i].field <= PassageField
  }

  function Groups(s: seq<Occurrence>): (r: seq<Group>)
    requires FieldsInRange(s)
    ensures SizedGroups(r)
  {
    if |s| == 0 then [] else Add(Groups(s[..|s| - 1]), s[|s| - 1])
  }

  lemma SortFields(a: seq<Occurrence>)
    requires FieldsInRange(a)
    ensures FieldsInRange(Sort(a))
  {
    SortMultiset(a);
    forall i | 0 <= i < |Sort(a)| ensures TitleField <= Sort(a)[i].field <= PassageField {
      assert Sort(a)[i] in multiset(a);
    }
  }

  /** The groups of a list in any order: sort, then group. */
  function Grouped(s: seq<Occurrence>): (r: seq<Group>)
    requires FieldsInRange(s)
    ensures SizedGroups(r)
  {
    SortFields(s);
    Groups(Sort(s))
  }

  // ---------------------------------------------------------------- reading groups back

  function PostingList(term: Bytes, p: Posting, n: nat): seq<Occurrence>
    requires Sized(p) && n <= |p.positions|
  {
    seq(n, i requires 0 <= i < n =>
      Occurrence(term, p.objectType, p.ordinal, p.positions[i].field, p.positions[i].position, p.length[p.positions[i].field - 1]))
  }

  function PostingsList(term: Bytes, ps: seq<Posting>): seq<Occurrence>
    requires forall i :: 0 <= i < |ps| ==> Sized(ps[i])
  {
    if |ps| == 0 then []
    else PostingsList(term, ps[..|ps| - 1]) + PostingList(term, ps[|ps| - 1], |ps[|ps| - 1].positions|)
  }

  function Flatten(gs: seq<Group>): seq<Occurrence>
    requires SizedGroups(gs)
  {
    if |gs| == 0 then [] else Flatten(gs[..|gs| - 1]) + PostingsList(gs[|gs| - 1].term, gs[|gs| - 1].postings)
  }

  predicate FieldsAgree(s: seq<Occurrence>) {
    forall i, j :: 0 <= i < |s| && 0 <= j < |s| && SameField(s[i], s[j]) ==> s[i].fieldLength == s[j].fieldLength
  }

  /** The posting's own length for the field of o is the length o has, if the field occurs. */
  predicate Agrees(p: Posting, o: Occurrence)
    requires Sized(p)
  {
    forall i :: 0 <= i < |p.positions| && p.positions[i].field == o.field ==> p.length[o.field - 1] == o.fieldLength
  }

  lemma AddPositionList(term: Bytes, p: Posting, o: Occurrence)
    requires Sized(p) && OfObject(p, o) && o.term == term && TitleField <= o.field <= PassageField && Agrees(p, o)
    ensures Sized(AddPosition(p, o))
    ensures PostingList(term, AddPosition(p, o), |p.positions| + 1) == PostingList(term, p, |p.positions|) + [o]
  {
    var q := AddPosition(p, o);
    forall i | 0 <= i < |p.positions|
      ensures q.positions[i] == p.positions[i] && q.length[p.positions[i].field - 1] == p.length[p.positions[i].field - 1]
    {
    }
  }

  lemma AddToPostingsList(term: Bytes, ps: seq<Posting>, o: Occurrence)
    requires SizedPostings(ps) && o.term == term && TitleField <= o.field <= PassageField
    requires OfObject(ps[|ps| - 1], o) ==> Agrees(ps[|ps| - 1], o)
    ensures SizedPostings(AddToPostings(ps, o)) && PostingsList(term, AddToPostings(ps, o)) == PostingsList(term, ps) + [o]
  {
    hide PostingList;
    var n := |ps| - 1;
    if OfObject(ps[n], o) {
      AddPositionList(term, ps[n], o);
      var after := AddToPostings(ps, o);
      assert after[..n] == ps[..n];
    } else {
      NewPostingList(term, o);
      assert (ps + [NewPosting(o)])[..|ps|] == ps;
    }
  }

  lemma NewPostingList(term: Bytes, o: Occurrence)
    requires o.term == term && TitleField <= o.field <= PassageField
    ensures Sized(NewPosting(o)) && PostingList(term, NewPosting(o), 1) == [o] && |NewPosting(o).positions| == 1
  {
  }

  lemma AddList(gs: seq<Group>, o: Occurrence)
    requires SizedGroups(gs) && TitleField <= o.field <= PassageField
    requires |gs| > 0 && gs[|gs| - 1].term == o.term ==>
      var ps := gs[|gs| - 1].postings; OfObject(ps[|ps| - 1], o) ==> Agrees(ps[|ps| - 1], o)
    ensures Flatten(Add(gs, o)) == Flatten(gs) + [o]
  {
    hide PostingsList, AddToPostings;
    var n := |gs| - 1;
    if |gs| > 0 && gs[n].term == o.term {
      AddToPostingsList(o.term, gs[n].postings, o);
      assert Add(gs, o)[..n] == gs[..n];
      assert Flatten(gs) == Flatten(gs[..n]) + PostingsList(o.term, gs[n].postings);
    } else {
      OnePosting(o);
      assert Add(gs, o)[..|gs|] == gs;
    }
  }

  lemma OnePosting(o: Occurrence)
    requires TitleField <= o.field <= PassageField
    ensures Sized(NewPosting(o)) && PostingsList(o.term, [NewPosting(o)]) == [o]
  {
    NewPostingList(o.term, o);
    assert [NewPosting(o)][..0] == [];
  }

  /** The last posting lists occurrences that are in the flattened groups. */
  lemma LastPostingListed(gs: seq<Group>, i: nat)
    requires SizedGroups(gs) && |gs| > 0
    requires var ps := gs[|gs| - 1].postings; i < |ps[|ps| - 1].positions|
    ensures var g := gs[|gs| - 1]; var p := g.postings[|g.postings| - 1];
      Occurrence(g.term, p.objectType, p.ordinal, p.positions[i].field, p.positions[i].position, p.length[p.positions[i].field - 1]) in Flatten(gs)
  {
    var g := gs[|gs| - 1];
    var p := g.postings[|g.postings| - 1];
    var list := PostingList(g.term, p, |p.positions|);
    assert list[i] in list;
    assert list[i] in PostingsList(g.term, g.postings);
  }

  /** Nothing is lost or invented: the groups hold exactly the listed occurrences, in order. */
  lemma {:induction false} FlattenGroups(s: seq<Occurrence>)
    requires FieldsInRange(s) && FieldsAgree(s)
    ensures Flatten(Groups(s)) == s
  {
    if |s| > 0 {
      hide *;
      GroupsUnfold(s);
      FlattenGroups(s[..|s| - 1]);
      FlattenStep(s, Groups(s[..|s| - 1]));
    }
  }

  lemma FlattenStep(s: seq<Occurrence>, gs: seq<Group>)
    requires |s| > 0 && FieldsInRange(s) && FieldsAgree(s) && SizedGroups(gs) && Flatten(gs) == s[..|s| - 1]
    ensures Flatten(Add(gs, s[|s| - 1])) == s
  {
    hide Flatten, Add, FieldsAgree, Agrees, SizedGroups;
    var o := s[|s| - 1];
    if |gs| > 0 && gs[|gs| - 1].term == o.term {
      LastAgrees(s, gs);
    }
    AddList(gs, o);
    assert s == s[..|s| - 1] + [o];
  }

  lemma GroupsUnfold(s: seq<Occurrence>)
    requires |s| > 0 && FieldsInRange(s) && FieldsAgree(s)
    ensures FieldsInRange(s[..|s| - 1]) && FieldsAgree(s[..|s| - 1]) && SizedGroups(Groups(s[..|s| - 1]))
    ensures TitleField <= s[|s| - 1].field <= PassageField && Groups(s) == Add(Groups(s[..|s| - 1]), s[|s| - 1])
  {
    hide Add;
  }

  lemma LastAgrees(s: seq<Occurrence>, gs: seq<Group>)
    requires |s| > 0 && FieldsInRange(s) && FieldsAgree(s) && SizedGroups(gs) && |gs| > 0 && Flatten(gs) == s[..|s| - 1]
    ensures var ps := gs[|gs| - 1].postings; OfObject(ps[|ps| - 1], s[|s| - 1]) ==> Agrees(ps[|ps| - 1], s[|s| - 1])
  {
    var o, ps := s[|s| - 1], gs[|gs| - 1].postings;
    var p := ps[|ps| - 1];
    hide Flatten;
    if OfObject(p, o) {
      forall i | 0 <= i < |p.positions| && p.positions[i].field == o.field ensures p.length[o.field - 1] == o.fieldLength {
        LastPostingListed(gs, i);
        var k :| 0 <= k < |s| - 1 && s[k] == Occurrence(gs[|gs| - 1].term, p.objectType, p.ordinal, o.field, p.positions[i].position, p.length[o.field - 1]);
        assert SameField(s[k], o);
      }
    }
  }

  // ---------------------------------------------------------------- groups of an ordered list

  function CountField(ps: seq<Position>, field: nat): nat {
    if |ps| == 0 then 0 else CountField(ps[..|ps| - 1], field) + if ps[|ps| - 1].field == field then 1 else 0
  }

  lemma {:induction false} CountSum(ps: seq<Position>)
    requires forall i :: 0 <= i < |ps| ==> TitleField <= ps[i].field <= PassageField
    ensures CountField(ps, 1) + CountField(ps, 2) + CountField(ps, 3) == |ps|
  {
    if |ps| > 0 { CountSum(ps[..|ps| - 1]); }
  }

  predicate PositionBefore(a: Position, b: Position) {
    a.field < b.field || (a.field == b.field && a.position < b.position)
  }

  predicate PositionsGood(p: Posting)
    requires Sized(p)
  {
    && |p.positions| > 0
    && (forall i, j :: 0 <= i < j < |p.positions| ==> PositionBefore(p.positions[i], p.positions[j]))
    && (forall i :: 0 <= i < |p.positions| ==> p.positions[i].position < p.length[p.positions[i].field - 1])
  }

  /** A posting as the reader accepts it: frequencies count the positions, positions increase and fit their field. */
  predicate PostingGood(p: Posting, documents: nat, passages: nat) {
    && Sized(p) && PositionsGood(p)
    && p.tf == [CountField(p.positions, 1), CountField(p.positions, 2), CountField(p.positions, 3)]
    && (p.objectType == DocumentType || p.objectType == PassageType)
    && p.ordinal < if p.objectType == DocumentType then documents else passages
  }

  predicate PostingBefore(p: Posting, q: Posting) {
    p.objectType < q.objectType || (p.objectType == q.objectType && p.ordinal < q.ordinal)
  }

  predicate PostingsGood(ps: seq<Posting>, documents: nat, passages: nat) {
    && |ps| > 0
    && (forall i :: 0 <= i < |ps| ==> PostingGood(ps[i], documents, passages))
    && (forall i, j :: 0 <= i < j < |ps| ==> PostingBefore(ps[i], ps[j]))
  }

  /** Terms strictly increase and each has postings in strict object order. */
  predicate GroupsGood(gs: seq<Group>, documents: nat, passages: nat) {
    && (forall i :: 0 <= i < |gs| ==> |gs[i].term| > 0 && PostingsGood(gs[i].postings, documents, passages))
    && (forall i, j :: 0 <= i < j < |gs| ==> Less(gs[i].term, gs[j].term))
  }

  /** The groups end with the given occurrence. */
  predicate EndsWith(gs: seq<Group>, o: Occurrence) {
    && |gs| > 0 && gs[|gs| - 1].term == o.term && |gs[|gs| - 1].postings| > 0
    && var p := gs[|gs| - 1].postings[|gs[|gs| - 1].postings| - 1];
       OfObject(p, o) && |p.positions| > 0 && p.positions[|p.positions| - 1] == Position(o.field, o.position)
  }

  lemma CountOne(p: Position, field: nat)
    ensures CountField([p], field) == if p.field == field then 1 else 0
  {
    assert [p][..0] == [];
  }

  lemma NewPostingGood(o: Occurrence, documents: nat, passages: nat)
    requires OccurrenceOk(o, documents, passages)
    ensures PostingGood(NewPosting(o), documents, passages)
  {
    var ps := [Position(o.field, o.position)];
    CountOne(ps[0], 1);
    CountOne(ps[0], 2);
    CountOne(ps[0], 3);
    hide CountField;
    assert NewPosting(o).positions == ps;
  }

  lemma AddPositionGood(p: Posting, prev: Occurrence, o: Occurrence, documents: nat, passages: nat)
    requires PostingGood(p, documents, passages) && OccurrenceOk(o, documents, passages)
    requires p.positions[|p.positions| - 1] == Position(prev.field, prev.position) && PlaceBefore(prev, o)
    ensures PostingGood(AddPosition(p, o), documents, passages)
  {
    var q, n := AddPosition(p, o), |p.positions|;
    assert q.positions[..n] == p.positions;
    assert forall f :: CountField(q.positions, f) == CountField(p.positions, f) + if o.field == f then 1 else 0;
    hide CountField;
    forall i | 0 <= i < n ensures PositionBefore(q.positions[i], q.positions[n]) {
      assert i < n - 1 ==> PositionBefore(p.positions[i], p.positions[n - 1]);
    }
    forall i | 0 <= i < |q.positions| ensures q.positions[i].position < q.length[q.positions[i].field - 1] {
      if i < n { assert PositionBefore(q.positions[i], q.positions[n]) && q.positions[i] == p.positions[i]; }
    }
  }

  lemma AddToPostingsGood(ps: seq<Posting>, prev: Occurrence, o: Occurrence, documents: nat, passages: nat)
    requires PostingsGood(ps, documents, passages) && SizedPostings(ps) && OccurrenceOk(o, documents, passages)
    requires OfObject(ps[|ps| - 1], prev) && (ObjectBefore(prev, o) || (SameObject(prev, o) && PlaceBefore(prev, o)))
    requires var p := ps[|ps| - 1]; p.positions[|p.positions| - 1] == Position(prev.field, prev.position)
    ensures PostingsGood(AddToPostings(ps, o), documents, passages)
  {
    hide PostingGood, NewPosting;
    var n := |ps| - 1;
    if OfObject(ps[n], o) {
      assert PostingGood(ps[n], documents, passages);
      AddPositionGood(ps[n], prev, o, documents, passages);
    } else {
      NewPostingGood(o, documents, passages);
      NewPostingObject(o);
      forall i | 0 <= i < |ps| ensures PostingBefore(ps[i], NewPosting(o)) {
        assert i < n ==> PostingBefore(ps[i], ps[n]);
      }
    }
  }

  lemma NewPostingObject(o: Occurrence)
    requires TitleField <= o.field <= PassageField
    ensures OfObject(NewPosting(o), o) && NewPosting(o).positions == [Position(o.field, o.position)]
  {
  }

  lemma AddEndsWith(gs: seq<Group>, o: Occurrence)
    requires SizedGroups(gs) && TitleField <= o.field <= PassageField
    ensures EndsWith(Add(gs, o), o)
  {
    NewPostingObject(o);
  }

  lemma AddGood(gs: seq<Group>, prev: Occurrence, o: Occurrence, documents: nat, passages: nat)
    requires SizedGroups(gs) && GroupsGood(gs, documents, passages) && OccurrenceOk(o, documents, passages)
    requires |gs| > 0 ==> EndsWith(gs, prev) && Before(prev, o)
    ensures GroupsGood(Add(gs, o), documents, passages)
  {
    hide PostingsGood, PostingGood, NewPosting, AddToPostings, Less;
    var n := |gs| - 1;
    if |gs| > 0 && gs[n].term == o.term {
      LessIrreflexive(o.term);
      SamePostings(gs[n].postings, prev, o, documents, passages);
    } else {
      FirstPosting(o, documents, passages);
      forall i | 0 <= i < |gs| ensures Less(gs[i].term, o.term) {
        if i < n { LessTransitive(gs[i].term, gs[n].term, o.term); }
      }
    }
  }

  lemma SamePostings(ps: seq<Posting>, prev: Occurrence, o: Occurrence, documents: nat, passages: nat)
    requires PostingsGood(ps, documents, passages) && SizedPostings(ps) && OccurrenceOk(o, documents, passages)
    requires OfObject(ps[|ps| - 1], prev) && (ObjectBefore(prev, o) || (SameObject(prev, o) && PlaceBefore(prev, o)))
    requires var p := ps[|ps| - 1]; |p.positions| > 0 && p.positions[|p.positions| - 1] == Position(prev.field, prev.position)
    ensures PostingsGood(AddToPostings(ps, o), documents, passages)
  {
    AddToPostingsGood(ps, prev, o, documents, passages);
  }

  lemma FirstPosting(o: Occurrence, documents: nat, passages: nat)
    requires OccurrenceOk(o, documents, passages)
    ensures PostingsGood([NewPosting(o)], documents, passages)
  {
    NewPostingGood(o, documents, passages);
  }

  /** Groups of a sorted, well-formed list pass every check the reader makes. */
  lemma {:induction false} GroupsOfOrdered(s: seq<Occurrence>, documents: nat, passages: nat)
    requires Ordered(s) && FieldsInRange(s) && forall i :: 0 <= i < |s| ==> OccurrenceOk(s[i], documents, passages)
    ensures GroupsGood(Groups(s), documents, passages)
    ensures |s| > 0 ==> EndsWith(Groups(s), s[|s| - 1])
  {
    if |s| > 0 {
      hide GroupsGood, EndsWith, Add, Before, OccurrenceOk;
      var init, o := s[..|s| - 1], s[|s| - 1];
      GroupsOfOrdered(init, documents, passages);
      var gs := Groups(init);
      FieldRange(o, documents, passages);
      AddEndsWith(gs, o);
      if |init| > 0 {
        AddGood(gs, init[|init| - 1], o, documents, passages);
      } else {
        AddGood(gs, o, o, documents, passages);
      }
    }
  }

  lemma FieldRange(o: Occurrence, documents: nat, passages: nat)
    requires OccurrenceOk(o, documents, passages)
    ensures TitleField <= o.field <= PassageField
  {
  }

  // ---------------------------------------------------------------- field lengths

  predicate ShortPosting(p: Posting, m: nat) {
    forall f :: 0 <= f < |p.length| ==> p.length[f] <= m
  }

  predicate ShortFields(gs: seq<Group>, m: nat) {
    forall k, i :: 0 <= k < |gs| && 0 <= i < |gs[k].postings| ==> ShortPosting(gs[k].postings[i], m)
  }

  lemma AddShort(gs: seq<Group>, o: Occurrence, m: nat)
    requires SizedGroups(gs) && TitleField <= o.field <= PassageField && ShortFields(gs, m) && o.fieldLength <= m
    ensures ShortFields(Add(gs, o), m)
  {
    hide AddPosition, NewPosting;
    NewShort(o, m);
    var n := |gs| - 1;
    if |gs| > 0 && gs[n].term == o.term {
      var ps := gs[n].postings;
      var last := ps[|ps| - 1];
      assert ShortPosting(last, m);
      AddPositionShort(last, o, m);
      var after := AddToPostings(ps, o);
      forall i | 0 <= i < |after| ensures ShortPosting(after[i], m) {
        if i < |ps| - 1 { assert after[i] == gs[n].postings[i]; }
      }
    }
  }

  lemma AddPositionShort(p: Posting, o: Occurrence, m: nat)
    requires Sized(p) && TitleField <= o.field <= PassageField && ShortPosting(p, m) && o.fieldLength <= m
    ensures ShortPosting(AddPosition(p, o), m)
  {
  }

  lemma NewShort(o: Occurrence, m: nat)
    requires TitleField <= o.field <= PassageField && o.fieldLength <= m
    ensures ShortPosting(NewPosting(o), m)
  {
  }

  lemma {:induction false} GroupsShort(s: seq<Occurrence>, m: nat)
    requires FieldsInRange(s) && forall i :: 0 <= i < |s| ==> s[i].fieldLength <= m
    ensures ShortFields(Groups(s), m)
  {
    if |s| > 0 {
      GroupsShort(s[..|s| - 1], m);
      AddShort(Groups(s[..|s| - 1]), s[|s| - 1], m);
    }
  }
}
