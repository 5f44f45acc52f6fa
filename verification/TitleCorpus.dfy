/** Segments of documents that have only a title: what the writer groups for them. */
module TitleCorpus {
  import opened Common
  import opened Bm25
  import opened Occurrences
  import opened LexicalGroups
  import opened LexicalSegment
  import opened GroupsConverse

  function TitleUnits(titles: seq<seq<Bytes>>): (us: seq<Unit>)
    ensures |us| == |titles|
  {
    seq(|titles|, d requires 0 <= d < |titles| => Unit(titles[d], [], []))
  }

  function TitleOccurrence(titles: seq<seq<Bytes>>, d: nat, i: nat): Occurrence
    requires d < |titles| && i < |titles[d]|
  {
    Occurrence(titles[d][i], DocumentType, d, TitleField, i, |titles[d]|)
  }

  /** The occurrences the writer combines from title-only documents. */
  function Tokens(titles: seq<seq<Bytes>>): seq<Occurrence> {
    Combined(TitleUnits(titles))
  }

  lemma TokensLast(titles: seq<seq<Bytes>>)
    requires |titles| > 0
    ensures var n := |titles| - 1; Tokens(titles) == Tokens(titles[..n]) + FieldList(titles[n], DocumentType, n, TitleField)
  {
    var n := |titles| - 1;
    var init, u := TitleUnits(titles[..n]), Unit(titles[n], [], []);
    assert TitleUnits(titles) == init + [u];
    CombinedLast(TitleUnits(titles), init, u);
    assert FieldList([], DocumentType, n, BodyField) == [] && PassageList([], PassageCount(init)) == [];
  }

  lemma SomeTitle(titles: seq<seq<Bytes>>)
    requires |Tokens(titles)| > 0
    ensures |titles| > 0
  {
  }

  lemma {:induction false} TokenPlace(titles: seq<seq<Bytes>>, o: Occurrence) returns (d: nat, i: nat)
    requires o in Tokens(titles)
    ensures d < |titles| && i < |titles[d]| && o == TitleOccurrence(titles, d, i)
  {
    SomeTitle(titles);
    hide Tokens;
    var n := |titles| - 1;
    TokensLast(titles);
    if o in Tokens(titles[..n]) {
      d, i := TokenPlace(titles[..n], o);
    } else {
      d := n;
      i :| 0 <= i < |titles[n]| && FieldList(titles[n], DocumentType, n, TitleField)[i] == o;
    }
  }

  lemma {:induction false} TokenListed(titles: seq<seq<Bytes>>, d: nat, i: nat)
    requires d < |titles| && i < |titles[d]|
    ensures TitleOccurrence(titles, d, i) in Tokens(titles)
  {
    hide Tokens;
    var n := |titles| - 1;
    TokensLast(titles);
    if d < n {
      TokenListed(titles[..n], d, i);
    } else {
      assert FieldList(titles[n], DocumentType, n, TitleField)[i] == TitleOccurrence(titles, d, i);
    }
  }

  lemma {:induction false} TokenCount(titles: seq<seq<Bytes>>, n: nat)
    requires forall d :: 0 <= d < |titles| ==> |titles[d]| == n
    ensures |Tokens(titles)| == n * |titles|
  {
    if |titles| > 0 {
      hide Tokens;
      TokensLast(titles);
      TokenCount(titles[..|titles| - 1], n);
    }
  }

  // ---------------------------------------------------------------- postings of titles

  /** A term at the places first to first + tf - 1 of a title of n tokens. */
  function TitlePosting(ordinal: nat, first: nat, tf: nat, n: nat): Posting {
    Posting(DocumentType, ordinal, [tf, 0, 0], [n, 0, 0], seq(tf, i requires 0 <= i < tf => Position(TitleField, first + i)))
  }

  lemma {:induction false} CountTitle(ps: seq<Position>)
    requires forall i :: 0 <= i < |ps| ==> ps[i].field == TitleField
    ensures CountField(ps, 1) == |ps| && CountField(ps, 2) == CountField(ps, 3) == 0
  {
    if |ps| > 0 { CountTitle(ps[..|ps| - 1]); }
  }

  /** The writer makes such postings and the reader accepts them as soon as the run lies inside the title. */
  lemma TitlePostingGood(ordinal: nat, first: nat, tf: nat, n: nat, documents: nat)
    requires 0 < tf && first + tf <= n && ordinal < documents
    ensures PostingGood(TitlePosting(ordinal, first, tf, n), documents, 0) && Tight(TitlePosting(ordinal, first, tf, n))
    ensures PostingAccepted(TitlePosting(ordinal, first, tf, n), documents, 0)
  {
    var p := TitlePosting(ordinal, first, tf, n);
    CountTitle(p.positions);
    hide CountField;
    assert PostingGood(p, documents, 0);
    GoodIsAccepted(p, documents, 0);
  }

  // ---------------------------------------------------------------- groups of titles

  /** Every posting position is a token of the title it names. */
  predicate OnlyTokens(titles: seq<seq<Bytes>>, gs: seq<Group>) {
    forall k, j :: 0 <= k < |gs| && 0 <= j < |gs[k].postings| ==> PostingOfTitle(titles, gs[k].term, gs[k].postings[j])
  }

  predicate PostingOfTitle(titles: seq<seq<Bytes>>, term: Bytes, p: Posting) {
    && p.objectType == DocumentType && p.ordinal < |titles| && |p.length| == 3 && p.length[0] == |titles[p.ordinal]|
    && forall m :: 0 <= m < |p.positions| ==>
         p.positions[m].field == TitleField && p.positions[m].position < |titles[p.ordinal]| && titles[p.ordinal][p.positions[m].position] == term
  }

  /** Every token of every title is at a posting position. */
  predicate AllTokens(titles: seq<seq<Bytes>>, gs: seq<Group>) {
    forall d, i :: 0 <= d < |titles| && 0 <= i < |titles[d]| ==> HasToken(gs, titles[d][i], d, i)
  }

  predicate HasToken(gs: seq<Group>, term: Bytes, d: nat, i: nat) {
    exists k, j, m :: 0 <= k < |gs| && 0 <= j < |gs[k].postings| && 0 <= m < |gs[k].postings[j].positions|
      && gs[k].term == term && gs[k].postings[j].ordinal == d && gs[k].postings[j].positions[m] == Position(TitleField, i)
  }

  lemma TitlesGive(titles: seq<seq<Bytes>>, gs: seq<Group>, o: Occurrence)
    requires SizedGroups(gs) && OnlyTokens(titles, gs) && AllTokens(titles, gs)
    ensures o in Tokens(titles) <==> o in Flatten(gs)
  {
    hide Tokens, Flatten;
    if o in Tokens(titles) {
      var d, i := TokenPlace(titles, o);
      assert HasToken(gs, titles[d][i], d, i);
      var k, j, m :| 0 <= k < |gs| && 0 <= j < |gs[k].postings| && 0 <= m < |gs[k].postings[j].positions|
        && gs[k].term == titles[d][i] && gs[k].postings[j].ordinal == d && gs[k].postings[j].positions[m] == Position(TitleField, i);
      assert PostingOfTitle(titles, gs[k].term, gs[k].postings[j]);
      GroupsHave(gs, k, j, m);
    }
    if o in Flatten(gs) {
      var x :| 0 <= x < |Flatten(gs)| && Flatten(gs)[x] == o;
      var k, j, m := PlaceInGroups(gs, x);
      var p := gs[k].postings[j];
      assert PostingOfTitle(titles, gs[k].term, p);
      TokenListed(titles, p.ordinal, p.positions[m].position);
    }
  }

  predicate TitlesOk(titles: seq<seq<Bytes>>) {
    forall d :: 0 <= d < |titles| ==> TokensOk(titles[d])
  }

  lemma TitleTokensOk(titles: seq<seq<Bytes>>)
    requires TitlesOk(titles)
    ensures DistinctKeys(Tokens(titles)) && FieldsInRange(Tokens(titles))
  {
    var us := TitleUnits(titles);
    assert UnitsOk(us);
    CombinedOk(us);
  }

  /** Groups that hold the tokens of all titles and nothing else are what the writer groups for them. */
  lemma TitlesGroupTo(titles: seq<seq<Bytes>>, gs: seq<Group>)
    requires TitlesOk(titles) && GroupsGood(gs, |titles|, 0) && TightGroups(gs) && OnlyTokens(titles, gs) && AllTokens(titles, gs)
    ensures FieldsInRange(Tokens(titles)) && Grouped(Tokens(titles)) == gs
  {
    hide Tokens, Flatten, Grouped, GroupsGood, TightGroups, OnlyTokens, AllTokens, TitlesOk, SizedGroups, DistinctKeys, FieldsInRange;
    TitleTokensOk(titles);
    GoodGroupsSized(gs, |titles|, 0);
    forall o ensures o in Tokens(titles) <==> o in Flatten(gs) { TitlesGive(titles, gs, o); }
    GroupsAreUnique(Tokens(titles), gs, |titles|, 0);
  }
}
