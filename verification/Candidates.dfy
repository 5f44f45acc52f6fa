/**
 The bounded candidate set: the best candidates seen so far, kept in an indexed heap whose root is
 the worst of them, with an open-addressing hash table from ids to items.
 */
module Candidates {
  import opened Common
  import opened ByteOrder

  /** origin stands for the parent id, segment and ordinal that travel with a candidate. */
  datatype Candidate = Candidate(id: Bytes, score: real, origin: nat)

  predicate Better(a: Candidate, b: Candidate) {
    a.score > b.score || (a.score == b.score && Less(a.id, b.id))
  }

  lemma BetterTransitive(a: Candidate, b: Candidate, c: Candidate)
    requires Better(a, b) && Better(b, c)
    ensures Better(a, c)
  {
    if a.score == b.score && b.score == c.score { LessTransitive(a.id, b.id, c.id); }
  }

  lemma BetterTotal(a: Candidate, b: Candidate)
    ensures Better(a, b) || Better(b, a) || (a.score == b.score && a.id == b.id)
    ensures !(Better(a, b) && Better(b, a))
  {
    LessTotal(a.id, b.id);
    if Better(a, b) && Better(b, a) { LessAsymmetric(a.id, b.id); }
  }

  // ---------------------------------------------------------------- what the set must hold

  /** The best offer per id: a later offer replaces an earlier one only when it is better. */
  function Offer(best: map<Bytes, Candidate>, c: Candidate): map<Bytes, Candidate> {
    if c.id in best && !Better(c, best[c.id]) then best else best[c.id := c]
  }

  function Offers(cs: seq<Candidate>): map<Bytes, Candidate> {
    if |cs| == 0 then map[] else Offer(Offers(cs[..|cs| - 1]), cs[|cs| - 1])
  }

  predicate IsOffered(cs: seq<Candidate>, id: Bytes) {
    exists i :: 0 <= i < |cs| && cs[i].id == id
  }

  /** Place i holds an offer for the id that beats all earlier ones and is beaten by no later one. */
  predicate BestOffer(cs: seq<Candidate>, id: Bytes, i: nat) {
    && i < |cs| && cs[i].id == id
    && (forall j :: 0 <= j < i && cs[j].id == id ==> Better(cs[i], cs[j]))
    && (forall j :: i < j < |cs| && cs[j].id == id ==> !Better(cs[j], cs[i]))
  }

  lemma {:induction false} OffersKeys(cs: seq<Candidate>, id: Bytes)
    ensures id in Offers(cs) <==> IsOffered(cs, id)
  {
    if |cs| > 0 {
      var init, c := cs[..|cs| - 1], cs[|cs| - 1];
      OffersKeys(init, id);
      if IsOffered(init, id) {
        var j :| 0 <= j < |init| && init[j].id == id;
        assert cs[j].id == id;
      }
      if IsOffered(cs, id) && c.id != id {
        var j :| 0 <= j < |cs| && cs[j].id == id;
        assert init[j].id == id;
      }
    }
  }

  /** What the fold holds: exactly the offered ids, each at the first of its offers that no other beats. */
  lemma {:induction false} OffersHold(cs: seq<Candidate>, id: Bytes)
    ensures id in Offers(cs) <==> IsOffered(cs, id)
    ensures id in Offers(cs) ==> exists i: nat :: BestOffer(cs, id, i) && cs[i] == Offers(cs)[id]
  {
    OffersKeys(cs, id);
    if |cs| > 0 {
      var init, c := cs[..|cs| - 1], cs[|cs| - 1];
      OffersHold(init, id);
      if id in Offers(init) {
        var i: nat :| BestOffer(init, id, i) && init[i] == Offers(init)[id];
        OneMoreOffer(cs, id, i);
      } else if c.id == id {
        assert !IsOffered(init, id);
        forall j | 0 <= j < |cs| - 1 ensures cs[j].id != id { assert init[j] == cs[j]; }
        assert BestOffer(cs, id, |cs| - 1);
      }
    }
  }

  lemma OneMoreOffer(cs: seq<Candidate>, id: Bytes, i: nat)
    requires |cs| > 0 && BestOffer(cs[..|cs| - 1], id, i)
    ensures var c := cs[|cs| - 1]; if c.id == id && Better(c, cs[i]) then BestOffer(cs, id, |cs| - 1) else BestOffer(cs, id, i)
  {
    var init, c := cs[..|cs| - 1], cs[|cs| - 1];
    if c.id == id && Better(c, cs[i]) {
      LastIsBest(cs, id, i);
    } else {
      assert forall j :: 0 <= j < |init| ==> init[j] == cs[j];
    }
  }

  lemma LastIsBest(cs: seq<Candidate>, id: Bytes, i: nat)
    requires |cs| > 0 && BestOffer(cs[..|cs| - 1], id, i) && cs[|cs| - 1].id == id && Better(cs[|cs| - 1], cs[i])
    ensures BestOffer(cs, id, |cs| - 1)
  {
    var c := cs[|cs| - 1];
    forall j | 0 <= j < |cs| - 1 && cs[j].id == id ensures Better(c, cs[j]) {
      assert cs[..|cs| - 1][j] == cs[j];
      if j < i {
        BetterTransitive(c, cs[i], cs[j]);
      } else if j > i {
        NotBeaten(cs[i], cs[j]);
        assert cs[i].score >= cs[j].score;
      }
    }
  }

  lemma NotBeaten(a: Candidate, b: Candidate)
    requires a.id == b.id && !Better(b, a)
    ensures a.score >= b.score
  {
  }

  predicate DistinctIds(items: seq<Candidate>) {
    forall j, k :: 0 <= j < k < |items| ==> items[j].id != items[k].id
  }

  predicate Contains(items: seq<Candidate>, id: Bytes) {
    exists j :: 0 <= j < |items| && items[j].id == id
  }

  /** The items are exactly the best capacity ids, each at the best offer ever made for it. */
  ghost predicate IsBest(items: seq<Candidate>, best: map<Bytes, Candidate>, capacity: nat) {
    && DistinctIds(items)
    && (forall j :: 0 <= j < |items| ==> items[j].id in best && best[items[j].id] == items[j])
    && |items| <= capacity
    && (|items| < capacity ==> forall id :: id in best ==> Contains(items, id))
    && (forall j, id :: 0 <= j < |items| && id in best && !Contains(items, id) ==> Better(items[j], best[id]))
    && (forall id :: id in best ==> best[id].id == id)
  }

  lemma FoundKeepsBest(items: seq<Candidate>, best: map<Bytes, Candidate>, capacity: nat, c: Candidate, at: nat)
    requires IsBest(items, best, capacity) && at < |items| && items[at].id == c.id
    ensures IsBest(if Better(c, items[at]) then items[at := c] else items, Offer(best, c), capacity)
  {
    if Better(c, items[at]) {
      var after, offers := items[at := c], Offer(best, c);
      forall id ensures Contains(after, id) <==> Contains(items, id) {
        if j :| 0 <= j < |items| && items[j].id == id { assert after[j].id == id; }
        if j :| 0 <= j < |after| && after[j].id == id { assert items[j].id == id; }
      }
      forall j, id | 0 <= j < |after| && id in offers && !Contains(after, id) ensures Better(after[j], offers[id]) {
        assert Contains(items, c.id) by { assert items[at].id == c.id; }
        if j == at { BetterTransitive(c, items[at], best[id]); }
      }
    }
  }

  lemma AppendedKeepsBest(items: seq<Candidate>, best: map<Bytes, Candidate>, capacity: nat, c: Candidate)
    requires IsBest(items, best, capacity) && !Contains(items, c.id) && |items| < capacity
    ensures IsBest(items + [c], Offer(best, c), capacity)
  {
    var after := items + [c];
    forall id | Contains(items, id) || id == c.id ensures Contains(after, id) {
      if id == c.id {
        assert after[|items|].id == id;
      } else {
        var j :| 0 <= j < |items| && items[j].id == id;
        assert after[j].id == id;
      }
    }
  }

  /** No item is worse than the given one. */
  predicate IsWorst(items: seq<Candidate>, at: nat)
    requires at < |items|
  {
    forall j :: 0 <= j < |items| && j != at ==> Better(items[j], items[at])
  }

  lemma RejectedKeepsBest(items: seq<Candidate>, best: map<Bytes, Candidate>, capacity: nat, c: Candidate, at: nat)
    requires IsBest(items, best, capacity) && !Contains(items, c.id) && |items| == capacity
    requires at < |items| && IsWorst(items, at) && !Better(c, items[at])
    ensures IsBest(items, Offer(best, c), capacity)
  {
    forall j | 0 <= j < |items| ensures Better(items[j], c) {
      BetterTotal(c, items[at]);
      assert Better(items[at], c);
      if j != at { BetterTransitive(items[j], items[at], c); }
    }
  }

  lemma ReplacedKeepsBest(items: seq<Candidate>, best: map<Bytes, Candidate>, capacity: nat, c: Candidate, at: nat)
    requires IsBest(items, best, capacity) && !Contains(items, c.id) && |items| == capacity
    requires at < |items| && IsWorst(items, at) && Better(c, items[at])
    ensures IsBest(items[at := c], Offer(best, c), capacity)
  {
    var after, offers := items[at := c], Offer(best, c);
    if c.id in best {
      BetterTransitive(c, items[at], best[c.id]);
      BetterTotal(c, best[c.id]);
    }
    assert offers == best[c.id := c];
    assert Contains(after, c.id) by { assert after[at].id == c.id; }
    forall j, id | 0 <= j < |after| && id in offers && !Contains(after, id) ensures Better(after[j], offers[id]) {
      assert id in best && offers[id] == best[id];
      if id == items[at].id {
        assert after[j] == c || Better(items[j], items[at]);
      } else {
        forall h | 0 <= h < |items| ensures items[h].id != id {
          assert after[h].id != id;
        }
        if j == at { BetterTransitive(c, items[at], best[id]); }
      }
    }
  }

  // ---------------------------------------------------------------- the same in plain terms

  /** A higher score, or the same score and the id that comes first. */
  ghost predicate RanksBefore(a: Candidate, b: Candidate) {
    a.score > b.score || (a.score == b.score && exists k: nat :: SplitAt(a.id, b.id, k))
  }

  /** The first of the offers for its id that has the highest score offered for it. */
  predicate FirstHighest(offers: seq<Candidate>, i: nat) {
    && i < |offers|
    && (forall j :: 0 <= j < |offers| && offers[j].id == offers[i].id ==> offers[j].score <= offers[i].score)
    && (forall j :: 0 <= j < i && offers[j].id == offers[i].id ==> offers[j].score < offers[i].score)
  }

  /** Distinct ids, each at its first highest offer; an offered id is missing only behind a full set of better ones. */
  ghost predicate BestOf(items: seq<Candidate>, offers: seq<Candidate>, capacity: nat) {
    && DistinctIds(items) && |items| <= capacity
    && (forall m :: 0 <= m < |items| ==> IsFirstHighest(offers, items[m]))
    && (forall i :: 0 <= i < |offers| && FirstHighest(offers, i) && !Contains(items, offers[i].id) ==> OnlyBetter(items, offers[i], capacity))
  }

  predicate IsFirstHighest(offers: seq<Candidate>, c: Candidate) {
    exists i :: 0 <= i < |offers| && FirstHighest(offers, i) && offers[i] == c
  }

  ghost predicate OnlyBetter(items: seq<Candidate>, c: Candidate, capacity: nat) {
    |items| == capacity && forall m :: 0 <= m < |items| ==> RanksBefore(items[m], c)
  }

  lemma BetterExactly(a: Candidate, b: Candidate)
    ensures Better(a, b) <==> RanksBefore(a, b)
  {
    LessExactly(a.id, b.id);
  }

  lemma BestIsFirstHighest(cs: seq<Candidate>, id: Bytes, i: nat)
    requires BestOffer(cs, id, i)
    ensures FirstHighest(cs, i)
  {
    forall j | 0 <= j < |cs| && cs[j].id == id && j != i ensures cs[j].score <= cs[i].score && (j < i ==> cs[j].score < cs[i].score) {
      LessIrreflexive(id);
      if j > i { NotBeaten(cs[i], cs[j]); }
    }
  }

  lemma FirstHighestIsUnique(cs: seq<Candidate>, i: nat, j: nat)
    requires FirstHighest(cs, i) && FirstHighest(cs, j) && cs[i].id == cs[j].id
    ensures i == j
  {
  }

  lemma OfferIsFirstHighest(cs: seq<Candidate>, id: Bytes) returns (i: nat)
    requires id in Offers(cs)
    ensures i < |cs| && FirstHighest(cs, i) && cs[i] == Offers(cs)[id] && cs[i].id == id
  {
    OffersHold(cs, id);
    i :| BestOffer(cs, id, i) && cs[i] == Offers(cs)[id];
    BestIsFirstHighest(cs, id, i);
  }

  lemma BestInFull(items: seq<Candidate>, offers: seq<Candidate>, capacity: nat)
    requires IsBest(items, Offers(offers), capacity)
    ensures BestOf(items, offers, capacity)
  {
    hide FirstHighest, Offers, Better, RanksBefore, IsBest, Contains, DistinctIds;
    HeldFacts(items, Offers(offers), capacity);
    forall m | 0 <= m < |items| ensures IsFirstHighest(offers, items[m]) {
      HeldFact(items, Offers(offers), capacity, m);
      var i := OfferIsFirstHighest(offers, items[m].id);
      assert offers[i] == items[m];
    }
    forall i | 0 <= i < |offers| && FirstHighest(offers, i) && !Contains(items, offers[i].id)
      ensures OnlyBetter(items, offers[i], capacity)
    {
      OfferedHere(offers, i);
      MissingFacts(items, Offers(offers), capacity, offers[i].id);
      forall m | 0 <= m < |items| ensures RanksBefore(items[m], offers[i]) { BetterExactly(items[m], offers[i]); }
    }
  }

  lemma HeldFacts(items: seq<Candidate>, best: map<Bytes, Candidate>, capacity: nat)
    requires IsBest(items, best, capacity)
    ensures DistinctIds(items) && |items| <= capacity
  {
  }

  lemma HeldFact(items: seq<Candidate>, best: map<Bytes, Candidate>, capacity: nat, m: nat)
    requires IsBest(items, best, capacity) && m < |items|
    ensures items[m].id in best && best[items[m].id] == items[m]
  {
  }

  lemma MissingFacts(items: seq<Candidate>, best: map<Bytes, Candidate>, capacity: nat, id: Bytes)
    requires IsBest(items, best, capacity) && id in best && !Contains(items, id)
    ensures |items| == capacity && forall m :: 0 <= m < |items| ==> Better(items[m], best[id])
  {
  }

  lemma OffersNext(offers: seq<Candidate>, i: nat)
    requires i < |offers|
    ensures Offers(offers[..i + 1]) == Offer(Offers(offers[..i]), offers[i])
  {
    assert offers[..i + 1][..i] == offers[..i];
  }

  lemma NothingOffered(capacity: nat)
    ensures IsBest([], Offers([]), capacity)
  {
  }

  lemma OfferedHere(offers: seq<Candidate>, i: nat)
    requires i < |offers| && FirstHighest(offers, i)
    ensures offers[i].id in Offers(offers) && Offers(offers)[offers[i].id] == offers[i]
  {
    var id := offers[i].id;
    assert IsOffered(offers, id);
    OffersKeys(offers, id);
    var j := OfferIsFirstHighest(offers, id);
    FirstHighestIsUnique(offers, i, j);
  }
}
