/**
 What a query asks of one segment: the objects that qualify, their scores and the hits to rank, over
 the postings of its terms and without any cursor.
 */
module SearchPlan {
  import opened Common
  import opened Bm25
  import opened TopHits

  const BlockSize: nat := 128

  /** The postings of a term in the searched segment with the stored maxima of each block. */
  datatype Found = Found(postings: seq<Posting>, blocks: seq<Block>)

  /** A term of the query: frequencies over all segments, postings if this segment has the term. */
  datatype Term = Term(frequency: TypeFrequency, found: Option<Found>)

  datatype Plan = Plan(terms: seq<Term>, tokens: seq<nat>)

  datatype Options = Options(conjunctive: bool, phrase: bool, filter: nat, topK: nat, accept: (nat, nat) -> bool)

  predicate PostingsOk(f: Found) {
    && |f.postings| > 0
    && (forall i :: 0 <= i < |f.postings| ==> PostingOk(f.postings[i]) && f.postings[i].tf[0] + f.postings[i].tf[1] + f.postings[i].tf[2] > 0)
    && (forall i, j :: 0 <= i < j < |f.postings| ==> Key(f.postings[i]) < Key(f.postings[j]))
  }

  /** The block a posting lies in. */
  function BlockOf(f: Found, i: nat): Block
    requires i < |f.postings| && |f.blocks| == (|f.postings| + BlockSize - 1) / BlockSize
  {
    f.blocks[i / BlockSize]
  }

  /** Ordered postings under block maxima that cover them: what every written segment has. */
  predicate FoundOk(f: Found) {
    && PostingsOk(f)
    && |f.blocks| == (|f.postings| + BlockSize - 1) / BlockSize
    && forall i :: 0 <= i < |f.postings| ==> Covers(BlockOf(f, i), f.postings[i])
  }

  /** A term's frequency counts at least the postings of this segment. */
  predicate TermOk(t: Term) {
    t.found.Some? ==>
      && FoundOk(t.found.value)
      && forall i :: 0 <= i < |t.found.value.postings| ==> FrequencyOf(t.frequency, t.found.value.postings[i].objectType) > 0
  }

  predicate TermsOk(terms: seq<Term>) {
    forall t :: 0 <= t < |terms| ==> TermOk(terms[t])
  }

  predicate PlanOk(p: Plan) {
    && (|p.tokens| == 0 ==> |p.terms| == 0)
    && (|p.tokens| > 0 ==> |p.terms| > 0)
    && (forall j :: 0 <= j < |p.tokens| ==> p.tokens[j] < |p.terms|)
    && TermsOk(p.terms)
  }

  // ---------------------------------------------------------------- objects under a term

  datatype Object = Object(objectType: nat, ordinal: nat)

  predicate Describes(p: Posting, x: Object) {
    p.objectType == x.objectType && p.ordinal == x.ordinal
  }

  /** Some posting of the term is the object's. */
  predicate Occurs(t: Term, x: Object) {
    t.found.Some? && exists i :: 0 <= i < |t.found.value.postings| && Describes(t.found.value.postings[i], x)
  }

  ghost function PostingIn(t: Term, x: Object): (p: Posting)
    requires Occurs(t, x)
    ensures p in t.found.value.postings && Describes(p, x)
  {
    var i :| 0 <= i < |t.found.value.postings| && Describes(t.found.value.postings[i], x);
    t.found.value.postings[i]
  }

  /** No object has two postings under one term. */
  lemma PostingIsUnique(t: Term, x: Object, i: nat)
    requires TermOk(t) && t.found.Some? && i < |t.found.value.postings| && Describes(t.found.value.postings[i], x)
    ensures Occurs(t, x) && PostingIn(t, x) == t.found.value.postings[i]
  {
    var ps := t.found.value.postings;
    assert Occurs(t, x);
    var p := PostingIn(t, x);
    var j :| 0 <= j < |ps| && ps[j] == p;
    assert Key(ps[i]) == Key(ps[j]);
  }

  /** What a term adds to the score of an object. */
  ghost function TermScore(s: Scoring, t: Term, x: Object): real
    requires |s.stats.fieldTokens| == 3 && |s.boost| == 3 && TermOk(t)
  {
    if Occurs(t, x) then PostingScore(s, t.frequency, PostingIn(t, x)) else 0.0
  }

  /** The score of an object: the sum over all terms. */
  ghost function ObjectScore(s: Scoring, terms: seq<Term>, x: Object): real
    requires |s.stats.fieldTokens| == 3 && |s.boost| == 3 && TermsOk(terms)
  {
    if |terms| == 0 then 0.0
    else
      assert TermOk(terms[|terms| - 1]);
      ObjectScore(s, terms[..|terms| - 1], x) + TermScore(s, terms[|terms| - 1], x)
  }

  /** How many terms the object has. */
  function MatchedTerms(terms: seq<Term>, x: Object): nat {
    if |terms| == 0 then 0 else MatchedTerms(terms[..|terms| - 1], x) + if Occurs(terms[|terms| - 1], x) then 1 else 0
  }

  predicate HasAll(terms: seq<Term>, x: Object) {
    forall t :: 0 <= t < |terms| ==> Occurs(terms[t], x)
  }

  /** Token j of the query stands j places behind the base, in the field of the base, under its own term. */
  ghost predicate PhraseAt(p: Plan, x: Object, base: Position)
    requires PlanOk(p) && HasAll(p.terms, x)
  {
    forall j :: 0 <= j < |p.tokens| ==> Position(base.field, base.position + j) in PostingIn(p.terms[p.tokens[j]], x).positions
  }

  // ---------------------------------------------------------------- what there is to find

  /** The object passes the type filter and the caller's test, and it scores. */
  ghost predicate Admitted(s: Scoring, p: Plan, o: Options, x: Object)
    requires |s.stats.fieldTokens| == 3 && |s.boost| == 3 && PlanOk(p)
  {
    && (o.filter == 0 || o.filter == x.objectType)
    && o.accept(x.objectType, x.ordinal)
    && ObjectScore(s, p.terms, x) > 0.0
  }

  /** A conjunction asks for every term, a phrase also for the tokens in place, a disjunction for any score. */
  ghost predicate Sought(s: Scoring, p: Plan, o: Options, x: Object)
    requires |s.stats.fieldTokens| == 3 && |s.boost| == 3 && PlanOk(p)
  {
    && Admitted(s, p, o, x)
    && (o.conjunctive || o.phrase ==> HasAll(p.terms, x))
    && (o.phrase ==> exists base :: PhraseAt(p, x, base))
  }

  ghost function HitOf(s: Scoring, p: Plan, x: Object): Hit
    requires |s.stats.fieldTokens| == 3 && |s.boost| == 3 && PlanOk(p)
  {
    Hit(x.objectType, x.ordinal, ObjectScore(s, p.terms, x), MatchedTerms(p.terms, x))
  }

  ghost function PostingsIn(t: Term): set<Object> {
    if t.found.None? then {}
    else set i | 0 <= i < |t.found.value.postings| :: Object(t.found.value.postings[i].objectType, t.found.value.postings[i].ordinal)
  }

  ghost function Objects(terms: seq<Term>): set<Object> {
    set t, x | 0 <= t < |terms| && x in PostingsIn(terms[t]) :: x
  }

  /** Everything to rank. */
  ghost function Ranked(s: Scoring, p: Plan, o: Options): set<Hit>
    requires |s.stats.fieldTokens| == 3 && |s.boost| == 3 && PlanOk(p)
  {
    set x | x in Objects(p.terms) && Sought(s, p, o, x) :: HitOf(s, p, x)
  }

  lemma OccursListed(terms: seq<Term>, t: nat, x: Object)
    requires t < |terms| && Occurs(terms[t], x)
    ensures x in Objects(terms)
  {
    var i :| 0 <= i < |terms[t].found.value.postings| && Describes(terms[t].found.value.postings[i], x);
    assert x in PostingsIn(terms[t]);
  }

  lemma {:induction false} ScoredOccurs(s: Scoring, terms: seq<Term>, x: Object) returns (t: nat)
    requires |s.stats.fieldTokens| == 3 && |s.boost| == 3 && TermsOk(terms) && ObjectScore(s, terms, x) > 0.0
    ensures t < |terms| && Occurs(terms[t], x)
  {
    hide TermOk, Occurs;
    t := |terms| - 1;
    assert TermOk(terms[t]);
    if !Occurs(terms[t], x) {
      t := ScoredOccurs(s, terms[..t], x);
    }
  }

  /** Nothing that is sought is left out of the ranking, and nothing else is in it. */
  lemma RankedExactly(s: Scoring, p: Plan, o: Options, h: Hit)
    requires |s.stats.fieldTokens| == 3 && |s.boost| == 3 && PlanOk(p)
    ensures h in Ranked(s, p, o) <==> exists x :: Sought(s, p, o, x) && h == HitOf(s, p, x)
  {
    hide PlanOk, HitOf, Sought;
    if x :| Sought(s, p, o, x) && h == HitOf(s, p, x) {
      SoughtListed(s, p, o, x);
    }
  }

  lemma SoughtListed(s: Scoring, p: Plan, o: Options, x: Object)
    requires |s.stats.fieldTokens| == 3 && |s.boost| == 3 && PlanOk(p) && Sought(s, p, o, x)
    ensures x in Objects(p.terms)
  {
    var t := ScoredOccurs(s, p.terms, x);
    OccursListed(p.terms, t, x);
  }

  /** A hit that may be returned: an admitted object, with some of the score and of the terms it has. */
  ghost predicate TrueHit(s: Scoring, p: Plan, o: Options, h: Hit)
    requires |s.stats.fieldTokens| == 3 && |s.boost| == 3 && PlanOk(p)
  {
    var x := Object(h.objectType, h.ordinal);
    && Admitted(s, p, o, x)
    && 0.0 < h.score <= ObjectScore(s, p.terms, x)
    && 0 < h.matchedTerms <= MatchedTerms(p.terms, x)
  }

  // ---------------------------------------------------------------- when a disjunction is answered exactly

  function FoundTerms(terms: seq<Term>): nat {
    if |terms| == 0 then 0 else FoundTerms(terms[..|terms| - 1]) + if terms[|terms| - 1].found.Some? then 1 else 0
  }

  predicate OneBlock(t: Term) {
    t.found.Some? ==> |t.found.value.postings| <= BlockSize
  }

  /** One term found, at most two found and each in one block, or no more matches than places. */
  ghost predicate PrunesExactly(s: Scoring, p: Plan, o: Options)
    requires |s.stats.fieldTokens| == 3 && |s.boost| == 3 && PlanOk(p)
  {
    || FoundTerms(p.terms) == 1
    || (FoundTerms(p.terms) <= 2 && forall t :: 0 <= t < |p.terms| ==> OneBlock(p.terms[t]))
    || |Ranked(s, p, o)| <= o.topK
  }

  /** What the caller learns from an answer that is not an error. */
  ghost predicate Answers(s: Scoring, p: Plan, o: Options, hits: seq<Hit>)
    requires |s.stats.fieldTokens| == 3 && |s.boost| == 3 && PlanOk(p)
  {
    if o.conjunctive || o.phrase then IsTop(hits, Ranked(s, p, o), o.topK)
    else
      && Sorted(hits) && |hits| <= o.topK && DistinctObjects(hits) && (forall h :: h in hits ==> TrueHit(s, p, o, h))
      && (PrunesExactly(s, p, o) || |hits| < o.topK ==> IsTop(hits, Ranked(s, p, o), o.topK))
  }
}
