/** Documents whose postings make pruning lose the best answer, whatever the logarithm. */
module PruningCorpora {
  import opened Common
  import opened ByteOrder
  import opened Bm25
  import opened Occurrences
  import opened LexicalGroups
  import opened LexicalFormat
  import opened LexicalSegment
  import opened GroupsConverse
  import opened TitleCorpus
  import opened PruningLoss
  import V = LexicalValidate
  import L = LexicalSearch
  import D = SearchPlan

  // ---------------------------------------------------------------- lists over titles of eight tokens

  /** A term at tf neighbouring places of one title. */
  datatype Run = Run(ordinal: nat, first: nat, tf: nat)

  predicate RunsOk(rs: seq<Run>, documents: nat) {
    && |rs| > 0 && documents <= TypeBit
    && (forall i :: 0 <= i < |rs| ==> 0 < rs[i].tf && rs[i].first + rs[i].tf <= 8 && rs[i].ordinal < documents)
    && (forall i, j :: 0 <= i < j < |rs| ==> rs[i].ordinal < rs[j].ordinal)
  }

  function PostingsOf(rs: seq<Run>): (ps: seq<Posting>)
    ensures |ps| == |rs| && forall i :: 0 <= i < |rs| ==> ps[i] == TitlePosting(rs[i].ordinal, rs[i].first, rs[i].tf, 8)
    ensures |rs| > 0 ==> SizedPostings(ps)
  {
    seq(|rs|, i requires 0 <= i < |rs| => TitlePosting(rs[i].ordinal, rs[i].first, rs[i].tf, 8))
  }

  /** The list as a written segment stores it. */
  function FoundOf(rs: seq<Run>): D.Found
    requires |rs| > 0
  {
    D.Found(PostingsOf(rs), V.BlocksOf(PostingsOf(rs)))
  }

  lemma RunsGood(rs: seq<Run>, documents: nat)
    requires RunsOk(rs, documents)
    ensures PostingsGood(PostingsOf(rs), documents, 0)
    ensures forall i :: 0 <= i < |rs| ==> Tight(PostingsOf(rs)[i]) && PostingAccepted(PostingsOf(rs)[i], documents, 0)
  {
    hide PostingGood, Tight, PostingAccepted;
    forall i | 0 <= i < |rs|
      ensures PostingGood(PostingsOf(rs)[i], documents, 0) && Tight(PostingsOf(rs)[i]) && PostingAccepted(PostingsOf(rs)[i], documents, 0)
    {
      TitlePostingGood(rs[i].ordinal, rs[i].first, rs[i].tf, 8, documents);
    }
  }

  lemma TitleNumbers(r: Run)
    requires 0 < r.tf
    ensures Sized(TitlePosting(r.ordinal, r.first, r.tf, 8)) && Frequency(TitlePosting(r.ordinal, r.first, r.tf, 8)) == r.tf
    ensures Shortest(TitlePosting(r.ordinal, r.first, r.tf, 8)) == 8
  {
  }

  /** The largest frequency in the block of a posting. */
  predicate IsBlockMax(rs: seq<Run>, i: nat, m: nat) {
    && (forall j :: 0 <= j < |rs| && j / BlockSize == i / BlockSize ==> rs[j].tf <= m)
    && exists j :: 0 <= j < |rs| && j / BlockSize == i / BlockSize && rs[j].tf == m
  }

  lemma BlockPlaces(n: nat, b: nat, j: nat)
    requires b < Blocks(n) && j < n
    ensures j / BlockSize == b <==> b * BlockSize <= j < BlockEnd(n, b)
  {
  }

  lemma BlockValues(rs: seq<Run>, documents: nat, first: nat, end: nat, m: nat)
    requires RunsOk(rs, documents) && first < end <= |rs|
    requires (forall j :: first <= j < end ==> rs[j].tf <= m) && exists j :: first <= j < end && rs[j].tf == m
    ensures var block := PostingsOf(rs)[first..end];
      (forall j :: 0 <= j < |block| ==> Sized(block[j])) && MaxFrequency(block) == m && MinLength(block) == 8
  {
    hide PostingsOf, MaxFrequency, MinLength, Frequency, Shortest, Sized;
    var ps := PostingsOf(rs);
    var block := ps[first..end];
    forall j | 0 <= j < |block| ensures Sized(block[j]) && Frequency(block[j]) == rs[first + j].tf && Shortest(block[j]) == 8 {
      TitleNumbers(rs[first + j]);
      assert block[j] == ps[first + j];
    }
    var j :| first <= j < end && rs[j].tf == m;
    MaxFrequencyBound(block, m);
    V.InBlock(block, j - first);
    MinLengthBound(block, 8);
    MinIs(block);
  }

  lemma BlockIs(rs: seq<Run>, documents: nat, i: nat, m: nat)
    requires RunsOk(rs, documents) && i < |rs| && IsBlockMax(rs, i, m)
    ensures |V.BlocksOf(PostingsOf(rs))| == Blocks(|rs|) && i / BlockSize < Blocks(|rs|)
    ensures V.BlocksOf(PostingsOf(rs))[i / BlockSize] == Block(m, 8)
  {
    hide MaxFrequency, MinLength;
    var b := i / BlockSize;
    BlockStarts(|rs|, b);
    var first, end := b * BlockSize, BlockEnd(|rs|, b);
    var j :| 0 <= j < |rs| && j / BlockSize == i / BlockSize && rs[j].tf == m;
    BlockPlaces(|rs|, b, j);
    forall j | first <= j < end ensures rs[j].tf <= m { BlockPlaces(|rs|, b, j); }
    BlockValues(rs, documents, first, end, m);
  }

  lemma {:induction false} MinIs(ps: seq<Posting>)
    requires forall i :: 0 <= i < |ps| ==> Sized(ps[i]) && Shortest(ps[i]) == 8
    ensures MinLength(ps) >= 8
  {
    if |ps| > 0 { MinIs(ps[..|ps| - 1]); }
  }

  lemma SomeBlockMax(rs: seq<Run>, i: nat) returns (m: nat)
    requires i < |rs|
    ensures IsBlockMax(rs, i, m)
  {
    var best := i;
    var n := 0;
    while n < |rs|
      invariant n <= |rs| && best < |rs| && best / BlockSize == i / BlockSize
      invariant forall j :: 0 <= j < n && j / BlockSize == i / BlockSize ==> rs[j].tf <= rs[best].tf
    {
      if n / BlockSize == i / BlockSize && rs[n].tf > rs[best].tf { best := n; }
      n := n + 1;
    }
    m := rs[best].tf;
  }

  /** The list meets everything search relies on. */
  lemma FoundIsOk(rs: seq<Run>, documents: nat)
    requires RunsOk(rs, documents)
    ensures D.FoundOk(FoundOf(rs))
  {
    hide PostingsOf, V.BlocksOf, IsBlockMax, Blocks;
    var found := FoundOf(rs);
    BlockCount(rs);
    forall i | 0 <= i < |rs|
      ensures PostingOk(found.postings[i]) && Key(found.postings[i]) == rs[i].ordinal && Covers(D.BlockOf(found, i), found.postings[i])
      ensures found.postings[i].tf[0] + found.postings[i].tf[1] + found.postings[i].tf[2] > 0
    {
      var m := SomeBlockMax(rs, i);
      BlockIs(rs, documents, i, m);
      OwnBlock(rs, i, m);
    }
  }

  lemma BlockCount(rs: seq<Run>)
    requires |rs| > 0
    ensures |FoundOf(rs).blocks| == (|rs| + D.BlockSize - 1) / D.BlockSize
  {
  }

  lemma OwnBlock(rs: seq<Run>, i: nat, m: nat)
    requires i < |rs| && IsBlockMax(rs, i, m)
    ensures rs[i].tf <= m
  {
  }

  // ---------------------------------------------------------------- scores over titles of eight tokens

  /** A corpus of n documents whose titles all have eight tokens. */
  function Corpus(n: nat, log1p: real -> real): Scoring {
    Scoring(Stats(n, 0, [8 * n, 0, 0]), [1.0, 1.0, 1.0], log1p)
  }

  lemma TitleNorm(n: nat, log1p: real -> real)
    requires n > 0
    ensures Norm(Corpus(n, log1p), DocumentType, 0, 8) == 1.0
    ensures Norm(Corpus(n, log1p), DocumentType, 1, 8) == 6.25 && Norm(Corpus(n, log1p), DocumentType, 2, 8) == 6.25
  {
    assert (8 * n) as real / n as real == 8.0;
  }

  lemma TitleScore(n: nat, log1p: real -> real, f: TypeFrequency, r: Run)
    requires n > 0 && r.tf > 0 && r.ordinal < TypeBit
    ensures PostingScore(Corpus(n, log1p), f, TitlePosting(r.ordinal, r.first, r.tf, 8)) == Saturate(Idf(Corpus(n, log1p), f.documents, n), r.tf as real)
  {
    var s, p := Corpus(n, log1p), TitlePosting(r.ordinal, r.first, r.tf, 8);
    TitleNorm(n, log1p);
    hide Norm, Saturate, Idf;
    assert FieldWeight(s, p, 0) == Contribution(1.0, r.tf as real, 1.0) == r.tf as real;
    assert WeightedTf(s, p) == r.tf as real;
  }

  lemma TitleBound(n: nat, log1p: real -> real, f: TypeFrequency, tf: nat)
    requires n > 0 && tf > 0 && Idf(Corpus(n, log1p), f.documents, n) > 0.0
    ensures BlockBound(Corpus(n, log1p), f, Block(tf, 8), DocumentType) == Saturate(Idf(Corpus(n, log1p), f.documents, n), tf as real)
  {
    var s := Corpus(n, log1p);
    TitleNorm(n, log1p);
    SaturatePositive(Idf(s, f.documents, n), tf as real);
    hide Norm, Saturate, Idf;
    assert BestWeight(s, DocumentType, 8) == 1.0;
    assert BlockWeight(s, Block(tf, 8), DocumentType) == tf as real;
  }

  lemma Saturated(x: real)
    ensures Saturate(x, 1.0) == x && Saturate(x, 3.0) == x * 6.6 / 4.2 && Saturate(x, 7.0) == x * 15.4 / 8.2
  {
  }

  /** Key, score and bound of one entry of the list that the loop walks. */
  lemma ItemIs(n: nat, log1p: real -> real, f: TypeFrequency, rs: seq<Run>, documents: nat, i: nat, m: nat)
    requires n > 0 && Idf(Corpus(n, log1p), f.documents, n) > 0.0
    requires RunsOk(rs, documents) && i < |rs| && IsBlockMax(rs, i, m) && D.FoundOk(FoundOf(rs))
    ensures var list, x := L.ItemsOf(Corpus(n, log1p), f, FoundOf(rs), DocumentType), Idf(Corpus(n, log1p), f.documents, n);
      && |list| == |rs| && list[i].key == rs[i].ordinal
      && list[i].score == Saturate(x, rs[i].tf as real) && list[i].bound == Saturate(x, m as real)
  {
    BlockIs(rs, documents, i, m);
    OwnBlock(rs, i, m);
    TitleScore(n, log1p, f, rs[i]);
    TitleBound(n, log1p, f, m);
    hide PostingScore, BlockBound, Saturate, Idf, V.BlocksOf, IsBlockMax, D.FoundOk;
    BlockCount(rs);
  }

  // ---------------------------------------------------------------- lists of whole title corpora

  function GroupsFor(terms: seq<Bytes>, runs: seq<seq<Run>>): (gs: seq<Group>)
    requires |runs| == |terms|
    ensures |gs| == |terms| && forall k :: 0 <= k < |gs| ==> gs[k] == Group(terms[k], PostingsOf(runs[k]))
  {
    seq(|terms|, k requires 0 <= k < |terms| => Group(terms[k], PostingsOf(runs[k])))
  }

  predicate RunInTitle(titles: seq<seq<Bytes>>, term: Bytes, r: Run) {
    r.ordinal < |titles| && |titles[r.ordinal]| == 8 && r.first + r.tf <= 8
    && forall i :: r.first <= i < r.first + r.tf ==> titles[r.ordinal][i] == term
  }

  predicate RunAt(rs: seq<Run>, j: nat, d: nat, i: nat) {
    j < |rs| && rs[j].ordinal == d && rs[j].first <= i < rs[j].first + rs[j].tf
  }

  predicate TokenInRun(terms: seq<Bytes>, runs: seq<seq<Run>>, term: Bytes, d: nat, i: nat)
    requires |runs| == |terms|
  {
    exists k, j :: 0 <= k < |terms| && 0 <= j < |runs[k]| && terms[k] == term && RunAt(runs[k], j, d, i)
  }

  /** The runs are those of the titles: every run lies in its title and every token in a run. */
  predicate RunsOf(titles: seq<seq<Bytes>>, terms: seq<Bytes>, runs: seq<seq<Run>>) {
    && |runs| == |terms|
    && (forall k :: 0 <= k < |terms| ==> |terms[k]| > 0 && RunsOk(runs[k], |titles|))
    && (forall j, k :: 0 <= j < k < |terms| ==> Less(terms[j], terms[k]))
    && (forall k, j :: 0 <= k < |terms| && 0 <= j < |runs[k]| ==> RunInTitle(titles, terms[k], runs[k][j]))
    && (forall d, i :: 0 <= d < |titles| && 0 <= i < |titles[d]| ==> TokenInRun(terms, runs, titles[d][i], d, i))
  }

  lemma TokenHas(terms: seq<Bytes>, runs: seq<seq<Run>>, term: Bytes, d: nat, i: nat)
    requires |runs| == |terms| && TokenInRun(terms, runs, term, d, i)
    ensures HasToken(GroupsFor(terms, runs), term, d, i)
  {
    hide GroupsFor;
    var gs := GroupsFor(terms, runs);
    var k, j :| 0 <= k < |terms| && 0 <= j < |runs[k]| && terms[k] == term && RunAt(runs[k], j, d, i);
    var m := i - runs[k][j].first;
    assert gs[k].postings[j].positions[m] == Position(TitleField, i);
  }

  lemma RunOfTitle(titles: seq<seq<Bytes>>, term: Bytes, r: Run)
    requires RunInTitle(titles, term, r)
    ensures PostingOfTitle(titles, term, TitlePosting(r.ordinal, r.first, r.tf, 8))
  {
  }

  /** Sorting and grouping the tokens of the titles gives exactly the lists of the runs. */
  lemma TitlesGiveRuns(titles: seq<seq<Bytes>>, terms: seq<Bytes>, runs: seq<seq<Run>>)
    requires TitlesOk(titles) && RunsOf(titles, terms, runs)
    ensures FieldsInRange(Tokens(titles)) && Grouped(Tokens(titles)) == GroupsFor(terms, runs)
  {
    hide Tokens, Grouped, TitlesOk, RunsOk, RunInTitle, PostingsGood, Tight, TokenInRun, HasToken, PostingOfTitle, TitlePosting, Less, FieldsInRange;
    var gs := GroupsFor(terms, runs);
    forall k | 0 <= k < |gs| ensures PostingsGood(gs[k].postings, |titles|, 0) && forall j :: 0 <= j < |gs[k].postings| ==> Tight(gs[k].postings[j]) {
      RunsGood(runs[k], |titles|);
    }
    forall k, j | 0 <= k < |gs| && 0 <= j < |gs[k].postings| ensures PostingOfTitle(titles, gs[k].term, gs[k].postings[j]) {
      RunOfTitle(titles, terms[k], runs[k][j]);
    }
    forall d, i | 0 <= d < |titles| && 0 <= i < |titles[d]| ensures HasToken(gs, titles[d][i], d, i) {
      TokenHas(terms, runs, titles[d][i], d, i);
    }
    TitlesGroupTo(titles, gs);
  }

  /** The reader accepts every posting of the groups. */
  predicate AllAccepted(gs: seq<Group>, documents: nat) {
    forall k, i :: 0 <= k < |gs| && 0 <= i < |gs[k].postings| ==> PostingAccepted(gs[k].postings[i], documents, 0)
  }

  lemma RunsAccepted(terms: seq<Bytes>, runs: seq<seq<Run>>, documents: nat)
    requires |runs| == |terms| && forall k :: 0 <= k < |runs| ==> RunsOk(runs[k], documents)
    ensures AllAccepted(GroupsFor(terms, runs), documents)
  {
    hide RunsOk, PostingAccepted, PostingsOf, PostingsGood, Tight;
    forall k, i | 0 <= k < |runs| && 0 <= i < |PostingsOf(runs[k])| ensures PostingAccepted(PostingsOf(runs[k])[i], documents, 0) {
      RunsGood(runs[k], documents);
    }
  }

  // ---------------------------------------------------------------- three terms

  const TermA: Bytes := [1]
  const TermB: Bytes := [2]
  const TermC: Bytes := [3]
  const TermD: Bytes := [4]

  /** k documents with all three terms, one with the first only, one with the others three times each. */
  function ThreeTitle(k: nat, d: nat): seq<Bytes> {
    if d < k then [TermA, TermB, TermC, TermD, TermD, TermD, TermD, TermD]
    else if d == k then [TermA, TermD, TermD, TermD, TermD, TermD, TermD, TermD]
    else [TermB, TermB, TermB, TermC, TermC, TermC, TermD, TermD]
  }

  function ThreeTitles(k: nat): (titles: seq<seq<Bytes>>)
    ensures |titles| == k + 2 && forall d :: 0 <= d < k + 2 ==> titles[d] == ThreeTitle(k, d)
  {
    seq(k + 2, d requires 0 <= d < k + 2 => ThreeTitle(k, d))
  }

  function RareRuns(k: nat): (rs: seq<Run>)
    ensures |rs| == k + 1 && forall i :: 0 <= i <= k ==> rs[i] == Run(i, 0, 1)
  {
    seq(k + 1, i requires 0 <= i <= k => Run(i, 0, 1))
  }

  function HeavyRuns(k: nat, place: nat): (rs: seq<Run>)
    ensures |rs| == k + 1 && rs[k] == Run(k + 1, if place == 1 then 0 else 3, 3) && forall i :: 0 <= i < k ==> rs[i] == Run(i, place, 1)
  {
    seq(k + 1, i requires 0 <= i <= k => if i < k then Run(i, place, 1) else Run(k + 1, if place == 1 then 0 else 3, 3))
  }

  function RestRuns(k: nat): (rs: seq<Run>)
    ensures |rs| == k + 2
    ensures forall d :: 0 <= d < k + 2 ==> rs[d] == if d < k then Run(d, 3, 5) else if d == k then Run(d, 1, 7) else Run(d, 6, 2)
  {
    seq(k + 2, d requires 0 <= d < k + 2 => if d < k then Run(d, 3, 5) else if d == k then Run(d, 1, 7) else Run(d, 6, 2))
  }

  function ThreeRuns(k: nat): seq<seq<Run>> {
    [RareRuns(k), HeavyRuns(k, 1), HeavyRuns(k, 2), RestRuns(k)]
  }

  const FourTerms: seq<Bytes> := [TermA, TermB, TermC, TermD]

  lemma ThreeRunsOk(k: nat)
    requires k + 2 <= TypeBit
    ensures forall t :: 0 <= t < 4 ==> RunsOk(ThreeRuns(k)[t], k + 2)
  {
    hide RareRuns, HeavyRuns, RestRuns;
    assert RunsOk(RareRuns(k), k + 2) && RunsOk(HeavyRuns(k, 1), k + 2) && RunsOk(HeavyRuns(k, 2), k + 2) && RunsOk(RestRuns(k), k + 2);
  }

  lemma ThreeTokenInRun(k: nat, d: nat, i: nat)
    requires d < k + 2 && i < 8
    ensures |ThreeTitle(k, d)| == 8 && TokenInRun(FourTerms, ThreeRuns(k), ThreeTitle(k, d)[i], d, i)
  {
    hide RareRuns, HeavyRuns, RestRuns;
    var runs := ThreeRuns(k);
    var t := if d < k then (if i < 3 then i else 3) else if d == k then (if i == 0 then 0 else 3) else if i < 3 then 1 else if i < 6 then 2 else 3;
    var j := if t == 3 || d <= k then d else k;
    assert FourTerms[t] == ThreeTitle(k, d)[i] && RunAt(runs[t], j, d, i);
  }

  lemma ThreeRunInTitle(k: nat, t: nat, j: nat)
    requires t < 4 && j < |ThreeRuns(k)[t]|
    ensures RunInTitle(ThreeTitles(k), FourTerms[t], ThreeRuns(k)[t][j])
  {
    hide RareRuns, HeavyRuns, RestRuns, ThreeTitles;
  }

  lemma TermsIncrease(j: nat, t: nat)
    requires j < t < 4
    ensures Less(FourTerms[j], FourTerms[t])
  {
  }

  lemma ThreeTitlesOk(k: nat)
    ensures TitlesOk(ThreeTitles(k))
  {
  }

  lemma ThreeGroups(k: nat)
    requires k + 2 <= TypeBit
    ensures FieldsInRange(Tokens(ThreeTitles(k))) && Grouped(Tokens(ThreeTitles(k))) == GroupsFor(FourTerms, ThreeRuns(k))
    ensures AllAccepted(GroupsFor(FourTerms, ThreeRuns(k)), k + 2)
  {
    hide RunsOk, TokenInRun, RunInTitle, Less, Tokens, Grouped, FieldsInRange, GroupsFor, TitlesOk, AllAccepted, RareRuns, HeavyRuns, RestRuns;
    var titles, runs := ThreeTitles(k), ThreeRuns(k);
    ThreeTitlesOk(k);
    ThreeRunsOk(k);
    forall t, j | 0 <= t < 4 && 0 <= j < |runs[t]| ensures RunInTitle(titles, FourTerms[t], runs[t][j]) { ThreeRunInTitle(k, t, j); }
    forall j, t | 0 <= j < t < 4 ensures Less(FourTerms[j], FourTerms[t]) { TermsIncrease(j, t); }
    forall d, i | 0 <= d < |titles| && 0 <= i < |titles[d]| ensures TokenInRun(FourTerms, runs, titles[d][i], d, i) { ThreeTokenInRun(k, d, i); }
    RunsAccepted(FourTerms, runs, k + 2);
    TitlesGiveRuns(titles, FourTerms, runs);
  }

  lemma RareIs(k: nat, log1p: real -> real, f: TypeFrequency)
    requires 0 < k < BlockSize && Idf(Corpus(k + 2, log1p), f.documents, k + 2) > 0.0
    ensures D.FoundOk(FoundOf(RareRuns(k)))
    ensures RareList(L.ItemsOf(Corpus(k + 2, log1p), f, FoundOf(RareRuns(k)), DocumentType), Idf(Corpus(k + 2, log1p), f.documents, k + 2), k)
  {
    hide RareRuns, Saturate, Idf, D.FoundOk, L.ItemsOf;
    var rs, s, x := RareRuns(k), Corpus(k + 2, log1p), Idf(Corpus(k + 2, log1p), f.documents, k + 2);
    assert RunsOk(rs, k + 2);
    FoundIsOk(rs, k + 2);
    Saturated(x);
    var list := L.ItemsOf(s, f, FoundOf(rs), DocumentType);
    forall i | 0 <= i <= k ensures |list| == k + 1 && list[i].key == i && list[i].score == list[i].bound == x {
      assert rs[i].tf == 1 && IsBlockMax(rs, i, 1);
      ItemIs(k + 2, log1p, f, rs, k + 2, i, 1);
    }
    ItemCount(s, f, rs);
  }

  lemma ItemCount(s: Scoring, f: TypeFrequency, rs: seq<Run>)
    requires |s.stats.fieldTokens| == 3 && |s.boost| == 3 && |rs| > 0 && D.FoundOk(FoundOf(rs))
    ensures |L.ItemsOf(s, f, FoundOf(rs), DocumentType)| == |rs|
  {
  }

  lemma HeavyIs(k: nat, log1p: real -> real, f: TypeFrequency, place: nat)
    requires 0 < k < BlockSize && Idf(Corpus(k + 2, log1p), f.documents, k + 2) > 0.0 && 1 <= place <= 2
    ensures D.FoundOk(FoundOf(HeavyRuns(k, place)))
    ensures var x := Idf(Corpus(k + 2, log1p), f.documents, k + 2);
      HeavyList(L.ItemsOf(Corpus(k + 2, log1p), f, FoundOf(HeavyRuns(k, place)), DocumentType), x, x * 6.6 / 4.2, k)
  {
    hide HeavyRuns, Saturate, Idf, D.FoundOk, L.ItemsOf;
    var rs, s, x := HeavyRuns(k, place), Corpus(k + 2, log1p), Idf(Corpus(k + 2, log1p), f.documents, k + 2);
    assert RunsOk(rs, k + 2);
    FoundIsOk(rs, k + 2);
    Saturated(x);
    var list := L.ItemsOf(s, f, FoundOf(rs), DocumentType);
    forall i | 0 <= i <= k
      ensures |list| == k + 1 && list[i].key == (if i < k then i else k + 1) && list[i].bound == x * 6.6 / 4.2
      ensures list[i].score == if i < k then x else x * 6.6 / 4.2
    {
      assert rs[k].tf == 3 && k / BlockSize == i / BlockSize;
      assert IsBlockMax(rs, i, 3);
      ItemIs(k + 2, log1p, f, rs, k + 2, i, 3);
    }
    ItemCount(s, f, rs);
  }

  // ---------------------------------------------------------------- searches

  /** A search of one segment for terms of one frequency over all segments. */
  function PlanFor(frequency: nat, runs: seq<seq<Run>>): (p: D.Plan)
    requires forall t :: 0 <= t < |runs| ==> |runs[t]| > 0
    ensures |p.terms| == |runs| && forall t :: 0 <= t < |runs| ==> p.terms[t] == D.Term(TypeFrequency(frequency, 0), Some(FoundOf(runs[t])))
  {
    D.Plan(seq(|runs|, t requires 0 <= t < |runs| => D.Term(TypeFrequency(frequency, 0), Some(FoundOf(runs[t])))),
           seq(|runs|, t requires 0 <= t < |runs| => t))
  }

  function Documents(k: nat): D.Options {
    D.Options(false, false, DocumentType, k, AcceptAll)
  }

  lemma TermIsOk(frequency: nat, rs: seq<Run>, documents: nat)
    requires frequency > 0 && RunsOk(rs, documents)
    ensures D.TermOk(D.Term(TypeFrequency(frequency, 0), Some(FoundOf(rs))))
  {
    FoundIsOk(rs, documents);
    hide D.FoundOk;
  }

  lemma SearchOf(s: Scoring, frequency: nat, runs: seq<seq<Run>>, documents: nat, k: nat)
    requires |s.stats.fieldTokens| == 3 && |s.boost| == 3 && frequency > 0 && |runs| > 0
    requires forall t :: 0 <= t < |runs| ==> |runs[t]| > 0 && RunsOk(runs[t], documents)
    ensures D.PlanOk(PlanFor(frequency, runs)) && forall t :: 0 <= t < |runs| ==> D.FoundOk(FoundOf(runs[t]))
    ensures var q := L.QueryOf(s, PlanFor(frequency, runs), Documents(k));
      && |q.lists| == |runs| && q.topK == k && q.tokens == [0] && AcceptsAll(q)
      && forall t :: 0 <= t < |runs| ==> q.lists[t] == L.ItemsOf(s, TypeFrequency(frequency, 0), FoundOf(runs[t]), DocumentType)
  {
    hide D.TermOk, L.ItemsOf, FoundOf;
    var p := PlanFor(frequency, runs);
    forall t | 0 <= t < |runs| ensures D.TermOk(p.terms[t]) && D.FoundOk(FoundOf(runs[t])) {
      TermIsOk(frequency, runs[t], documents);
      FoundIsOk(runs[t], documents);
    }
    hide D.FoundOk, RunsOk;
    assert D.PlanOk(p);
    L.ListedInOrder(s, p.terms, DocumentType);
  }

  function ThreePlan(k: nat): D.Plan {
    PlanFor(k + 1, [RareRuns(k), HeavyRuns(k, 1), HeavyRuns(k, 2)])
  }

  lemma Ratios(x: real)
    requires x > 0.0
    ensures x < x * 6.6 / 4.2 < 2.0 * x && 2.0 * (x * 6.6 / 4.2) > 3.0 * x && x * 6.6 / 4.2 < x * 15.4 / 8.2
  {
  }

  lemma ThreeSearch(k: nat, log1p: real -> real)
    requires 0 < k < BlockSize && ScoringOk(Corpus(k + 2, log1p))
    ensures D.PlanOk(ThreePlan(k))
    ensures var x := Idf(Corpus(k + 2, log1p), k + 1, k + 2); ThreeShape(L.QueryOf(Corpus(k + 2, log1p), ThreePlan(k), Documents(k)), x, x * 6.6 / 4.2)
  {
    hide RunsOk, D.PlanOk, D.FoundOk, L.ItemsOf, L.QueryOf, Idf, RareList, HeavyList, RareRuns, HeavyRuns, RestRuns, FoundOf, PlanFor, AcceptsAll;
    var s, f := Corpus(k + 2, log1p), TypeFrequency(k + 1, 0);
    IdfSign(s, k + 1, k + 2);
    ThreeRunsOk(k);
    RareIs(k, log1p, f);
    HeavyIs(k, log1p, f, 1);
    HeavyIs(k, log1p, f, 2);
    Ratios(Idf(s, k + 1, k + 2));
    var runs := [RareRuns(k), HeavyRuns(k, 1), HeavyRuns(k, 2)];
    forall t | 0 <= t < 3 ensures |runs[t]| > 0 && RunsOk(runs[t], k + 2) { assert runs[t] == ThreeRuns(k)[t]; ThreeRunsSize(k); }
    SearchOf(s, k + 1, runs, k + 2, k);
  }

  lemma ThreeRunsSize(k: nat)
    ensures |RareRuns(k)| == |HeavyRuns(k, 1)| == |HeavyRuns(k, 2)| == k + 1
  {
  }

  lemma ThreeTokens(k: nat)
    ensures |ThreeTitles(k)| == k + 2 && |Tokens(ThreeTitles(k))| == 8 * (k + 2)
  {
    hide Tokens;
    TokenCount(ThreeTitles(k), 8);
  }

  lemma ThreePlanRuns(k: nat)
    ensures |ThreeRuns(k)| == 4 && (forall t :: 0 <= t < 3 ==> |ThreeRuns(k)[t]| == k + 1) && ThreePlan(k) == PlanFor(k + 1, ThreeRuns(k)[..3])
  {
    hide RareRuns, HeavyRuns, RestRuns;
    assert ThreeRuns(k)[..3] == [RareRuns(k), HeavyRuns(k, 1), HeavyRuns(k, 2)];
  }

  /**
   For every number of places that one block can fill and whatever the logarithm: an index of k + 2
   documents, its tokens, the lists the writer makes of them with the index's own frequencies, and a
   search of three of its terms that misses the best document.
   */
  lemma ThreeTermsArise(k: nat, log1p: real -> real)
    requires 0 < k < BlockSize && ScoringOk(Corpus(k + 2, log1p))
    ensures FieldsInRange(Tokens(ThreeTitles(k))) && Grouped(Tokens(ThreeTitles(k))) == GroupsFor(FourTerms, ThreeRuns(k))
    ensures AllAccepted(GroupsFor(FourTerms, ThreeRuns(k)), k + 2)
    ensures ThreePlan(k) == PlanFor(k + 1, ThreeRuns(k)[..3]) && forall t :: 0 <= t < 3 ==> |ThreeRuns(k)[t]| == k + 1
    ensures |ThreeTitles(k)| == k + 2 && |Tokens(ThreeTitles(k))| == 8 * (k + 2)
    ensures D.PlanOk(ThreePlan(k)) && Loses(L.QueryOf(Corpus(k + 2, log1p), ThreePlan(k), Documents(k)))
  {
    hide D.PlanOk, L.QueryOf, Idf, ThreeShape, Loses, ThreeRuns, ThreePlan, PlanFor, GroupsFor, Tokens, Grouped, FieldsInRange, ThreeTitles, ScoringOk, AllAccepted;
    ThreeGroups(k);
    ThreeSearch(k, log1p);
    ThreeRunsSize(k);
    ThreePlanRuns(k);
    ThreeTokens(k);
    var x := Idf(Corpus(k + 2, log1p), k + 1, k + 2);
    ThreeTermsLose(L.QueryOf(Corpus(k + 2, log1p), ThreePlan(k), Documents(k)), x, x * 6.6 / 4.2);
  }

  // ---------------------------------------------------------------- two blocks

  /** Where the filler starts in the title of a document. */
  function RestStart(k: nat, d: nat): nat {
    if d < k || d == k + 129 then 3 else if d < k + 128 then 1 else 7
  }

  /** k documents and a far one with the second term three times; 128 with the first term once and one with it seven times. */
  function TwoTitle(k: nat, d: nat): (title: seq<Bytes>)
    ensures |title| == 8
    ensures forall i :: 0 <= i < 8 ==> title[i] == if i >= RestStart(k, d) then TermC else if d < k || d == k + 129 then TermB else TermA
  {
    seq(8, i requires 0 <= i < 8 => if i >= RestStart(k, d) then TermC else if d < k || d == k + 129 then TermB else TermA)
  }

  function TwoTitles(k: nat): (titles: seq<seq<Bytes>>)
    ensures |titles| == k + 130 && forall d :: 0 <= d < k + 130 ==> titles[d] == TwoTitle(k, d)
  {
    seq(k + 130, d requires 0 <= d < k + 130 => TwoTitle(k, d))
  }

  function LongRuns(k: nat): (rs: seq<Run>)
    ensures |rs| == 129 && forall i :: 0 <= i < 129 ==> rs[i] == Run(k + i, 0, if i < 128 then 1 else 7)
  {
    seq(129, i requires 0 <= i < 129 => Run(k + i, 0, if i < 128 then 1 else 7))
  }

  function ShortRuns(k: nat): (rs: seq<Run>)
    ensures |rs| == k + 1 && forall i :: 0 <= i <= k ==> rs[i] == Run(if i < k then i else k + 129, 0, 3)
  {
    seq(k + 1, i requires 0 <= i <= k => Run(if i < k then i else k + 129, 0, 3))
  }

  function FillRuns(k: nat): (rs: seq<Run>)
    ensures |rs| == k + 130 && forall d :: 0 <= d < k + 130 ==> rs[d] == Run(d, RestStart(k, d), 8 - RestStart(k, d))
  {
    seq(k + 130, d requires 0 <= d < k + 130 => Run(d, RestStart(k, d), 8 - RestStart(k, d)))
  }

  function TwoRuns(k: nat): seq<seq<Run>> {
    [LongRuns(k), ShortRuns(k), FillRuns(k)]
  }

  lemma TwoRunsOk(k: nat)
    requires k + 130 <= TypeBit
    ensures forall t :: 0 <= t < 3 ==> |TwoRuns(k)[t]| > 0 && RunsOk(TwoRuns(k)[t], k + 130)
  {
    hide LongRuns, ShortRuns, FillRuns;
    assert RunsOk(LongRuns(k), k + 130) && RunsOk(ShortRuns(k), k + 130) && RunsOk(FillRuns(k), k + 130);
  }

  lemma TwoTokenInRun(k: nat, d: nat, i: nat)
    requires d < k + 130 && i < 8
    ensures TokenInRun(FourTerms[..3], TwoRuns(k), TwoTitle(k, d)[i], d, i)
  {
    hide LongRuns, ShortRuns, FillRuns;
    var runs := TwoRuns(k);
    var t := if i >= RestStart(k, d) then 2 else if d < k || d == k + 129 then 1 else 0;
    var j := if t == 2 then d else if t == 1 then (if d < k then d else k) else d - k;
    assert FourTerms[..3][t] == TwoTitle(k, d)[i] && RunAt(runs[t], j, d, i);
  }

  lemma TwoRunInTitle(k: nat, t: nat, j: nat)
    requires t < 3 && j < |TwoRuns(k)[t]|
    ensures RunInTitle(TwoTitles(k), FourTerms[t], TwoRuns(k)[t][j])
  {
    hide LongRuns, ShortRuns, FillRuns, TwoTitles;
  }

  lemma TwoTitlesOk(k: nat)
    ensures TitlesOk(TwoTitles(k))
  {
  }

  lemma TwoGroups(k: nat)
    requires k + 130 <= TypeBit
    ensures FieldsInRange(Tokens(TwoTitles(k))) && Grouped(Tokens(TwoTitles(k))) == GroupsFor(FourTerms[..3], TwoRuns(k))
    ensures AllAccepted(GroupsFor(FourTerms[..3], TwoRuns(k)), k + 130)
  {
    hide RunsOk, TokenInRun, RunInTitle, Less, Tokens, Grouped, FieldsInRange, GroupsFor, TitlesOk, AllAccepted, LongRuns, ShortRuns, FillRuns;
    var titles, terms, runs := TwoTitles(k), FourTerms[..3], TwoRuns(k);
    TwoTitlesOk(k);
    TwoRunsOk(k);
    forall t, j | 0 <= t < 3 && 0 <= j < |runs[t]| ensures RunInTitle(titles, terms[t], runs[t][j]) { TwoRunInTitle(k, t, j); }
    forall j, t | 0 <= j < t < 3 ensures Less(terms[j], terms[t]) { TermsIncrease(j, t); }
    forall d, i | 0 <= d < |titles| && 0 <= i < |titles[d]| ensures TokenInRun(terms, runs, titles[d][i], d, i) { TwoTokenInRun(k, d, i); }
    RunsAccepted(terms, runs, k + 130);
    TitlesGiveRuns(titles, terms, runs);
  }

  // ---------------------------------------------------------------- the other segment of that index

  function StartA(k: nat, d: nat): nat {
    if d < k then 1 else 0
  }

  function StartB(d: nat): nat {
    if d < 128 then 1 else 0
  }

  /** The first k documents start with the first term; the first 128 have the second term next. */
  function OtherTitle(k: nat, d: nat): (title: seq<Bytes>)
    ensures |title| == 8
    ensures forall i :: 0 <= i < 8 ==> title[i] == if i < StartA(k, d) then TermA else if i < StartA(k, d) + StartB(d) then TermB else TermC
  {
    seq(8, i requires 0 <= i < 8 => if i < StartA(k, d) then TermA else if i < StartA(k, d) + StartB(d) then TermB else TermC)
  }

  function OtherTitles(k: nat): (titles: seq<seq<Bytes>>)
    ensures |titles| == k + 130 && forall d :: 0 <= d < k + 130 ==> titles[d] == OtherTitle(k, d)
  {
    seq(k + 130, d requires 0 <= d < k + 130 => OtherTitle(k, d))
  }

  function OtherA(k: nat): (rs: seq<Run>)
    ensures |rs| == k && forall d :: 0 <= d < k ==> rs[d] == Run(d, 0, 1)
  {
    seq(k, d requires 0 <= d < k => Run(d, 0, 1))
  }

  function OtherB(k: nat): (rs: seq<Run>)
    ensures |rs| == 128 && forall d :: 0 <= d < 128 ==> rs[d] == Run(d, StartA(k, d), 1)
  {
    seq(128, d requires 0 <= d < 128 => Run(d, StartA(k, d), 1))
  }

  function OtherC(k: nat): (rs: seq<Run>)
    ensures |rs| == k + 130 && forall d :: 0 <= d < k + 130 ==> rs[d] == Run(d, StartA(k, d) + StartB(d), 8 - StartA(k, d) - StartB(d))
  {
    seq(k + 130, d requires 0 <= d < k + 130 => Run(d, StartA(k, d) + StartB(d), 8 - StartA(k, d) - StartB(d)))
  }

  function OtherRuns(k: nat): seq<seq<Run>> {
    [OtherA(k), OtherB(k), OtherC(k)]
  }

  lemma OtherRunsOk(k: nat)
    requires 0 < k && k + 130 <= TypeBit
    ensures forall t :: 0 <= t < 3 ==> |OtherRuns(k)[t]| > 0 && RunsOk(OtherRuns(k)[t], k + 130)
  {
    hide OtherA, OtherB, OtherC;
    assert RunsOk(OtherA(k), k + 130) && RunsOk(OtherB(k), k + 130) && RunsOk(OtherC(k), k + 130);
  }

  lemma OtherTokenInRun(k: nat, d: nat, i: nat)
    requires d < k + 130 && i < 8
    ensures TokenInRun(FourTerms[..3], OtherRuns(k), OtherTitle(k, d)[i], d, i)
  {
    hide OtherA, OtherB, OtherC;
    var runs := OtherRuns(k);
    var t := if i < StartA(k, d) then 0 else if i < StartA(k, d) + StartB(d) then 1 else 2;
    assert FourTerms[..3][t] == OtherTitle(k, d)[i] && RunAt(runs[t], d, d, i);
  }

  lemma OtherRunInTitle(k: nat, t: nat, j: nat)
    requires t < 3 && j < |OtherRuns(k)[t]|
    ensures RunInTitle(OtherTitles(k), FourTerms[t], OtherRuns(k)[t][j])
  {
    hide OtherA, OtherB, OtherC, OtherTitles;
  }

  lemma OtherTitlesOk(k: nat)
    ensures TitlesOk(OtherTitles(k))
  {
  }

  lemma OtherGroups(k: nat)
    requires 0 < k && k + 130 <= TypeBit
    ensures FieldsInRange(Tokens(OtherTitles(k))) && Grouped(Tokens(OtherTitles(k))) == GroupsFor(FourTerms[..3], OtherRuns(k))
    ensures AllAccepted(GroupsFor(FourTerms[..3], OtherRuns(k)), k + 130)
  {
    hide RunsOk, TokenInRun, RunInTitle, Less, Tokens, Grouped, FieldsInRange, GroupsFor, TitlesOk, AllAccepted, OtherA, OtherB, OtherC;
    var titles, terms, runs := OtherTitles(k), FourTerms[..3], OtherRuns(k);
    OtherTitlesOk(k);
    OtherRunsOk(k);
    forall t, j | 0 <= t < 3 && 0 <= j < |runs[t]| ensures RunInTitle(titles, terms[t], runs[t][j]) { OtherRunInTitle(k, t, j); }
    forall j, t | 0 <= j < t < 3 ensures Less(terms[j], terms[t]) { TermsIncrease(j, t); }
    forall d, i | 0 <= d < |titles| && 0 <= i < |titles[d]| ensures TokenInRun(terms, runs, titles[d][i], d, i) { OtherTokenInRun(k, d, i); }
    RunsAccepted(terms, runs, k + 130);
    TitlesGiveRuns(titles, terms, runs);
  }

  /** Both segments together: documents, tokens, and the frequencies of the two searched terms. */
  lemma TwoSegments(k: nat)
    ensures |TwoTitles(k)| + |OtherTitles(k)| == 2 * k + 260
    ensures |Tokens(TwoTitles(k))| + |Tokens(OtherTitles(k))| == 8 * (2 * k + 260)
    ensures |TwoRuns(k)[0]| + |OtherRuns(k)[0]| == k + 129 && |TwoRuns(k)[1]| + |OtherRuns(k)[1]| == k + 129
  {
    hide Tokens;
    TokenCount(TwoTitles(k), 8);
    TokenCount(OtherTitles(k), 8);
  }

  lemma LongIs(k: nat, n: nat, log1p: real -> real, f: TypeFrequency)
    requires n > 0 && k + 130 <= TypeBit && Idf(Corpus(n, log1p), f.documents, n) > 0.0
    ensures D.FoundOk(FoundOf(LongRuns(k)))
    ensures var x := Idf(Corpus(n, log1p), f.documents, n);
      LongList(L.ItemsOf(Corpus(n, log1p), f, FoundOf(LongRuns(k)), DocumentType), x, x * 15.4 / 8.2, k, 128)
  {
    hide LongRuns, Saturate, Idf, D.FoundOk, L.ItemsOf;
    var rs, s, x := LongRuns(k), Corpus(n, log1p), Idf(Corpus(n, log1p), f.documents, n);
    assert RunsOk(rs, k + 130);
    FoundIsOk(rs, k + 130);
    Saturated(x);
    var list := L.ItemsOf(s, f, FoundOf(rs), DocumentType);
    ItemCount(s, f, rs);
    forall i | 0 <= i < 129 ensures list[i].key == k + i && list[i].score == list[i].bound == if i < 128 then x else x * 15.4 / 8.2 {
      var m := if i < 128 then 1 else 7;
      assert rs[i].tf == m && IsBlockMax(rs, i, m);
      ItemIs(n, log1p, f, rs, k + 130, i, m);
    }
  }

  lemma ShortIs(k: nat, n: nat, log1p: real -> real, f: TypeFrequency)
    requires n > 0 && k + 130 <= TypeBit && Idf(Corpus(n, log1p), f.documents, n) > 0.0
    ensures D.FoundOk(FoundOf(ShortRuns(k)))
    ensures var x := Idf(Corpus(n, log1p), f.documents, n);
      ShortList(L.ItemsOf(Corpus(n, log1p), f, FoundOf(ShortRuns(k)), DocumentType), x * 6.6 / 4.2, k, k + 129)
  {
    hide ShortRuns, Saturate, Idf, D.FoundOk, L.ItemsOf;
    var rs, s, x := ShortRuns(k), Corpus(n, log1p), Idf(Corpus(n, log1p), f.documents, n);
    assert RunsOk(rs, k + 130);
    FoundIsOk(rs, k + 130);
    Saturated(x);
    var list := L.ItemsOf(s, f, FoundOf(rs), DocumentType);
    ItemCount(s, f, rs);
    forall i | 0 <= i <= k ensures list[i].key == (if i < k then i else k + 129) && list[i].score == list[i].bound == x * 6.6 / 4.2 {
      assert rs[i].tf == 3 && IsBlockMax(rs, i, 3);
      ItemIs(n, log1p, f, rs, k + 130, i, 3);
    }
  }

  function TwoPlan(k: nat): D.Plan {
    PlanFor(k + 129, [LongRuns(k), ShortRuns(k)])
  }

  lemma TwoSearch(k: nat, log1p: real -> real)
    requires 0 < k && k + 130 <= TypeBit && ScoringOk(Corpus(2 * k + 260, log1p))
    ensures D.PlanOk(TwoPlan(k))
    ensures var x := Idf(Corpus(2 * k + 260, log1p), k + 129, 2 * k + 260);
      TwoShape(L.QueryOf(Corpus(2 * k + 260, log1p), TwoPlan(k), Documents(k)), x, x * 6.6 / 4.2, x * 15.4 / 8.2, 128, k + 129)
  {
    hide RunsOk, D.PlanOk, D.FoundOk, L.ItemsOf, L.QueryOf, Idf, LongList, ShortList, LongRuns, ShortRuns, FillRuns, FoundOf, PlanFor, AcceptsAll;
    var n := 2 * k + 260;
    var s, f := Corpus(n, log1p), TypeFrequency(k + 129, 0);
    IdfSign(s, k + 129, n);
    TwoRunsOk(k);
    LongIs(k, n, log1p, f);
    ShortIs(k, n, log1p, f);
    Ratios(Idf(s, k + 129, n));
    var runs := [LongRuns(k), ShortRuns(k)];
    forall t | 0 <= t < 2 ensures |runs[t]| > 0 && RunsOk(runs[t], k + 130) { assert runs[t] == TwoRuns(k)[t]; }
    SearchOf(s, k + 129, runs, k + 130, k);
  }

  /**
   Likewise with two terms, for every number of places: an index of two segments of k + 130 documents
   each, in which both terms occur in k + 129 documents, and a search of its first segment.
   */
  lemma TwoBlocksArise(k: nat, log1p: real -> real)
    requires 0 < k && k + 130 <= TypeBit && ScoringOk(Corpus(2 * k + 260, log1p))
    ensures FieldsInRange(Tokens(TwoTitles(k))) && Grouped(Tokens(TwoTitles(k))) == GroupsFor(FourTerms[..3], TwoRuns(k))
    ensures AllAccepted(GroupsFor(FourTerms[..3], TwoRuns(k)), k + 130)
    ensures FieldsInRange(Tokens(OtherTitles(k))) && Grouped(Tokens(OtherTitles(k))) == GroupsFor(FourTerms[..3], OtherRuns(k))
    ensures AllAccepted(GroupsFor(FourTerms[..3], OtherRuns(k)), k + 130)
    ensures |TwoTitles(k)| + |OtherTitles(k)| == 2 * k + 260 && |Tokens(TwoTitles(k))| + |Tokens(OtherTitles(k))| == 8 * (2 * k + 260)
    ensures |TwoRuns(k)[0]| + |OtherRuns(k)[0]| == k + 129 && |TwoRuns(k)[1]| + |OtherRuns(k)[1]| == k + 129
    ensures TwoPlan(k) == PlanFor(k + 129, TwoRuns(k)[..2])
    ensures D.PlanOk(TwoPlan(k)) && Loses(L.QueryOf(Corpus(2 * k + 260, log1p), TwoPlan(k), Documents(k)))
  {
    hide D.PlanOk, L.QueryOf, Idf, TwoShape, Loses, TwoRuns, TwoPlan, PlanFor, GroupsFor, Tokens, Grouped, FieldsInRange, TwoTitles, OtherTitles, OtherRuns, ScoringOk, AllAccepted;
    TwoGroups(k);
    OtherGroups(k);
    TwoSegments(k);
    TwoSearch(k, log1p);
    TwoPlanRuns(k);
    var x := Idf(Corpus(2 * k + 260, log1p), k + 129, 2 * k + 260);
    TwoBlocksLose(L.QueryOf(Corpus(2 * k + 260, log1p), TwoPlan(k), Documents(k)), x, x * 6.6 / 4.2, x * 15.4 / 8.2, 128, k + 129);
  }

  lemma TwoPlanRuns(k: nat)
    ensures |TwoRuns(k)| == 3 && (forall t :: 0 <= t < 2 ==> |TwoRuns(k)[t]| > 0) && TwoPlan(k) == PlanFor(k + 129, TwoRuns(k)[..2])
  {
    hide LongRuns, ShortRuns, FillRuns;
    assert TwoRuns(k)[..2] == [LongRuns(k), ShortRuns(k)];
  }
}
