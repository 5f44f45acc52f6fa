/**
 Field-weighted BM25 over exact real arithmetic, and the per-block bound used for pruning.  The
 logarithm is a parameter of which only positivity on positive arguments is used.
 */
module Bm25 {
  const DocumentType: nat := 1
  const PassageType: nat := 2

  /** Keys order documents in front of passages; ordinals stay below the type bit. */
  const TypeBit: nat := 0x8000_0000_0000_0000

  datatype Position = Position(field: nat, position: nat)

  datatype Posting = Posting(objectType: nat, ordinal: nat, tf: seq<nat>, length: seq<nat>, positions: seq<Position>)

  predicate PostingOk(p: Posting) {
    (p.objectType == 1 || p.objectType == 2) && p.ordinal < TypeBit && |p.tf| == 3 && |p.length| == 3
  }

  function Key(p: Posting): nat
    requires PostingOk(p)
  {
    if p.objectType == PassageType then TypeBit + p.ordinal else p.ordinal
  }

  datatype Stats = Stats(documentCount: nat, passageCount: nat, fieldTokens: seq<nat>)

  /** Inputs of scoring: corpus statistics, field boosts and the logarithm. */
  datatype Scoring = Scoring(stats: Stats, boost: seq<real>, log1p: real -> real)

  ghost predicate ScoringOk(s: Scoring) {
    && |s.stats.fieldTokens| == 3 && |s.boost| == 3
    && (forall f :: 0 <= f < 3 ==> s.boost[f] >= 0.0)
    && (forall x: real :: x > 0.0 ==> s.log1p(x) > 0.0)
  }

  function AverageLength(stats: Stats, objectType: nat, field: nat): (r: real)
    requires |stats.fieldTokens| == 3 && field < 3
    ensures r > 0.0
  {
    var count := if field == 2 then stats.passageCount else stats.documentCount;
    if (field == 2 && objectType != PassageType) || (field != 2 && objectType != DocumentType) || count == 0 then 1.0
    else if stats.fieldTokens[field] == 0 then 1.0
    else stats.fieldTokens[field] as real / count as real
  }

  function Idf(s: Scoring, frequency: nat, count: nat): real {
    if frequency == 0 || count == 0 || frequency > count then 0.0
    else s.log1p((count as real - frequency as real + 0.5) / (frequency as real + 0.5))
  }

  lemma IdfSign(s: Scoring, frequency: nat, count: nat)
    requires ScoringOk(s)
    ensures Idf(s, frequency, count) >= 0.0
    ensures 0 < frequency <= count ==> Idf(s, frequency, count) > 0.0
  {
    if 0 < frequency <= count {
      assert (count as real - frequency as real + 0.5) / (frequency as real + 0.5) > 0.0;
    }
  }

  function ObjectCount(stats: Stats, objectType: nat): nat {
    if objectType == DocumentType then stats.documentCount else stats.passageCount
  }

  /** Length normalisation with b = 0.75. */
  function Norm(s: Scoring, objectType: nat, field: nat, length: nat): (r: real)
    requires |s.stats.fieldTokens| == 3 && field < 3
    ensures r > 0.0
  {
    var average := AverageLength(s.stats, objectType, field);
    DivNonNegative(length as real, average);
    0.25 + 0.75 * (length as real / average)
  }

  lemma DivNonNegative(a: real, b: real)
    requires a >= 0.0 && b > 0.0
    ensures a / b >= 0.0
  {
  }

  function Contribution(boost: real, tf: real, norm: real): real
    requires norm > 0.0
  {
    boost * tf / norm
  }

  function FieldWeight(s: Scoring, p: Posting, field: nat): real
    requires |s.stats.fieldTokens| == 3 && |s.boost| == 3 && PostingOk(p) && field < 3
  {
    if p.tf[field] == 0 then 0.0
    else Contribution(s.boost[field], p.tf[field] as real, Norm(s, p.objectType, field, p.length[field]))
  }

  function WeightedTf(s: Scoring, p: Posting): real
    requires |s.stats.fieldTokens| == 3 && |s.boost| == 3 && PostingOk(p)
  {
    FieldWeight(s, p, 0) + FieldWeight(s, p, 1) + FieldWeight(s, p, 2)
  }

  /** Term-frequency saturation with k1 = 1.2. */
  function Saturate(idf: real, w: real): real
    requires w >= 0.0
  {
    idf * (w * 2.2) / (1.2 + w)
  }

  /** Frequencies of one term per object type over the whole corpus. */
  datatype TypeFrequency = TypeFrequency(documents: nat, passages: nat)

  function FrequencyOf(f: TypeFrequency, objectType: nat): nat {
    if objectType == DocumentType then f.documents else f.passages
  }

  function PostingScore(s: Scoring, f: TypeFrequency, p: Posting): real
    requires |s.stats.fieldTokens| == 3 && |s.boost| == 3 && PostingOk(p)
  {
    var w := WeightedTf(s, p);
    if w <= 0.0 then 0.0
    else Saturate(Idf(s, FrequencyOf(f, p.objectType), ObjectCount(s.stats, p.objectType)), w)
  }

  // ---------------------------------------------------------------- the score in whole numbers

  lemma NormInFull(length: real, average: real, tokens: real, count: real)
    requires tokens > 0.0 && count > 0.0 && average == tokens / count
    ensures (0.25 + 0.75 * (length / average)) * 4.0 * tokens == tokens + 3.0 * length * count
  {
    var x := length / average;
    assert x * average == length;
    assert average * count == tokens;
    assert x * tokens == length * count by { assert x * (average * count) == (x * average) * count; }
  }

  lemma ContributionInFull(boost: real, tf: real, norm: real, a: real, b: real)
    requires norm > 0.0 && norm * 4.0 * a == b
    ensures Contribution(boost, tf, norm) * b == 4.0 * boost * tf * a
  {
    var x := Contribution(boost, tf, norm);
    assert x * norm == boost * tf;
    assert x * b == (x * norm) * 4.0 * a;
  }

  /**
   With k objects that hold t tokens of a field, tf tokens in a field of n weigh 4 boost tf t / (t + 3 n k).
   Titles and bodies are measured over documents, passages over passages.
   */
  lemma WeightInFull(s: Scoring, p: Posting, field: nat)
    requires |s.stats.fieldTokens| == 3 && |s.boost| == 3 && PostingOk(p) && field < 3
    requires field < 2 <==> p.objectType == DocumentType
    requires (if field < 2 then s.stats.documentCount else s.stats.passageCount) > 0 && s.stats.fieldTokens[field] > 0
    ensures var count := if field < 2 then s.stats.documentCount else s.stats.passageCount;
      var tokens := s.stats.fieldTokens[field] as real;
      FieldWeight(s, p, field) * (tokens + 3.0 * p.length[field] as real * count as real) == 4.0 * s.boost[field] * p.tf[field] as real * tokens
  {
    var count := if field < 2 then s.stats.documentCount else s.stats.passageCount;
    var tokens := s.stats.fieldTokens[field] as real;
    if p.tf[field] > 0 {
      NormInFull(p.length[field] as real, AverageLength(s.stats, p.objectType, field), tokens, count as real);
      hide Contribution;
      ContributionInFull(s.boost[field], p.tf[field] as real, Norm(s, p.objectType, field, p.length[field]), tokens,
                         tokens + 3.0 * p.length[field] as real * count as real);
    }
  }

  /** A field of the other kind of object, or one without statistics, is measured against one token. */
  lemma WeightWithoutAverage(s: Scoring, p: Posting, field: nat)
    requires |s.stats.fieldTokens| == 3 && |s.boost| == 3 && PostingOk(p) && field < 3
    requires (field < 2 && (p.objectType == PassageType || s.stats.documentCount == 0))
      || (field == 2 && (p.objectType == DocumentType || s.stats.passageCount == 0)) || s.stats.fieldTokens[field] == 0
    ensures FieldWeight(s, p, field) * (1.0 + 3.0 * p.length[field] as real) == 4.0 * s.boost[field] * p.tf[field] as real
  {
    if p.tf[field] > 0 {
      NormInFull(p.length[field] as real, 1.0, 1.0, 1.0);
      hide Contribution;
      ContributionInFull(s.boost[field], p.tf[field] as real, Norm(s, p.objectType, field, p.length[field]), 1.0, 1.0 + 3.0 * p.length[field] as real);
    }
  }

  lemma IdfInFull(count: real, frequency: real)
    requires frequency > 0.0
    ensures (count - frequency + 0.5) / (frequency + 0.5) == (2.0 * count - 2.0 * frequency + 1.0) / (2.0 * frequency + 1.0)
  {
    var x := (count - frequency + 0.5) / (frequency + 0.5);
    assert x * (frequency + 0.5) == count - frequency + 0.5;
    assert x * (2.0 * frequency + 1.0) == 2.0 * count - 2.0 * frequency + 1.0;
  }

  lemma SaturateInFull(idf: real, w: real)
    requires w >= 0.0
    ensures Saturate(idf, w) * (6.0 + 5.0 * w) == 11.0 * idf * w
  {
    var x := Saturate(idf, w);
    assert x * (1.2 + w) == idf * (w * 2.2);
    assert x * (6.0 + 5.0 * w) == 5.0 * (x * (1.2 + w));
  }

  /** A term that n of k objects have scores 11 w log(1 + (2k - 2n + 1) / (2n + 1)) / (6 + 5 w) at weight w. */
  lemma ScoreInFull(s: Scoring, f: TypeFrequency, p: Posting)
    requires |s.stats.fieldTokens| == 3 && |s.boost| == 3 && PostingOk(p)
    ensures var w := FieldWeight(s, p, 0) + FieldWeight(s, p, 1) + FieldWeight(s, p, 2);
      var k := if p.objectType == DocumentType then s.stats.documentCount else s.stats.passageCount;
      var n := if p.objectType == DocumentType then f.documents else f.passages;
      if w > 0.0 && 0 < n <= k then
        PostingScore(s, f, p) * (6.0 + 5.0 * w) == 11.0 * s.log1p((2 * k - 2 * n + 1) as real / (2 * n + 1) as real) * w
      else PostingScore(s, f, p) == 0.0
  {
    hide FieldWeight, Saturate;
    var w := FieldWeight(s, p, 0) + FieldWeight(s, p, 1) + FieldWeight(s, p, 2);
    var k := if p.objectType == DocumentType then s.stats.documentCount else s.stats.passageCount;
    var n := if p.objectType == DocumentType then f.documents else f.passages;
    if w > 0.0 {
      SaturateInFull(Idf(s, n, k), w);
      if 0 < n <= k {
        IdfInFull(k as real, n as real);
        assert (2 * k - 2 * n + 1) as real == 2.0 * k as real - 2.0 * n as real + 1.0;
      } else {
        ZeroFactor(PostingScore(s, f, p), 6.0 + 5.0 * w);
      }
    }
  }

  lemma ZeroFactor(a: real, b: real)
    requires a * b == 0.0 && b > 0.0
    ensures a == 0.0
  {
  }

  datatype Block = Block(maxTf: nat, minLength: nat)

  /** The block maxima cover a posting: as the writer computes and the reader checks them. */
  predicate Covers(b: Block, p: Posting)
    requires PostingOk(p)
  {
    p.tf[0] + p.tf[1] + p.tf[2] <= b.maxTf && forall f :: 0 <= f < 3 && p.tf[f] > 0 ==> b.minLength <= p.length[f]
  }

  function Weight(boost: real, norm: real): real
    requires norm > 0.0
  {
    boost / norm
  }

  function Max(a: real, b: real): real {
    if a > b then a else b
  }

  /** Largest boost over length norm of any field, for the shortest field of the block. */
  function BestWeight(s: Scoring, objectType: nat, minLength: nat): (r: real)
    requires |s.stats.fieldTokens| == 3 && |s.boost| == 3
    ensures r >= 0.0
  {
    Max(Weight(s.boost[2], Norm(s, objectType, 2, minLength)),
        Max(Weight(s.boost[1], Norm(s, objectType, 1, minLength)),
            Max(Weight(s.boost[0], Norm(s, objectType, 0, minLength)), 0.0)))
  }

  lemma BestWeightCovers(s: Scoring, objectType: nat, minLength: nat, field: nat)
    requires |s.stats.fieldTokens| == 3 && |s.boost| == 3 && field < 3
    ensures Weight(s.boost[field], Norm(s, objectType, field, minLength)) <= BestWeight(s, objectType, minLength)
  {
    hide Weight, Norm;
    assert field == 0 || field == 1 || field == 2;
  }

  function BlockWeight(s: Scoring, b: Block, objectType: nat): (r: real)
    requires |s.stats.fieldTokens| == 3 && |s.boost| == 3
    ensures r >= 0.0
  {
    var best := BestWeight(s, objectType, b.minLength);
    MulNonNegative(best, b.maxTf as real);
    best * b.maxTf as real
  }

  function TypeBound(s: Scoring, f: TypeFrequency, b: Block, objectType: nat): real
    requires |s.stats.fieldTokens| == 3 && |s.boost| == 3
  {
    Saturate(Idf(s, FrequencyOf(f, objectType), ObjectCount(s.stats, objectType)), BlockWeight(s, b, objectType))
  }

  lemma MulNonNegative(a: real, b: real)
    requires a >= 0.0 && b >= 0.0
    ensures a * b >= 0.0
  {
  }

  predicate Wanted(objectType: nat, filter: nat) {
    filter == 0 || filter == objectType
  }

  /** The larger of the two type bounds that the object filter admits, and never negative. */
  function BlockBound(s: Scoring, f: TypeFrequency, b: Block, filter: nat): (r: real)
    requires |s.stats.fieldTokens| == 3 && |s.boost| == 3
    ensures r >= 0.0
    ensures Wanted(DocumentType, filter) ==> TypeBound(s, f, b, DocumentType) <= r
    ensures Wanted(PassageType, filter) ==> TypeBound(s, f, b, PassageType) <= r
  {
    var d := if Wanted(DocumentType, filter) && TypeBound(s, f, b, DocumentType) > 0.0 then TypeBound(s, f, b, DocumentType) else 0.0;
    if Wanted(PassageType, filter) && TypeBound(s, f, b, PassageType) > d then TypeBound(s, f, b, PassageType) else d
  }

  // ---------------------------------------------------------------- the bound is a bound

  lemma MulMonotone(x: real, b: real, c: real)
    requires x >= 0.0 && b <= c
    ensures x * b <= x * c
  {
    assert x * (c - b) >= 0.0;
  }

  lemma NonPositiveFactor(z: real, k: real)
    requires z * k <= 0.0 && k > 0.0
    ensures z <= 0.0
  {
  }

  lemma DivCross(a: real, b: real, c: real, d: real)
    requires b > 0.0 && d > 0.0 && a * d <= c * b
    ensures a / b <= c / d
  {
    var x, y := a / b, c / d;
    assert x * b == a && y * d == c;
    MulNonNegative(b, d);
    assert (x - y) * (b * d) == a * d - c * b by {
      assert x * (b * d) == (x * b) * d && y * (b * d) == (y * d) * b;
    }
    assert b * d > 0.0;
    NonPositiveFactor(x - y, b * d);
  }

  /** A boosted frequency over a longer field is at most frequency times the weight at the shortest. */
  lemma WeightBound(boost: real, tf: real, n: real, m: real, best: real)
    requires boost >= 0.0 && tf >= 0.0 && 0.0 < m <= n && Weight(boost, m) <= best
    ensures 0.0 <= Contribution(boost, tf, n) <= best * tf
  {
    MulNonNegative(boost, tf);
    DivNonNegative(boost * tf, n);
    MulMonotone(boost * tf, m, n);
    DivCross(boost * tf, n, boost * tf, m);
    DivSwap(boost, tf, m);
    MulMonotone(tf, boost / m, best);
  }

  lemma SumBound(best: real, t0: real, t1: real, t2: real, most: real, w0: real, w1: real, w2: real)
    requires best >= 0.0 && w0 <= best * t0 && w1 <= best * t1 && w2 <= best * t2 && t0 + t1 + t2 <= most
    ensures w0 + w1 + w2 <= best * most
  {
    MulMonotone(best, t0 + t1 + t2, most);
    assert best * (t0 + t1 + t2) == best * t0 + best * t1 + best * t2;
  }

  lemma NormMonotone(s: Scoring, objectType: nat, field: nat, a: nat, b: nat)
    requires |s.stats.fieldTokens| == 3 && field < 3 && a <= b
    ensures Norm(s, objectType, field, a) <= Norm(s, objectType, field, b)
  {
    var average := AverageLength(s.stats, objectType, field);
    MulMonotone(average, a as real, b as real);
    DivCross(a as real, average, b as real, average);
  }

  /** One field contributes at most its term frequency times the best weight of the block. */
  lemma FieldBound(s: Scoring, b: Block, p: Posting, field: nat)
    requires ScoringOk(s) && PostingOk(p) && Covers(b, p) && field < 3
    ensures 0.0 <= FieldWeight(s, p, field) <= BestWeight(s, p.objectType, b.minLength) * p.tf[field] as real
  {
    hide Norm, BestWeight, Weight, Contribution;
    var best := BestWeight(s, p.objectType, b.minLength);
    if p.tf[field] > 0 {
      NormMonotone(s, p.objectType, field, b.minLength, p.length[field]);
      BestWeightCovers(s, p.objectType, b.minLength, field);
      WeightBound(s.boost[field], p.tf[field] as real, Norm(s, p.objectType, field, p.length[field]),
                  Norm(s, p.objectType, field, b.minLength), best);
    } else {
      MulNonNegative(best, p.tf[field] as real);
    }
  }

  lemma DivSwap(a: real, t: real, m: real)
    requires m > 0.0
    ensures a * t / m == a / m * t
  {
    var q := a / m;
    assert q * m == a;
    assert a * t == (q * t) * m;
  }

  lemma SaturateMonotone(idf: real, v: real, w: real)
    requires idf >= 0.0 && 0.0 <= v <= w
    ensures 0.0 <= Saturate(idf, v) <= Saturate(idf, w)
  {
    var x, y := idf * (v * 2.2) / (1.2 + v), idf * (w * 2.2) / (1.2 + w);
    MulNonNegative(idf, v * 2.2);
    MulNonNegative(idf, w * 2.2);
    DivNonNegative(idf * (v * 2.2), 1.2 + v);
    CrossMultiply(idf, v, w);
    DivCross(idf * (v * 2.2), 1.2 + v, idf * (w * 2.2), 1.2 + w);
  }

  lemma CrossMultiply(idf: real, v: real, w: real)
    requires idf >= 0.0 && 0.0 <= v <= w
    ensures (idf * (v * 2.2)) * (1.2 + w) <= (idf * (w * 2.2)) * (1.2 + v)
  {
    var d := (w * 2.2) * (1.2 + v) - (v * 2.2) * (1.2 + w);
    assert d == 2.64 * (w - v);
    MulNonNegative(idf, d);
    assert idf * d == idf * ((w * 2.2) * (1.2 + v)) - idf * ((v * 2.2) * (1.2 + w));
  }

  lemma WeightedTfWithin(s: Scoring, b: Block, p: Posting)
    requires ScoringOk(s) && PostingOk(p) && Covers(b, p)
    ensures 0.0 <= WeightedTf(s, p) <= BlockWeight(s, b, p.objectType)
  {
    hide Norm, BestWeight, FieldWeight;
    FieldBound(s, b, p, 0);
    FieldBound(s, b, p, 1);
    FieldBound(s, b, p, 2);
    SumBound(BestWeight(s, p.objectType, b.minLength), p.tf[0] as real, p.tf[1] as real, p.tf[2] as real, b.maxTf as real,
             FieldWeight(s, p, 0), FieldWeight(s, p, 1), FieldWeight(s, p, 2));
  }

  /** The stored block maxima bound the score of every wanted posting of the block. */
  lemma BlockBoundsScore(s: Scoring, f: TypeFrequency, b: Block, p: Posting, filter: nat)
    requires ScoringOk(s) && PostingOk(p) && Covers(b, p) && Wanted(p.objectType, filter)
    ensures 0.0 <= PostingScore(s, f, p) <= BlockBound(s, f, b, filter)
  {
    hide WeightedTf, BlockWeight, Saturate, Idf;
    assert p.objectType == DocumentType || p.objectType == PassageType;
    WeightedTfWithin(s, b, p);
    IdfSign(s, FrequencyOf(f, p.objectType), ObjectCount(s.stats, p.objectType));
    SaturateMonotone(Idf(s, FrequencyOf(f, p.objectType), ObjectCount(s.stats, p.objectType)), WeightedTf(s, p),
                     BlockWeight(s, b, p.objectType));
  }

  /** A block of a term that occurs has a positive bound as soon as some boost is positive. */
  lemma BoundIsPositive(s: Scoring, f: TypeFrequency, b: Block, p: Posting, field: nat, filter: nat)
    requires ScoringOk(s) && PostingOk(p) && Wanted(p.objectType, filter) && b.maxTf > 0
    requires field < 3 && s.boost[field] > 0.0
    requires 0 < FrequencyOf(f, p.objectType) <= ObjectCount(s.stats, p.objectType)
    ensures BlockBound(s, f, b, filter) > 0.0
  {
    hide Saturate, Norm, BestWeight, Idf;
    assert p.objectType == DocumentType || p.objectType == PassageType;
    IdfSign(s, FrequencyOf(f, p.objectType), ObjectCount(s.stats, p.objectType));
    BestWeightCovers(s, p.objectType, b.minLength, field);
    QuotientPositive(s.boost[field], Norm(s, p.objectType, field, b.minLength));
    ProductPositive(BestWeight(s, p.objectType, b.minLength), b.maxTf as real);
    SaturatePositive(Idf(s, FrequencyOf(f, p.objectType), ObjectCount(s.stats, p.objectType)), BlockWeight(s, b, p.objectType));
  }

  /** A posting with all the term frequency of the block in one field of the shortest length. */
  function Extreme(b: Block, objectType: nat, field: nat): Posting
    requires field < 3
  {
    Posting(objectType, 0, [0, 0, 0][field := b.maxTf], [b.minLength, b.minLength, b.minLength], [])
  }

  lemma ExtremeWeight(s: Scoring, b: Block, objectType: nat, field: nat)
    requires ScoringOk(s) && (objectType == DocumentType || objectType == PassageType) && field < 3
    requires Weight(s.boost[field], Norm(s, objectType, field, b.minLength)) == BestWeight(s, objectType, b.minLength)
    ensures WeightedTf(s, Extreme(b, objectType, field)) == BlockWeight(s, b, objectType)
  {
    hide Norm, BestWeight, Contribution;
    var p := Extreme(b, objectType, field);
    ContributionIs(s.boost[field], b.maxTf as real, Norm(s, objectType, field, b.minLength));
    forall i | 0 <= i < 3 && i != field ensures FieldWeight(s, p, i) == 0.0 { }
    assert FieldWeight(s, p, field) == BlockWeight(s, b, objectType);
  }

  lemma ContributionIs(boost: real, tf: real, norm: real)
    requires norm > 0.0
    ensures Contribution(boost, tf, norm) == Weight(boost, norm) * tf && (tf == 0.0 ==> Contribution(boost, tf, norm) == 0.0)
  {
    DivSwap(boost, tf, norm);
  }

  lemma ExtremeScore(s: Scoring, f: TypeFrequency, b: Block, objectType: nat, field: nat)
    requires ScoringOk(s) && (objectType == DocumentType || objectType == PassageType) && field < 3
    requires Weight(s.boost[field], Norm(s, objectType, field, b.minLength)) == BestWeight(s, objectType, b.minLength)
    ensures PostingScore(s, f, Extreme(b, objectType, field)) == TypeBound(s, f, b, objectType)
  {
    hide Norm, BestWeight, Saturate, FieldWeight, BlockWeight;
    ExtremeWeight(s, b, objectType, field);
    if BlockWeight(s, b, objectType) == 0.0 {
      SaturateInFull(Idf(s, FrequencyOf(f, objectType), ObjectCount(s.stats, objectType)), 0.0);
    }
  }

  /** The bound is no larger than it must be: when positive, it is the score of a posting the block could hold. */
  lemma BoundIsAttained(s: Scoring, f: TypeFrequency, b: Block, filter: nat) returns (p: Posting)
    requires ScoringOk(s) && BlockBound(s, f, b, filter) > 0.0
    ensures PostingOk(p) && Covers(b, p) && Wanted(p.objectType, filter) && PostingScore(s, f, p) == BlockBound(s, f, b, filter)
  {
    hide Norm, Saturate, TypeBound, PostingScore;
    var t := if Wanted(DocumentType, filter) && TypeBound(s, f, b, DocumentType) == BlockBound(s, f, b, filter) then DocumentType else PassageType;
    var field := BestField(s, t, b.minLength);
    ExtremeScore(s, f, b, t, field);
    p := Extreme(b, t, field);
  }

  lemma BestField(s: Scoring, objectType: nat, minLength: nat) returns (field: nat)
    requires ScoringOk(s)
    ensures field < 3 && Weight(s.boost[field], Norm(s, objectType, field, minLength)) == BestWeight(s, objectType, minLength)
  {
    hide Norm;
    DivNonNegative(s.boost[0], Norm(s, objectType, 0, minLength));
    field := if Weight(s.boost[2], Norm(s, objectType, 2, minLength)) == BestWeight(s, objectType, minLength) then 2
             else if Weight(s.boost[1], Norm(s, objectType, 1, minLength)) == BestWeight(s, objectType, minLength) then 1 else 0;
  }

  lemma QuotientPositive(boost: real, norm: real)
    requires boost > 0.0 && norm > 0.0
    ensures Weight(boost, norm) > 0.0
  {
  }

  lemma ProductPositive(a: real, b: real)
    requires a > 0.0 && b > 0.0
    ensures a * b > 0.0
  {
  }

  lemma SaturatePositive(idf: real, w: real)
    requires idf > 0.0 && w > 0.0
    ensures Saturate(idf, w) > 0.0
  {
    ProductPositive(idf, w * 2.2);
  }
}
