/** Cutting a unit list into segments: greedy slices, a merged tail, and retries by bisection. */
module SegmentPlanner {
  import opened Common
  import opened Slices
  import opened Occurrences
  import opened LexicalFormat
  import opened TermCounts
  import opened UnitCounting
  import opened SegmentSizer
  import opened SizeOrder

  datatype Config = Config(segmentIdBytes: nat, metadataBase: nat, vectors: bool, modelIdBytes: nat, dimensions: nat)

  datatype Policy = Policy(target: nat, softMax: nat, hardMax: nat)

  predicate PolicyOk(p: Policy) {
    0 < p.target <= p.softMax <= p.hardMax <= MaxPayload
  }

  function Align4(n: nat): nat {
    (n + 3) / 4 * 4
  }

  /** Payload bytes of documents, terms, postings, positions, metadata, vectors and tombstones. */
  function Components(c: Config, s: Sizes): (r: seq<nat>)
    ensures |r| == 7
  {
    [24 + c.segmentIdBytes + s.documentPayload,
     if s.documents > 0 then s.termPayload else 0,
     if s.documents > 0 then s.postingPayload else 0,
     if s.documents > 0 then s.positionPayload else 0,
     if s.documents > 0 then c.metadataBase + s.metadataPayload else 0,
     if c.vectors && s.passages > 0 then
       Align4(40 + c.modelIdBytes + s.passages * 16 + s.vectorIdBytes) + s.passages * c.dimensions * 4 else 0,
     if s.tombstones > 0 then s.tombstonePayload else 0]
  }

  /**
   What the files of a slice hold besides their headers: documents always, the lexical parts and metadata
   with the first document, tombstones with the first tombstone, and vectors with the first passage: a
   head of 40 bytes and the model's name, 16 bytes and the id of each passage, filled up to a multiple
   of four, and then four bytes per dimension.
   */
  lemma ComponentsInFull(c: Config, us: seq<PlanUnit>)
    ensures var s, r := Tally(us), Components(c, Tally(us));
      && r[0] == 24 + c.segmentIdBytes + DocumentPayload(us)
      && (Docs(us) == [] ==> r[1] == r[2] == r[3] == r[4] == 0)
      && (Docs(us) != [] ==> r[1] == s.termPayload && r[2] == s.postingPayload && r[3] == s.positionPayload && r[4] == c.metadataBase + MetadataPayload(us))
      && (!c.vectors || PassageCount(Docs(us)) == 0 ==> r[5] == 0)
      && (c.vectors && PassageCount(Docs(us)) > 0 ==>
            var head := 40 + c.modelIdBytes + 16 * PassageCount(Docs(us)) + VectorIdBytes(us);
            var fill := r[5] - head - 4 * (PassageCount(Docs(us)) * c.dimensions);
            0 <= fill < 4 && (head + fill) % 4 == 0)
      && r[6] == if Tombstones(us) == 0 then 0 else 12 + TombstoneBytes(us)
  {
    hide CountsOf, Combined, TotalCost;
    if c.vectors && PassageCount(Docs(us)) > 0 {
      var head := 40 + c.modelIdBytes + 16 * PassageCount(Docs(us)) + VectorIdBytes(us);
      FilledUp(head);
    }
  }

  lemma FilledUp(n: nat)
    ensures Align4(n) % 4 == 0 && n <= Align4(n) < n + 4
  {
  }

  predicate CountsFit(s: Sizes) {
    s.documents <= 1000000 && s.passages <= 4000000
  }

  predicate Fits(c: Config, s: Sizes, limit: nat) {
    CountsFit(s) && forall i :: 0 <= i < 7 ==> Components(c, s)[i] <= limit
  }

  ghost predicate UnitsFit(c: Config, us: seq<PlanUnit>, limit: nat) {
    Fits(c, Tally(us), limit)
  }

  lemma TermsDoNotMatter(c: Config, s: Sizes, terms: Counts, limit: nat)
    ensures Fits(c, s.(terms := terms), limit) <==> Fits(c, s, limit)
    ensures Components(c, s.(terms := terms)) == Components(c, s)
  {
    assert Components(c, s.(terms := terms)) == Components(c, s);
  }

  method Largest(v: seq<nat>) returns (largest: nat, at: nat)
    requires |v| > 0
    ensures at < |v| && v[at] == largest && forall i :: 0 <= i < |v| ==> v[i] <= largest
    ensures forall i :: 0 <= i < at ==> v[i] < largest
  {
    largest, at := 0, 0;
    for i := 0 to |v|
      invariant at < |v| && (forall j :: 0 <= j < i ==> v[j] <= largest)
      invariant i == 0 ==> largest == 0
      invariant v[at] == largest || (largest == 0 && forall j :: 0 <= j < i ==> v[j] == 0)
      invariant largest == 0 ==> at == 0
      invariant forall j :: 0 <= j < at ==> v[j] < largest
    {
      if v[i] > largest {
        largest, at := v[i], i;
      }
    }
  }

  // ---------------------------------------------------------------- fitting less

  lemma ComponentsGrow(c: Config, a: Sizes, b: Sizes, i: nat)
    requires SizesWithin(a, b) && i < 7
    ensures Components(c, a)[i] <= Components(c, b)[i]
  {
    if i == 5 && c.vectors && a.passages > 0 {
      TimesGrows(a.passages, b.passages, c.dimensions);
      AlignGrows(40 + c.modelIdBytes + a.passages * 16 + a.vectorIdBytes, 40 + c.modelIdBytes + b.passages * 16 + b.vectorIdBytes);
    }
  }

  lemma TimesGrows(a: nat, b: nat, k: nat)
    requires a <= b
    ensures a * k * 4 <= b * k * 4
  {
    assert (b - a) * k >= 0;
  }

  lemma AlignGrows(a: nat, b: nat)
    requires a <= b
    ensures Align4(a) <= Align4(b)
  {
  }

  lemma FitsWithin(c: Config, a: Sizes, b: Sizes, limit: nat, more: nat)
    requires SizesWithin(a, b) && Fits(c, b, limit) && limit <= more
    ensures Fits(c, a, more)
  {
    hide Components;
    forall i | 0 <= i < 7 ensures Components(c, a)[i] <= more { ComponentsGrow(c, a, b, i); }
  }

  lemma PrefixFits(c: Config, us: seq<PlanUnit>, n: nat, limit: nat)
    requires UnitsFit(c, us, limit) && n <= |us|
    ensures UnitsFit(c, us[..n], limit)
  {
    hide Tally, Fits;
    PrefixWithin(us, n);
    FitsWithin(c, Tally(us[..n]), Tally(us), limit, limit);
  }

  /** A unit that fits behind others fits alone. */
  lemma FitsAlone(c: Config, us: seq<PlanUnit>, u: PlanUnit, limit: nat, more: nat)
    requires UnitsFit(c, us + [u], limit) && limit <= more
    ensures UnitsFit(c, [u], more)
  {
    hide Tally, Fits;
    UnitWithin(us, u);
    FitsWithin(c, Tally([u]), Tally(us + [u]), limit, more);
  }

  // ---------------------------------------------------------------- sizing one more unit

  /**
   What a slice with one more unit asks for: its largest payload and the first component of that size, or
   just above the limit when it holds too many documents or passages.
   */
  ghost predicate Demands(c: Config, us: seq<PlanUnit>, u: PlanUnit, limit: nat, required: nat, component: nat) {
    var s := Tally(us + [u]);
    if CountsFit(s) then
      && component < 7 && required == Components(c, s)[component]
      && (forall i :: 0 <= i < 7 ==> Components(c, s)[i] <= required)
      && (forall i :: 0 <= i < component ==> Components(c, s)[i] < required)
    else required == limit + 1 && component == if u.DocumentUnit? then 0 else 6
  }

  /** Would the slice still fit with one more unit?  If not, how large would it get? */
  method ProjectedFits(c: Config, sizer: Sizer, u: PlanUnit, terms: Counts, limit: nat) returns (ok: bool, required: nat, component: nat)
    requires sizer.Valid() && terms == UnitTerms(u)
    ensures ok <==> UnitsFit(c, sizer.units + [u], limit)
    ensures !ok ==> required > limit
    ensures Demands(c, sizer.units, u, limit, required, component)
  {
    hide Tally, Components;
    var s := sizer.Project(u, terms);
    TermsDoNotMatter(c, Tally(sizer.units + [u]), sizer.sizes.terms, limit);
    if s.documents > MaxDocuments || s.passages > MaxPassages {
      return false, limit + 1, if u.DocumentUnit? then 0 else 6;
    }
    required, component := Largest(Components(c, s));
    ok := required <= limit;
  }

  /** Slices cover the units up to first, in order. */
  ghost predicate Covers(slices: seq<Slice>, first: nat) {
    if |slices| == 0 then first == 0 else OrderedPartition(slices, first)
  }

  ghost predicate GoodSlice(c: Config, us: seq<PlanUnit>, p: Policy, slice: Slice) {
    && slice.first + slice.count <= |us| && slice.count > 0
    && var part := us[slice.first..slice.first + slice.count];
       UnitsFit(c, part, p.target) || (slice.count == 1 && UnitsFit(c, part, p.hardMax))
  }

  ghost predicate GoodSlices(c: Config, us: seq<PlanUnit>, p: Policy, slices: seq<Slice>) {
    forall k :: 0 <= k < |slices| ==> GoodSlice(c, us, p, slices[k])
  }

  ghost function SliceSizes(c: Config, us: seq<PlanUnit>, slice: Slice): seq<nat>
    requires slice.first + slice.count <= |us|
  {
    Components(c, Tally(us[slice.first..slice.first + slice.count]))
  }

  datatype Outcome = Planned(slices: seq<Slice>) | TooLarge(unit: nat, required: nat, component: nat) | Rejected(error: Status)

  ghost predicate PreparedAs(us: seq<PlanUnit>, prepared: seq<Counts>) {
    |prepared| == |us| && forall i :: 0 <= i < |us| ==> prepared[i] == UnitTerms(us[i])
  }

  /** Count the terms of every unit once. */
  method PrepareUnits(us: seq<PlanUnit>) returns (prepared: seq<Counts>)
    ensures PreparedAs(us, prepared)
  {
    prepared := [];
    for i := 0 to |us|
      invariant |prepared| == i && forall j :: 0 <= j < i ==> prepared[j] == UnitTerms(us[j])
    {
      if us[i].DocumentUnit? {
        var items := Prepared(us[i].tokens);
        PreparedScannable(us[i].tokens);
        var m := ScanUnit(items);
        ScanCounts(items, m);
        prepared := prepared + [CountsFrom(m)];
      } else {
        prepared := prepared + [map[]];
      }
    }
  }

  lemma CoversMore(slices: seq<Slice>, first: nat, count: nat)
    requires Covers(slices, first)
    ensures OrderedPartition(slices + [Slice(first, count)], first + count)
  {
    var more := slices + [Slice(first, count)];
    forall j, k | 0 <= j < k < |more| && k == j + 1 ensures more[k].first == more[j].first + more[j].count {
      if k < |slices| { assert more[j] == slices[j] && more[k] == slices[k]; }
    }
  }

  /** A plan for a non-empty unit list. */
  ghost predicate PlanOk(c: Config, us: seq<PlanUnit>, p: Policy, slices: seq<Slice>) {
    && OrderedPartition(slices, |us|) && NonEmptySlices(slices)
    && (forall k :: 0 <= k < |slices| - 1 ==> GoodSlice(c, us, p, slices[k]))
    && var last := slices[|slices| - 1];
       && last.first + last.count <= |us|
       && (GoodSlice(c, us, p, last) || UnitsFit(c, us[last.first..last.first + last.count], p.softMax))
  }

  /** A slice ended only because its successor's first unit would have pushed it over the target. */
  ghost predicate Greedy(c: Config, us: seq<PlanUnit>, p: Policy, slices: seq<Slice>) {
    forall j, k :: 0 <= j < k < |slices| && k == j + 1 ==> Full(c, us, p, slices[j].first, slices[k].first)
  }

  ghost predicate Full(c: Config, us: seq<PlanUnit>, p: Policy, first: nat, next: nat) {
    first <= next < |us| && !UnitsFit(c, us[first..next + 1], p.target)
  }

  lemma GreedyMore(c: Config, us: seq<PlanUnit>, p: Policy, slices: seq<Slice>, slice: Slice)
    requires Greedy(c, us, p, slices) && (|slices| > 0 ==> Full(c, us, p, slices[|slices| - 1].first, slice.first))
    ensures Greedy(c, us, p, slices + [slice])
  {
    hide Full;
    var more := slices + [slice];
    forall j, k | 0 <= j < k < |more| && k == j + 1 ensures Full(c, us, p, more[j].first, more[k].first) {
      if k < |slices| { assert more[j] == slices[j] && more[k] == slices[k]; }
    }
  }

  /**
   A greedy cut of the first n units: every slice is within the target or a single unit, and ended because
   the unit behind it would have pushed it over the target.
   */
  ghost predicate IsCut(c: Config, us: seq<PlanUnit>, p: Policy, slices: seq<Slice>, n: nat) {
    && n <= |us| && Covers(slices, n) && GoodSlices(c, us, p, slices) && Greedy(c, us, p, slices)
    && (|slices| > 0 && n < |us| ==> Full(c, us, p, slices[|slices| - 1].first, n))
  }

  ghost predicate AllFit(c: Config, us: seq<PlanUnit>, n: nat, limit: nat) {
    n <= |us| && forall i :: 0 <= i < n ==> UnitsFit(c, [us[i]], limit)
  }

  /** The last slice is below half the target in every payload and fits the soft limit with the one before it. */
  ghost predicate MergesTail(c: Config, us: seq<PlanUnit>, p: Policy, cut: seq<Slice>) {
    && |cut| >= 2
    && var before, tail := cut[|cut| - 2], cut[|cut| - 1];
    && tail.first + tail.count <= |us| && AllBelow(SliceSizes(c, us, tail), p.target / 2)
    && before.first + (before.count + tail.count) <= |us|
    && UnitsFit(c, us[before.first..before.first + (before.count + tail.count)], p.softMax)
  }

  function WithTailMerged(cut: seq<Slice>): seq<Slice>
    requires |cut| >= 2
  {
    cut[..|cut| - 2] + [Slice(cut[|cut| - 2].first, cut[|cut| - 2].count + cut[|cut| - 1].count)]
  }

  /**
   What planning comes to, by how far the greedy cut goes: to the end, up to the lowest unit that does
   not fit the hard limit alone, or to the most slices there can be.
   */
  ghost predicate PlanIs(c: Config, us: seq<PlanUnit>, p: Policy, cut: seq<Slice>, n: nat, r: Outcome) {
    && IsCut(c, us, p, cut, n) && |cut| <= 100000 && AllFit(c, us, n, p.hardMax)
    && match r
       case Planned(slices) => n == |us| && slices == (if MergesTail(c, us, p, cut) then WithTailMerged(cut) else cut)
       case TooLarge(unit, required, component) =>
         n == unit < |us| && !UnitsFit(c, [us[unit]], p.hardMax) && Demands(c, [], us[unit], p.hardMax, required, component)
       case Rejected(error) => error == OutOfRange && |cut| == 100000 && n < |us| && UnitsFit(c, [us[n]], p.hardMax)
  }

  /** The slices emitted so far cover the units up to first, are good and full, and carry their sizes. */
  ghost predicate Emitted(c: Config, us: seq<PlanUnit>, p: Policy, slices: seq<Slice>, payloads: seq<seq<nat>>, first: nat) {
    && Covers(slices, first) && GoodSlices(c, us, p, slices) && Greedy(c, us, p, slices) && |payloads| == |slices|
    && (forall k :: 0 <= k < |slices| ==> payloads[k] == SliceSizes(c, us, slices[k]))
    && (|slices| > 0 && first < |us| ==> Full(c, us, p, slices[|slices| - 1].first, first))
  }

  lemma EmitSlice(c: Config, us: seq<PlanUnit>, p: Policy, slices: seq<Slice>, payloads: seq<seq<nat>>, first: nat, next: nat)
    requires Emitted(c, us, p, slices, payloads, first) && first < next <= |us| && GoodSlice(c, us, p, Slice(first, next - first))
    requires next < |us| ==> Full(c, us, p, first, next)
    ensures Emitted(c, us, p, slices + [Slice(first, next - first)], payloads + [Components(c, Tally(us[first..next]))], next)
  {
    hide GoodSlice, Full, SliceSizes, OrderedPartition;
    CoversMore(slices, first, next - first);
    GreedyMore(c, us, p, slices, Slice(first, next - first));
    NewSizes(c, us, first, next);
  }

  lemma NewSizes(c: Config, us: seq<PlanUnit>, first: nat, next: nat)
    requires first < next <= |us|
    ensures SliceSizes(c, us, Slice(first, next - first)) == Components(c, Tally(us[first..next]))
  {
  }

  /** Start a new slice whenever the next unit would push a payload over the target. */
  method Cut(c: Config, us: seq<PlanUnit>, prepared: seq<Counts>, p: Policy)
    returns (r: Outcome, payloads: seq<seq<nat>>, ghost cut: seq<Slice>, ghost n: nat)
    requires PreparedAs(us, prepared) && |us| > 0 && PolicyOk(p)
    ensures IsCut(c, us, p, cut, n) && |cut| <= MaxSegments && AllFit(c, us, n, p.hardMax)
    ensures r.Planned? ==> n == |us| && r.slices == cut
    ensures r.TooLarge? ==> n == r.unit < |us| && !UnitsFit(c, [us[n]], p.hardMax) && Demands(c, [], us[n], p.hardMax, r.required, r.component)
    ensures r.Rejected? ==> |cut| == MaxSegments && n < |us| && UnitsFit(c, [us[n]], p.hardMax)
    ensures r.Planned? ==> OrderedPartition(r.slices, |us|) && GoodSlices(c, us, p, r.slices) && |payloads| == |r.slices|
    ensures r.Planned? ==> Greedy(c, us, p, r.slices)
    ensures r.Planned? ==> forall k :: 0 <= k < |r.slices| ==> payloads[k] == SliceSizes(c, us, r.slices[k])
    ensures r.TooLarge? ==> r.unit < |us| && !UnitsFit(c, [us[r.unit]], p.hardMax) && r.required > p.hardMax
    ensures r.Rejected? ==> r.error == OutOfRange
  {
    hide UnitsFit, Tally, Components, Emitted, OrderedPartition, IsCut, Demands;
    var slices: seq<Slice> := [];
    payloads, cut, n := [], [], 0;
    NothingEmitted(c, us, p);
    var sizer := new Sizer();
    var first := 0;
    for i := 0 to |us|
      invariant first <= i && (i > 0 ==> first < i) && fresh(sizer) && sizer.Valid() && sizer.units == us[first..i]
      invariant Emitted(c, us, p, slices, payloads, first) && |slices| <= MaxSegments
      invariant first < i ==> GoodSlice(c, us, p, Slice(first, i - first))
      invariant cut == slices && n == first && AllFit(c, us, i, p.hardMax)
    {
      EmittedIsCut(c, us, p, slices, payloads, first);
      assert us[first..i] + [us[i]] == us[first..i + 1] && us[i..i] == [] && [] + [us[i]] == us[i..i + 1] && us[i..i + 1] == [us[i]];
      var ok, required, component := ProjectedFits(c, sizer, us[i], prepared[i], p.target);
      if !ok && i > first {
        if |slices| >= MaxSegments {
          return Rejected(OutOfRange), payloads, cut, n;
        }
        EmitSlice(c, us, p, slices, payloads, first, i);
        slices, payloads := slices + [Slice(first, i - first)], payloads + [Components(c, sizer.sizes)];
        sizer := new Sizer();
        first := i;
        cut, n := slices, first;
        EmittedIsCut(c, us, p, slices, payloads, first);
        ok, required, component := ProjectedFits(c, sizer, us[i], prepared[i], p.target);
      }
      if !ok {
        ok, required, component := ProjectedFits(c, sizer, us[i], prepared[i], p.hardMax);
      }
      if !ok {
        return TooLarge(i, required, component), payloads, cut, n;
      }
      if UnitsFit(c, sizer.units + [us[i]], p.target) { FitsAlone(c, sizer.units, us[i], p.target, p.hardMax); }
      sizer.Add(us[i], prepared[i]);
    }
    if |slices| >= MaxSegments {
      EmittedIsCut(c, us, p, slices, payloads, first);
      return Rejected(OutOfRange), payloads, cut, n;
    }
    EmitSlice(c, us, p, slices, payloads, first, |us|);
    slices, payloads := slices + [Slice(first, |us| - first)], payloads + [Components(c, sizer.sizes)];
    AllEmitted(c, us, p, slices, payloads);
    EmittedIsCut(c, us, p, slices, payloads, |us|);
    r, cut, n := Planned(slices), slices, |us|;
  }

  lemma EmittedIsCut(c: Config, us: seq<PlanUnit>, p: Policy, slices: seq<Slice>, payloads: seq<seq<nat>>, first: nat)
    requires Emitted(c, us, p, slices, payloads, first) && first <= |us|
    ensures IsCut(c, us, p, slices, first)
  {
    hide GoodSlice, Full, SliceSizes, OrderedPartition;
  }

  lemma NothingEmitted(c: Config, us: seq<PlanUnit>, p: Policy)
    ensures Emitted(c, us, p, [], [], 0)
  {
  }

  lemma AllEmitted(c: Config, us: seq<PlanUnit>, p: Policy, slices: seq<Slice>, payloads: seq<seq<nat>>)
    requires Emitted(c, us, p, slices, payloads, |us|) && |slices| > 0
    ensures OrderedPartition(slices, |us|) && GoodSlices(c, us, p, slices) && Greedy(c, us, p, slices) && |payloads| == |slices|
    ensures forall k :: 0 <= k < |slices| ==> payloads[k] == SliceSizes(c, us, slices[k])
  {
    hide GoodSlice, Full, SliceSizes, OrderedPartition;
  }

  /** Every prefix of the range stays within the limit. */
  ghost predicate PrefixesFit(c: Config, us: seq<PlanUnit>, first: nat, count: nat, limit: nat)
    requires first + count <= |us|
  {
    forall j :: first < j <= first + count ==> UnitsFit(c, us[first..j], limit)
  }

  /** Size a range unit by unit against a limit. */
  method RangeFits(c: Config, us: seq<PlanUnit>, prepared: seq<Counts>, first: nat, count: nat, limit: nat) returns (ok: bool)
    requires PreparedAs(us, prepared) && first + count <= |us| && count > 0
    ensures ok <==> PrefixesFit(c, us, first, count, limit)
  {
    hide UnitsFit, Tally, Components;
    var sizer := new Sizer();
    assert us[first..first] == [];
    for i := first to first + count
      invariant fresh(sizer) && sizer.Valid() && sizer.units == us[first..i]
      invariant forall j :: first < j <= i ==> UnitsFit(c, us[first..j], limit)
    {
      assert us[first..i] + [us[i]] == us[first..i + 1];
      var fits, _, _ := ProjectedFits(c, sizer, us[i], prepared[i], limit);
      if !fits {
        return false;
      }
      sizer.Add(us[i], prepared[i]);
    }
    return true;
  }

  lemma MergedTail(slices: seq<Slice>, n: nat)
    requires OrderedPartition(slices, n) && |slices| >= 2
    ensures var k := |slices| - 2;
      && slices[k].first + slices[k].count == slices[k + 1].first
      && OrderedPartition(slices[..k] + [Slice(slices[k].first, slices[k].count + slices[k + 1].count)], n)
  {
    var k := |slices| - 2;
    var last := k + 1;
    assert slices[last].first == slices[k].first + slices[k].count;
    var more := slices[..k] + [Slice(slices[k].first, slices[k].count + slices[last].count)];
    forall i, j | 0 <= i < j < |more| && j == i + 1 ensures more[j].first == more[i].first + more[i].count {
      assert more[i] == slices[i];
      assert more[j].first == slices[j].first;
    }
  }

  /** There is a slice before the last, and all payloads of the last are below half the target. */
  predicate SmallTail(p: Policy, slices: seq<Slice>, payloads: seq<seq<nat>>) {
    |slices| >= 2 && |payloads| == |slices| && AllBelow(payloads[|slices| - 1], p.target / 2)
  }

  predicate AllBelow(v: seq<nat>, limit: nat) {
    forall i :: 0 <= i < |v| ==> v[i] < limit
  }

  lemma LastTwoFit(us: seq<PlanUnit>, slices: seq<Slice>)
    requires OrderedPartition(slices, |us|) && |slices| >= 2
    ensures var a, b := slices[|slices| - 2], slices[|slices| - 1]; a.first + a.count == b.first && a.first + (a.count + b.count) <= |us|
  {
    MergedTail(slices, |us|);
  }

  /** A small last slice joins the one before it when together they stay within the soft limit. */
  method MergeSmallTail(c: Config, us: seq<PlanUnit>, prepared: seq<Counts>, p: Policy, slices: seq<Slice>, payloads: seq<seq<nat>>)
    returns (r: seq<Slice>)
    requires PreparedAs(us, prepared) && OrderedPartition(slices, |us|) && GoodSlices(c, us, p, slices)
    requires |payloads| == |slices| && forall k :: 0 <= k < |slices| ==> payloads[k] == SliceSizes(c, us, slices[k])
    requires Greedy(c, us, p, slices)
    ensures PlanOk(c, us, p, r) && Greedy(c, us, p, r)
    ensures if SmallTail(p, slices, payloads) && PrefixesFit(c, us, slices[|slices| - 2].first, slices[|slices| - 2].count + slices[|slices| - 1].count, p.softMax)
      then r == slices[..|slices| - 2] + [Slice(slices[|slices| - 2].first, slices[|slices| - 2].count + slices[|slices| - 1].count)]
      else r == slices
  {
    hide UnitsFit, Tally, Full, PrefixesFit, PlanOk, Greedy, GoodSlices, OrderedPartition;
    CutIsPlan(c, us, p, slices);
    if |slices| < 2 {
      return slices;
    }
    LastTwoFit(us, slices);
    var k := |slices| - 2;
    var previous, tail := slices[k], slices[k + 1];
    var largest, _ := Largest(payloads[k + 1]);
    if largest >= p.target / 2 || previous.first + previous.count != tail.first {
      return slices;
    }
    var fits := RangeFits(c, us, prepared, previous.first, previous.count + tail.count, p.softMax);
    if !fits {
      return slices;
    }
    r := slices[..k] + [Slice(previous.first, previous.count + tail.count)];
    TailMerged(c, us, p, slices, r);
  }

  lemma CutIsPlan(c: Config, us: seq<PlanUnit>, p: Policy, slices: seq<Slice>)
    requires OrderedPartition(slices, |us|) && GoodSlices(c, us, p, slices)
    ensures |slices| > 0 && PlanOk(c, us, p, slices) && forall k :: 0 <= k < |slices| ==> slices[k].count > 0
  {
    hide UnitsFit;
    forall k | 0 <= k < |slices| ensures GoodSlice(c, us, p, slices[k]) {}
  }

  /** The plan with its last two slices made one. */
  lemma TailMerged(c: Config, us: seq<PlanUnit>, p: Policy, slices: seq<Slice>, r: seq<Slice>)
    requires OrderedPartition(slices, |us|) && GoodSlices(c, us, p, slices) && Greedy(c, us, p, slices) && |slices| >= 2
    requires var a, b := slices[|slices| - 2], slices[|slices| - 1];
      && a.first + (a.count + b.count) <= |us| && PrefixesFit(c, us, a.first, a.count + b.count, p.softMax)
      && r == slices[..|slices| - 2] + [Slice(a.first, a.count + b.count)]
    ensures PlanOk(c, us, p, r) && Greedy(c, us, p, r)
  {
    hide UnitsFit, Full, PrefixesFit, OrderedPartition;
    MergedTail(slices, |us|);
    var k := |slices| - 2;
    assert GoodSlice(c, us, p, slices[k]);
    forall j | 0 <= j < |r| - 1 ensures GoodSlice(c, us, p, r[j]) { assert r[j] == slices[j]; }
    forall i, j | 0 <= i < j < |r| && j == i + 1 ensures Full(c, us, p, r[i].first, r[j].first) {
      assert r[i] == slices[i] && r[j].first == slices[j].first;
    }
    WholePrefix(c, us, slices[k].first, slices[k].count + slices[k + 1].count, p.softMax);
  }

  lemma WholePrefix(c: Config, us: seq<PlanUnit>, first: nat, count: nat, limit: nat)
    requires first + count <= |us| && count > 0 && PrefixesFit(c, us, first, count, limit)
    ensures UnitsFit(c, us[first..first + count], limit)
  {
  }

  /**
   Plan segments.  For a non-empty unit list a plan is an ordered partition into non-empty slices,
   each within the target, or one unit within the hard limit, or the merged last slice within the
   soft limit, and no slice ended before its next unit would have exceeded the target; a capacity error names a unit that alone exceeds the hard limit.
   */
  method PlanSegments(c: Config, us: seq<PlanUnit>, p: Policy) returns (r: Outcome, ghost cut: seq<Slice>, ghost n: nat)
    ensures r == Rejected(InvalidArgument) <==> c.segmentIdBytes == 0 || !(0 < p.target <= p.softMax <= p.hardMax <= 256 * 1024 * 1024)
    ensures r != Rejected(InvalidArgument) && |us| == 0 ==> r == Planned([Slice(0, 0)])
    ensures r != Rejected(InvalidArgument) && |us| > 0 ==> PlanIs(c, us, p, cut, n, r)
    ensures r.Planned? && |us| > 0 ==> PlanOk(c, us, p, r.slices) && Greedy(c, us, p, r.slices)
    ensures r == Rejected(OutOfRange) ==> |us| > 100000
    ensures r.TooLarge? ==> r.unit < |us| && AllFit(c, us, r.unit, p.hardMax) && !UnitsFit(c, [us[r.unit]], p.hardMax) && r.required > p.hardMax
    ensures r != Rejected(InvalidArgument) && |us| <= 100000 && AllFit(c, us, |us|, p.hardMax) ==> r.Planned?
  {
    hide PlanOk, UnitsFit, OrderedPartition, GoodSlices, SliceSizes, UnitTerms, Greedy, SmallTail, PrefixesFit, MergesTail, IsCut, Demands;
    cut, n := [], 0;
    if c.segmentIdBytes == 0 || !PolicyOk(p) {
      return Rejected(InvalidArgument), cut, n;
    }
    if |us| == 0 {
      return Planned([Slice(0, 0)]), cut, n;
    }
    var prepared := PrepareUnits(us);
    var payloads;
    r, payloads, cut, n := Cut(c, us, prepared, p);
    CutSize(c, us, p, cut, n);
    if r.Planned? {
      var slices := MergeSmallTail(c, us, prepared, p, r.slices, payloads);
      TailIs(c, us, p, cut, payloads);
      assert slices == if MergesTail(c, us, p, cut) then WithTailMerged(cut) else cut;
      r := Planned(slices);
    }
  }

  lemma CutSize(c: Config, us: seq<PlanUnit>, p: Policy, cut: seq<Slice>, n: nat)
    requires IsCut(c, us, p, cut, n)
    ensures |cut| <= n
  {
    hide UnitsFit, Greedy, Full;
    forall k | 0 <= k < |cut| ensures cut[k].count > 0 { assert GoodSlice(c, us, p, cut[k]); }
    if |cut| > 0 { PartitionSize(cut, n); }
  }

  /** Sizing the joined range unit by unit asks the same as sizing it at once. */
  lemma TailIs(c: Config, us: seq<PlanUnit>, p: Policy, cut: seq<Slice>, payloads: seq<seq<nat>>)
    requires IsCut(c, us, p, cut, |us|) && |us| > 0
    requires |payloads| == |cut| && forall k :: 0 <= k < |cut| ==> payloads[k] == SliceSizes(c, us, cut[k])
    ensures |cut| > 0 && OrderedPartition(cut, |us|)
    ensures |cut| >= 2 ==> cut[|cut| - 2].first + (cut[|cut| - 2].count + cut[|cut| - 1].count) <= |us|
    ensures MergesTail(c, us, p, cut) ==> SmallTail(p, cut, payloads) && |cut| >= 2
    ensures SmallTail(p, cut, payloads) ==>
      (MergesTail(c, us, p, cut) <==> PrefixesFit(c, us, cut[|cut| - 2].first, cut[|cut| - 2].count + cut[|cut| - 1].count, p.softMax))
  {
    hide UnitsFit, Greedy, Full, SliceSizes;
    if |cut| >= 2 {
      LastTwoFit(us, cut);
      PrefixesAreWhole(c, us, cut[|cut| - 2].first, cut[|cut| - 2].count + cut[|cut| - 1].count, p.softMax);
    }
  }

  lemma PrefixesAreWhole(c: Config, us: seq<PlanUnit>, first: nat, count: nat, limit: nat)
    requires first + count <= |us| && count > 0
    ensures PrefixesFit(c, us, first, count, limit) <==> UnitsFit(c, us[first..first + count], limit)
  {
    hide UnitsFit;
    var part := us[first..first + count];
    if UnitsFit(c, part, limit) {
      forall j | first < j <= first + count ensures UnitsFit(c, us[first..j], limit) {
        PrefixFits(c, part, j - first, limit);
        assert part[..j - first] == us[first..j];
      }
    } else {
      assert us[first..first + count] == part;
    }
  }

  // ---------------------------------------------------------------- there is one plan only

  /** Two greedy cuts agree as far as both go. */
  lemma {:induction false} CutsAgree(c: Config, us: seq<PlanUnit>, p: Policy, a: seq<Slice>, m: nat, b: seq<Slice>, n: nat, k: nat)
    requires IsCut(c, us, p, a, m) && IsCut(c, us, p, b, n) && k <= |a| && k <= |b|
    ensures a[..k] == b[..k]
  {
    hide IsCut;
    if k > 0 {
      CutsAgree(c, us, p, a, m, b, n, k - 1);
      if k > 1 { assert a[..k - 1][k - 2] == b[..k - 1][k - 2]; }
      CutStart(c, us, p, a, m, k - 1);
      CutStart(c, us, p, b, n, k - 1);
      NotShorter(c, us, p, a, m, b, n, k - 1);
      NotShorter(c, us, p, b, n, a, m, k - 1);
      assert a[..k] == a[..k - 1] + [a[k - 1]] && b[..k] == b[..k - 1] + [b[k - 1]];
    }
  }

  lemma CutStart(c: Config, us: seq<PlanUnit>, p: Policy, a: seq<Slice>, m: nat, k: nat)
    requires IsCut(c, us, p, a, m) && k < |a|
    ensures a[k].first == if k == 0 then 0 else a[k - 1].first + a[k - 1].count
  {
    hide GoodSlices, Greedy, Full;
    if k > 0 {
      var j := k - 1;
      assert a[k].first == a[j].first + a[j].count;
    }
  }

  lemma NotShorter(c: Config, us: seq<PlanUnit>, p: Policy, a: seq<Slice>, m: nat, b: seq<Slice>, n: nat, k: nat)
    requires IsCut(c, us, p, a, m) && IsCut(c, us, p, b, n) && k < |a| && k < |b| && a[k].first == b[k].first
    ensures a[k].count >= b[k].count
  {
    hide UnitsFit;
    var first, end := a[k].first, a[k].first + a[k].count;
    assert GoodSlice(c, us, p, a[k]) && GoodSlice(c, us, p, b[k]);
    if a[k].count < b[k].count {
      var part := us[first..first + b[k].count];
      assert part[..a[k].count + 1] == us[first..end + 1];
      PrefixFits(c, part, a[k].count + 1, p.target);
      EndIsFull(c, us, p, a, m, k);
      assert false;
    }
  }

  lemma EndIsFull(c: Config, us: seq<PlanUnit>, p: Policy, a: seq<Slice>, m: nat, k: nat)
    requires IsCut(c, us, p, a, m) && k < |a| && a[k].first + a[k].count < |us|
    ensures Full(c, us, p, a[k].first, a[k].first + a[k].count)
  {
    hide UnitsFit, GoodSlices, Full;
    if k < |a| - 1 {
      CutStart(c, us, p, a, m, k + 1);
      var next := k + 1;
      assert Full(c, us, p, a[k].first, a[next].first);
    }
  }

  lemma CutEndsLater(c: Config, us: seq<PlanUnit>, p: Policy, a: seq<Slice>, m: nat, b: seq<Slice>, n: nat)
    requires IsCut(c, us, p, a, m) && IsCut(c, us, p, b, n) && |a| <= |b|
    ensures a == b[..|a|] && (|a| == |b| ==> m == n) && (|a| < |b| ==> m < n)
  {
    hide UnitsFit, Full, Greedy;
    CutsAgree(c, us, p, a, m, b, n, |a|);
    assert a[..|a|] == a;
    if |a| < |b| {
      CutStart(c, us, p, b, n, |a|);
      if |a| > 0 { assert a[|a| - 1] == b[..|a|][|a| - 1]; }
      assert GoodSlice(c, us, p, b[|a|]);
      PartitionBounds(b, n, |a|);
    } else {
      assert a == b;
    }
  }

  /** Whatever the units and the policy, there is one outcome: the plan, or the reason why there is none. */
  lemma PlanIsUnique(c: Config, us: seq<PlanUnit>, p: Policy, a: seq<Slice>, m: nat, r: Outcome, b: seq<Slice>, n: nat, s: Outcome)
    requires PlanIs(c, us, p, a, m, r) && PlanIs(c, us, p, b, n, s)
    ensures r == s && a == b && m == n
  {
    if |a| <= |b| {
      CutEndsLater(c, us, p, a, m, b, n);
      SameOutcome(c, us, p, a, m, r, b, n, s);
    } else {
      CutEndsLater(c, us, p, b, n, a, m);
      SameOutcome(c, us, p, b, n, s, a, m, r);
    }
  }

  lemma SameOutcome(c: Config, us: seq<PlanUnit>, p: Policy, a: seq<Slice>, m: nat, r: Outcome, b: seq<Slice>, n: nat, s: Outcome)
    requires PlanIs(c, us, p, a, m, r) && PlanIs(c, us, p, b, n, s) && |a| <= |b|
    requires a == b[..|a|] && (|a| == |b| ==> m == n) && (|a| < |b| ==> m < n)
    ensures r == s && a == b && m == n
  {
    hide UnitsFit, IsCut, MergesTail, Tally, Components;
    if |a| < |b| {
      UnitInside(c, us, n, p.hardMax, m);
      assert false;
    }
    assert a == b;
  }

  lemma UnitInside(c: Config, us: seq<PlanUnit>, n: nat, limit: nat, i: nat)
    requires AllFit(c, us, n, limit) && i < n
    ensures UnitsFit(c, [us[i]], limit)
  {
  }

  // ---------------------------------------------------------------- writing with retries

  /** The first slice whose write reports a full segment, if any. */
  method FirstOverflow(slices: seq<Slice>, overflows: Slice -> bool) returns (at: nat)
    ensures at <= |slices| && (forall k :: 0 <= k < at ==> !overflows(slices[k])) && (at < |slices| ==> overflows(slices[at]))
  {
    at := 0;
    while at < |slices| && !overflows(slices[at])
      invariant at <= |slices| && forall k :: 0 <= k < at ==> !overflows(slices[k])
    {
      at := at + 1;
    }
  }

  /** Whether so many more segments still fit the manifest. */
  predicate RoomFor(existing: nat, added: nat) {
    existing <= MaxSegments && added <= MaxSegments - existing
  }

  /** The slice whose write is the first to report a full segment. */
  ghost predicate OverflowsFirst(plan: seq<Slice>, overflows: Slice -> bool, at: nat) {
    at < |plan| && overflows(plan[at]) && forall j :: 0 <= j < at ==> !overflows(plan[j])
  }

  /** One round of the loop: the plan fits the manifest, a slice of several units overflows first and is halved. */
  ghost predicate Retries(existing: nat, overflows: Slice -> bool, plan: seq<Slice>, next: seq<Slice>) {
    existing + |plan| <= 100000 && |plan| < 100000 && exists at: nat :: OverflowsFirst(plan, overflows, at) && plan[at].count >= 2 && next == Halved(plan, at)
  }

  /** The plans tried one after the other, from the first one to the last. */
  ghost predicate Tried(existing: nat, overflows: Slice -> bool, plans: seq<seq<Slice>>, slices: seq<Slice>, last: seq<Slice>) {
    && |plans| > 0 && plans[0] == slices && plans[|plans| - 1] == last
    && forall i, j :: 0 <= i < j < |plans| && j == i + 1 ==> Retries(existing, overflows, plans[i], plans[j])
  }

  /** How the last plan tried ends the loop. */
  ghost predicate Decides(existing: nat, overflows: Slice -> bool, plan: seq<Slice>, r: Result<seq<Slice>>) {
    if existing + |plan| > 100000 then r == Err(OutOfRange)
    else if forall k :: 0 <= k < |plan| ==> !overflows(plan[k]) then r == Ok(plan)
    else exists at: nat :: OverflowsFirst(plan, overflows, at) && GivesUp(plan, at, r)
  }

  /** A slice of one unit cannot be halved, and a plan of the largest size cannot grow. */
  predicate GivesUp(plan: seq<Slice>, at: nat, r: Result<seq<Slice>>)
    requires at < |plan|
  {
    if plan[at].count <= 1 then r == Err(CapacityExceeded) else |plan| >= 100000 && r == Err(OutOfRange)
  }

  lemma TriedMore(existing: nat, overflows: Slice -> bool, plans: seq<seq<Slice>>, slices: seq<Slice>, last: seq<Slice>, next: seq<Slice>)
    requires Tried(existing, overflows, plans, slices, last) && Retries(existing, overflows, last, next)
    ensures Tried(existing, overflows, plans + [next], slices, next)
  {
    hide Retries;
    var more := plans + [next];
    forall i, j | 0 <= i < j < |more| && j == i + 1 ensures Retries(existing, overflows, more[i], more[j]) {
      if j < |plans| { assert more[i] == plans[i] && more[j] == plans[j]; }
    }
  }

  /**
   Write all slices; when one overflows, halve the first that does and start over.  The loop ends
   because every round adds a slice and a plan never has more slices than units.  Every plan tried is
   the one before it with its first overflowing slice halved, stays an ordered partition, and the last
   one decides: it is written, does not fit the manifest, has an overflowing slice of one unit, or
   overflows at the largest size.
   */
  method WriteWithRetries(existing: nat, n: nat, slices: seq<Slice>, overflows: Slice -> bool)
    returns (r: Result<seq<Slice>>, ghost plans: seq<seq<Slice>>, ghost last: seq<Slice>)
    requires OrderedPartition(slices, n) && NonEmptySlices(slices)
    ensures Tried(existing, overflows, plans, slices, last) && Decides(existing, overflows, last, r)
    ensures OrderedPartition(last, n) && NonEmptySlices(last) && |slices| <= |last| <= n
    ensures r.Ok? ==> r.value == last && existing + |last| <= 100000 && forall k :: 0 <= k < |last| ==> !overflows(last[k])
    ensures r.Err? ==> r.error == CapacityExceeded || r.error == OutOfRange
  {
    hide OrderedPartition;
    var plan := slices;
    plans, last := [slices], slices;
    PartitionSize(plan, n);
    while true
      invariant OrderedPartition(plan, n) && NonEmptySlices(plan) && |slices| <= |plan| <= n
      invariant plan == last && Tried(existing, overflows, plans, slices, plan)
      decreases n - |plan|
    {
      if !RoomFor(existing, |plan|) {
        return Err(OutOfRange), plans, last;
      }
      var at := FirstOverflow(plan, overflows);
      if at == |plan| {
        return Ok(plan), plans, last;
      }
      assert OverflowsFirst(plan, overflows, at);
      if plan[at].count <= 1 {
        return Err(CapacityExceeded), plans, last;
      }
      var halved := Bisect(plan, at);
      if halved.Err? {
        return Err(OutOfRange), plans, last;
      }
      assert Retries(existing, overflows, plan, halved.value);
      TriedMore(existing, overflows, plans, slices, plan, halved.value);
      plan := halved.value;
      plans, last := plans + [plan], plan;
      PartitionSize(plan, n);
    }
  }
}
