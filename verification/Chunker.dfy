/**
 Overlapping windows over a text, cut at sentence and grapheme boundaries.  Positions count code
 points; the boundaries are those of sections 3 and 5 of Unicode Standard Annex #29, given as
 increasing sequences.
 */
module Chunker {
  import opened Common

  datatype Chunk = Chunk(start: nat, end: nat)

  predicate Increasing(b: seq<nat>) {
    forall i, j :: 0 <= i < j < |b| ==> b[i] < b[j]
  }

  /** Graphemes run from 0 to the end of the text, and every sentence boundary is one of theirs. */
  predicate BoundariesOk(n: nat, graphemes: seq<nat>, sentences: seq<nat>) {
    && Increasing(graphemes) && Increasing(sentences)
    && |graphemes| > 0 && graphemes[0] == 0 && graphemes[|graphemes| - 1] == n
    && forall b :: b in sentences ==> b in graphemes
  }

  // ---------------------------------------------------------------- break iterators

  /** The first boundary behind a position. */
  function Following(b: seq<nat>, at: nat): (r: Option<nat>)
    ensures r.Some? ==> r.value in b && at < r.value
  {
    if |b| == 0 then None else if at < b[0] then Some(b[0]) else Following(b[1..], at)
  }

  /** The last boundary in front of a position. */
  function Preceding(b: seq<nat>, at: nat): (r: Option<nat>)
    ensures r.Some? ==> r.value in b && r.value < at
  {
    if |b| == 0 then None else if b[|b| - 1] < at then Some(b[|b| - 1]) else Preceding(b[..|b| - 1], at)
  }

  lemma {:induction false} FollowingFirst(b: seq<nat>, at: nat, x: nat)
    requires Increasing(b) && x in b && at < x
    ensures Following(b, at).Some? && Following(b, at).value <= x
  {
    if !(at < b[0]) {
      assert b == [b[0]] + b[1..];
      FollowingFirst(b[1..], at, x);
    }
  }

  // ---------------------------------------------------------------- where a window ends

  /** The furthest grapheme boundary within max code points, or the end of one longer grapheme. */
  predicate IsLimit(g: seq<nat>, start: nat, max: nat, limit: nat) {
    && limit in g && start < limit
    && if limit - start <= max then forall b :: b in g && b > limit ==> b - start > max
       else forall b :: b in g && start < b ==> limit <= b
  }

  /** The last sentence boundary up to the limit, or the limit when there is none. */
  predicate IsCut(s: seq<nat>, start: nat, limit: nat, end: nat) {
    if end in s && start < end <= limit then forall b :: b in s && b > end ==> b > limit
    else end == limit && forall b :: b in s && b > start ==> b > limit
  }

  ghost predicate IsEnd(g: seq<nat>, s: seq<nat>, start: nat, max: nat, end: nat) {
    exists limit :: IsLimit(g, start, max, limit) && IsCut(s, start, limit, end)
  }

  /** A later window never ends earlier. */
  lemma EndsAscend(n: nat, g: seq<nat>, s: seq<nat>, max: nat, a: nat, b: nat, x: nat, y: nat)
    requires BoundariesOk(n, g, s) && a < b && b in g && IsEnd(g, s, a, max, x) && IsEnd(g, s, b, max, y)
    ensures x <= y
  {
    var l: nat :| IsLimit(g, a, max, l) && IsCut(s, a, l, x);
    var m: nat :| IsLimit(g, b, max, m) && IsCut(s, b, m, y);
    if b < x {
      LimitsAscend(g, a, b, max, l, m, x);
      if x in s && a < x <= l {
        assert x <= m;
      } else {
        assert x == l && forall c :: c in s && c > a ==> c > l;
      }
    }
  }

  lemma LimitsAscend(g: seq<nat>, a: nat, b: nat, max: nat, l: nat, m: nat, x: nat)
    requires IsLimit(g, a, max, l) && IsLimit(g, b, max, m) && a < b < x <= l && b in g
    ensures l - a <= max && l <= m
  {
  }

  lemma EndFacts(n: nat, g: seq<nat>, s: seq<nat>, start: nat, max: nat, end: nat)
    requires BoundariesOk(n, g, s) && IsEnd(g, s, start, max, end)
    ensures end in g && start < end <= n
    ensures end - start <= max || forall b :: b in g && start < b ==> end <= b
  {
    var limit: nat :| IsLimit(g, start, max, limit) && IsCut(s, start, limit, end);
    assert end in g;
    LastIsEnd(n, g, s, end);
  }

  lemma LastIsEnd(n: nat, g: seq<nat>, s: seq<nat>, b: nat)
    requires BoundariesOk(n, g, s) && b in g
    ensures b <= n
  {
    var i :| 0 <= i < |g| && g[i] == b;
    assert i < |g| - 1 ==> g[i] < g[|g| - 1];
  }

  /** Grow the window grapheme by grapheme, then shrink it to a sentence end. */
  method FindEnd(n: nat, g: seq<nat>, s: seq<nat>, start: nat, max: nat) returns (end: nat)
    requires BoundariesOk(n, g, s) && start in g && start < n && max > 0
    ensures IsEnd(g, s, start, max, end)
  {
    var limit := FindLimit(n, g, s, start, max);
    end := limit;
    var candidate := Following(s, start);
    ghost var last := start;
    forall b | b in s && b > start ensures candidate.Some? && candidate.value <= b { FollowingFirst(s, start, b); }
    while candidate.Some? && candidate.value <= limit
      invariant start <= last <= limit && (last == start ==> end == limit) && (last > start ==> end == last && last in s)
      invariant candidate.Some? ==> candidate.value in s && candidate.value > last
      invariant forall b :: b in s && b > last ==> candidate.Some? && candidate.value <= b
      decreases limit - last
    {
      last, end := candidate.value, candidate.value;
      candidate := Following(s, end);
      forall b | b in s && b > last ensures candidate.Some? && candidate.value <= b { FollowingFirst(s, last, b); }
    }
    assert IsCut(s, start, limit, end);
  }

  method FindLimit(n: nat, g: seq<nat>, s: seq<nat>, start: nat, max: nat) returns (limit: nat)
    requires BoundariesOk(n, g, s) && start in g && start < n && max > 0
    ensures IsLimit(g, start, max, limit)
  {
    limit := start;
    var candidate := Following(g, start);
    forall b | b in g && b > start ensures candidate.Some? && candidate.value <= b { FollowingFirst(g, start, b); }
    assert n in g;
    while candidate.Some? && candidate.value - start <= max
      invariant start <= limit && limit in g && limit - start <= max
      invariant candidate.Some? ==> candidate.value in g && candidate.value > limit
      invariant forall b :: b in g && b > limit ==> candidate.Some? && candidate.value <= b
      decreases start + max - limit
    {
      limit := candidate.value;
      candidate := Following(g, limit);
      forall b | b in g && b > limit ensures candidate.Some? && candidate.value <= b { FollowingFirst(g, limit, b); }
    }
    if limit <= start {
      limit := candidate.value;
    }
  }

  lemma {:induction false} PrecedingLast(b: seq<nat>, at: nat, x: nat)
    requires Increasing(b) && x in b && x < at
    ensures Preceding(b, at).Some? && x <= Preceding(b, at).value
  {
    var n := |b| - 1;
    var i :| 0 <= i < |b| && b[i] == x;
    if b[n] < at {
      assert i < n ==> b[i] < b[n];
    } else {
      assert b[..n][i] == x;
      PrecedingLast(b[..n], at, x);
    }
  }

  /** The nearest boundary that leaves the wanted overlap, or the first one behind the old start. */
  predicate IsRestart(g: seq<nat>, start: nat, end: nat, overlap: nat, next: nat) {
    && start < next <= end && next in g
    && (forall b :: b in g && next < b <= end ==> end - b < overlap)
    && (end - next >= overlap || forall b :: b in g && start < b ==> next <= b)
  }

  /** Step back over whole graphemes until the overlap is reached, but never to the old start. */
  method FindNextStart(g: seq<nat>, start: nat, end: nat, overlap: nat) returns (next: nat)
    requires Increasing(g) && start < end && end in g
    ensures IsRestart(g, start, end, overlap, next)
  {
    next := end;
    while next > start && end - next < overlap
      invariant start < next <= end && next in g && forall b :: b in g && next < b <= end ==> end - b < overlap
      decreases next
    {
      var previous := Preceding(g, next);
      forall b | b in g && b < next ensures previous.Some? && b <= previous.value { PrecedingLast(g, next, b); }
      if previous.None? || previous.value <= start {
        break;
      }
      next := previous.value;
    }
  }

  method HasText(white: seq<bool>, start: nat, end: nat) returns (found: bool)
    requires start <= end <= |white|
    ensures found <==> exists i :: start <= i < end && !white[i]
  {
    for i := start to end
      invariant forall j :: start <= j < i ==> white[j]
    {
      if !white[i] {
        return true;
      }
    }
    return false;
  }

  // ---------------------------------------------------------------- chunking

  predicate Covered(chunks: seq<Chunk>, i: nat) {
    exists k :: 0 <= k < |chunks| && chunks[k].start <= i < chunks[k].end
  }

  /** At most max code points, or exactly one grapheme. */
  predicate Bounded(g: seq<nat>, c: Chunk, max: nat) {
    c.start < c.end && (c.end - c.start <= max || forall b :: b in g && c.start < b ==> c.end <= b)
  }

  predicate InOrder(chunks: seq<Chunk>) {
    forall j, k :: 0 <= j < k < |chunks| ==> chunks[j].start < chunks[k].start && chunks[j].end <= chunks[k].end
  }

  /** Cut at grapheme boundaries, inside the text, and not just whitespace. */
  predicate WellCut(g: seq<nat>, white: seq<bool>, c: Chunk) {
    c.start in g && c.end in g && c.start < c.end <= |white| && exists i :: c.start <= i < c.end && !white[i]
  }

  lemma CoveredMore(chunks: seq<Chunk>, c: Chunk, i: nat)
    requires Covered(chunks, i) || c.start <= i < c.end
    ensures Covered(chunks + [c], i)
  {
    var more := chunks + [c];
    if Covered(chunks, i) {
      var k :| 0 <= k < |chunks| && chunks[k].start <= i < chunks[k].end;
      assert more[k] == chunks[k];
    } else {
      assert more[|chunks|] == c;
    }
  }

  lemma NewChunk(g: seq<nat>, white: seq<bool>, c: Chunk, max: nat)
    requires c.start in g && c.end in g && c.start < c.end <= |white| && exists i :: c.start <= i < c.end && !white[i]
    requires c.end - c.start <= max || forall b :: b in g && c.start < b ==> c.end <= b
    ensures Bounded(g, c, max) && WellCut(g, white, c)
  {
  }

  /** From the restart point of a chunk up to the given place there is only whitespace. */
  ghost predicate Resumes(g: seq<nat>, white: seq<bool>, overlap: nat, c: Chunk, at: nat) {
    exists next: nat :: IsRestart(g, c.start, c.end, overlap, next) && next <= at && forall i :: next <= i < at && i < |white| ==> white[i]
  }

  ghost predicate Joined(g: seq<nat>, white: seq<bool>, overlap: nat, chunks: seq<Chunk>) {
    forall j, k :: 0 <= j < k < |chunks| && k == j + 1 ==> Resumes(g, white, overlap, chunks[j], chunks[k].start)
  }

  // ---------------------------------------------------------------- the windows one after the other

  predicate Blank(white: seq<bool>, c: Chunk) {
    forall i :: c.start <= i < c.end && i < |white| ==> white[i]
  }

  /** Where the window behind c starts, short of the end: at its overlap point, or at its end when it was only whitespace. */
  predicate Follows(g: seq<nat>, white: seq<bool>, overlap: nat, c: Chunk, next: nat) {
    c.end < |white| && if Blank(white, c) then next == c.end else IsRestart(g, c.start, c.end, overlap, next)
  }

  /** Windows from the start of the text: each ends where a window must, and the next one follows it. */
  ghost predicate Windows(g: seq<nat>, s: seq<nat>, white: seq<bool>, max: nat, overlap: nat, ws: seq<Chunk>) {
    && (|ws| > 0 ==> ws[0].start == 0)
    && (forall k :: 0 <= k < |ws| ==> IsEnd(g, s, ws[k].start, max, ws[k].end))
    && (forall j, k :: 0 <= j < k < |ws| && k == j + 1 ==> Follows(g, white, overlap, ws[j], ws[k].start))
  }

  /** The windows reach the end of the text. */
  ghost predicate Complete(white: seq<bool>, ws: seq<Chunk>) {
    if |ws| == 0 then |white| == 0 else ws[|ws| - 1].end == |white|
  }

  /** The windows with text, in order. */
  function WithText(white: seq<bool>, ws: seq<Chunk>): seq<Chunk> {
    if |ws| == 0 then []
    else WithText(white, ws[..|ws| - 1]) + if Blank(white, ws[|ws| - 1]) then [] else [ws[|ws| - 1]]
  }

  lemma EndIsUnique(g: seq<nat>, s: seq<nat>, start: nat, max: nat, x: nat, y: nat)
    requires IsEnd(g, s, start, max, x) && IsEnd(g, s, start, max, y)
    ensures x == y
  {
    var l: nat :| IsLimit(g, start, max, l) && IsCut(s, start, l, x);
    var m: nat :| IsLimit(g, start, max, m) && IsCut(s, start, m, y);
    assert l == m;
  }

  lemma FollowsIsUnique(g: seq<nat>, white: seq<bool>, overlap: nat, c: Chunk, x: nat, y: nat)
    requires Follows(g, white, overlap, c, x) && Follows(g, white, overlap, c, y)
    ensures x == y
  {
  }

  /** There is one sequence of windows only, so the text and its boundaries determine the chunks. */
  lemma {:induction false} WindowsAreUnique(g: seq<nat>, s: seq<nat>, white: seq<bool>, max: nat, overlap: nat, a: seq<Chunk>, b: seq<Chunk>, n: nat)
    requires Windows(g, s, white, max, overlap, a) && Windows(g, s, white, max, overlap, b) && n <= |a| && n <= |b|
    ensures a[..n] == b[..n]
  {
    hide IsEnd, Follows;
    if n > 0 {
      WindowsAreUnique(g, s, white, max, overlap, a, b, n - 1);
      if n > 1 {
        assert a[n - 2] == a[..n - 1][n - 2] == b[..n - 1][n - 2] == b[n - 2];
        FollowsIsUnique(g, white, overlap, a[n - 2], a[n - 1].start, b[n - 1].start);
      }
      EndIsUnique(g, s, a[n - 1].start, max, a[n - 1].end, b[n - 1].end);
      assert a[..n] == a[..n - 1] + [a[n - 1]] && b[..n] == b[..n - 1] + [b[n - 1]];
    }
  }

  /** Two complete sequences of windows are the same. */
  lemma CompleteIsUnique(g: seq<nat>, s: seq<nat>, white: seq<bool>, max: nat, overlap: nat, a: seq<Chunk>, b: seq<Chunk>)
    requires BoundariesOk(|white|, g, s)
    requires Windows(g, s, white, max, overlap, a) && Windows(g, s, white, max, overlap, b) && Complete(white, a) && Complete(white, b)
    ensures a == b
  {
    if |a| <= |b| { LongerStops(g, s, white, max, overlap, a, b); } else { LongerStops(g, s, white, max, overlap, b, a); }
  }

  lemma LongerStops(g: seq<nat>, s: seq<nat>, white: seq<bool>, max: nat, overlap: nat, a: seq<Chunk>, b: seq<Chunk>)
    requires BoundariesOk(|white|, g, s) && |a| <= |b|
    requires Windows(g, s, white, max, overlap, a) && Windows(g, s, white, max, overlap, b) && Complete(white, a) && Complete(white, b)
    ensures a == b
  {
    hide IsEnd, Follows, BoundariesOk;
    WindowsAreUnique(g, s, white, max, overlap, a, b, |a|);
    assert a[..|a|] == a;
    if 0 < |a| < |b| {
      var j, k := |a| - 1, |a|;
      assert b[j] == b[..|a|][j] == a[j];
      assert Follows(g, white, overlap, b[j], b[k].start);
      EndsShort(g, white, overlap, b[j], b[k].start);
    } else if 0 == |a| < |b| {
      EndFacts(|white|, g, s, b[0].start, max, b[0].end);
    }
  }

  lemma EndsShort(g: seq<nat>, white: seq<bool>, overlap: nat, c: Chunk, next: nat)
    requires Follows(g, white, overlap, c, next)
    ensures c.end < |white|
  {
  }

  lemma WindowsMore(g: seq<nat>, s: seq<nat>, white: seq<bool>, max: nat, overlap: nat, ws: seq<Chunk>, c: Chunk)
    requires Windows(g, s, white, max, overlap, ws) && IsEnd(g, s, c.start, max, c.end)
    requires if |ws| == 0 then c.start == 0 else Follows(g, white, overlap, ws[|ws| - 1], c.start)
    ensures Windows(g, s, white, max, overlap, ws + [c])
    ensures WithText(white, ws + [c]) == WithText(white, ws) + if Blank(white, c) then [] else [c]
  {
    hide IsEnd, Follows, Blank, WithText;
    var more := ws + [c];
    forall k | 0 <= k < |more| ensures IsEnd(g, s, more[k].start, max, more[k].end) {
      assert k < |ws| ==> more[k] == ws[k];
    }
    forall j, k | 0 <= j < k < |more| && k == j + 1
      ensures Follows(g, white, overlap, more[j], more[k].start)
    {
      assert more[j] == ws[j];
      assert k < |ws| ==> more[k] == ws[k];
    }
    WithTextMore(white, ws, c);
  }

  lemma WithTextMore(white: seq<bool>, ws: seq<Chunk>, c: Chunk)
    ensures WithText(white, ws + [c]) == WithText(white, ws) + if Blank(white, c) then [] else [c]
  {
    assert (ws + [c])[..|ws|] == ws;
  }

  /**
   Starts strictly increase, ends never decrease, every code point that is not whitespace lies in a
   chunk, a chunk is longer than the maximum only when it is a single grapheme, and each chunk
   resumes at the overlap point of the one before it, whitespace aside.  Every chunk ends where a window
   from its start must end, and the chunks are exactly the windows with text of the one complete
   sequence of windows.
   */
  method ChunkText(documentId: Bytes, white: seq<bool>, g: seq<nat>, s: seq<nat>, max: nat, overlap: nat)
    returns (r: Result<seq<Chunk>>, ghost ws: seq<Chunk>)
    requires BoundariesOk(|white|, g, s)
    ensures r.Err? <==> |documentId| == 0 || max == 0 || overlap >= max
    ensures r.Err? ==> r.error == InvalidArgument
    ensures r.Ok? ==> InOrder(r.value) && Joined(g, white, overlap, r.value)
    ensures r.Ok? ==> forall k :: 0 <= k < |r.value| ==> Bounded(g, r.value[k], max) && WellCut(g, white, r.value[k])
    ensures r.Ok? ==> forall i :: 0 <= i < |white| && !white[i] ==> Covered(r.value, i)
    ensures r.Ok? ==> forall k :: 0 <= k < |r.value| ==> IsEnd(g, s, r.value[k].start, max, r.value[k].end)
    ensures r.Ok? ==> Windows(g, s, white, max, overlap, ws) && Complete(white, ws) && r.value == WithText(white, ws)
  {
    ws := [];
    if |documentId| == 0 || max == 0 || overlap >= max {
      return Err(InvalidArgument), ws;
    }
    hide IsEnd, Following, Preceding, Progress, Pending, BoundariesOk, IsRestart, Blank, Windows, WithText, WindowsTo, Covered, Bounded, WellCut, InOrder, Joined, Complete, Increasing;
    NoWindows(g, s, white, max, overlap);
    var n := |white|;
    var chunks: seq<Chunk> := [];
    var start := 0;
    StartProgress(white, g, s, max, overlap);
    while start < n
      invariant start <= n && start in g && Progress(white, g, s, max, overlap, chunks, start)
      invariant start < n ==> Pending(white, g, overlap, chunks, start)
      invariant WindowsTo(g, s, white, max, overlap, ws, chunks, start)
      decreases n - start
    {
      var end := FindEnd(n, g, s, start, max);
      EndFacts(n, g, s, start, max, end);
      var found := HasText(white, start, end);
      BlankIs(white, Chunk(start, end));
      if !found {
        WindowBlank(g, s, white, max, overlap, ws, chunks, start, end);
        ws := ws + [Chunk(start, end)];
        SkipProgress(white, g, s, max, overlap, chunks, start, end);
        start := end;
        if end == n {
          break;
        }
        continue;
      }
      EmitProgress(white, g, s, max, overlap, chunks, start, end);
      if end == n {
        WindowText(g, s, white, max, overlap, ws, chunks, start, end, n);
        ws, chunks := ws + [Chunk(start, end)], chunks + [Chunk(start, end)];
        start := n;
        break;
      }
      var next := FindNextStart(g, start, end, overlap);
      WindowText(g, s, white, max, overlap, ws, chunks, start, end, next);
      ws, chunks := ws + [Chunk(start, end)], chunks + [Chunk(start, end)];
      BackProgress(white, g, s, max, overlap, chunks, end, start, next);
      start := next;
    }
    EndProgress(white, g, s, max, overlap, chunks, start);
    WindowsDone(g, s, white, max, overlap, ws, chunks, start);
    r := Ok(chunks);
  }

  /** The windows so far, the chunks among them, and where the next one starts. */
  ghost predicate WindowsTo(g: seq<nat>, s: seq<nat>, white: seq<bool>, max: nat, overlap: nat, ws: seq<Chunk>, chunks: seq<Chunk>, start: nat) {
    && Windows(g, s, white, max, overlap, ws) && chunks == WithText(white, ws)
    && if start < |white| then (if |ws| == 0 then start == 0 else Follows(g, white, overlap, ws[|ws| - 1], start))
       else Complete(white, ws)
  }

  lemma NoWindows(g: seq<nat>, s: seq<nat>, white: seq<bool>, max: nat, overlap: nat)
    ensures WindowsTo(g, s, white, max, overlap, [], [], 0)
  {
  }

  lemma WindowBlank(g: seq<nat>, s: seq<nat>, white: seq<bool>, max: nat, overlap: nat, ws: seq<Chunk>, chunks: seq<Chunk>, start: nat, end: nat)
    requires WindowsTo(g, s, white, max, overlap, ws, chunks, start) && start < end <= |white| && IsEnd(g, s, start, max, end)
    requires Blank(white, Chunk(start, end))
    ensures WindowsTo(g, s, white, max, overlap, ws + [Chunk(start, end)], chunks, end)
  {
    hide IsEnd, Windows, WithText, Blank;
    WindowsMore(g, s, white, max, overlap, ws, Chunk(start, end));
  }

  lemma WindowText(g: seq<nat>, s: seq<nat>, white: seq<bool>, max: nat, overlap: nat, ws: seq<Chunk>, chunks: seq<Chunk>, start: nat, end: nat, next: nat)
    requires WindowsTo(g, s, white, max, overlap, ws, chunks, start) && start < end <= |white| && IsEnd(g, s, start, max, end)
    requires !Blank(white, Chunk(start, end)) && if end == |white| then next == end else next <= end && IsRestart(g, start, end, overlap, next)
    ensures WindowsTo(g, s, white, max, overlap, ws + [Chunk(start, end)], chunks + [Chunk(start, end)], next)
  {
    hide IsEnd, Windows, WithText, Blank, IsRestart;
    WindowsMore(g, s, white, max, overlap, ws, Chunk(start, end));
  }

  lemma WindowsDone(g: seq<nat>, s: seq<nat>, white: seq<bool>, max: nat, overlap: nat, ws: seq<Chunk>, chunks: seq<Chunk>, start: nat)
    requires WindowsTo(g, s, white, max, overlap, ws, chunks, start) && start >= |white|
    ensures Windows(g, s, white, max, overlap, ws) && Complete(white, ws) && chunks == WithText(white, ws)
  {
  }

  lemma BlankIs(white: seq<bool>, c: Chunk)
    requires c.start <= c.end <= |white|
    ensures Blank(white, c) <==> !exists i :: c.start <= i < c.end && !white[i]
  {
  }

  /** What holds of the chunks cut so far when everything in front of start is dealt with. */
  ghost predicate Progress(white: seq<bool>, g: seq<nat>, s: seq<nat>, max: nat, overlap: nat, chunks: seq<Chunk>, start: nat) {
    && InOrder(chunks) && Joined(g, white, overlap, chunks)
    && (forall k :: 0 <= k < |chunks| ==> Bounded(g, chunks[k], max) && WellCut(g, white, chunks[k]))
    && (forall k :: 0 <= k < |chunks| ==> chunks[k].start < start && IsEnd(g, s, chunks[k].start, max, chunks[k].end))
    && (forall i :: 0 <= i < start && i < |white| && !white[i] ==> Covered(chunks, i))
  }

  /** The next chunk, if one starts here, resumes the last one. */
  ghost predicate Pending(white: seq<bool>, g: seq<nat>, overlap: nat, chunks: seq<Chunk>, start: nat) {
    |chunks| > 0 ==> Resumes(g, white, overlap, chunks[|chunks| - 1], start)
  }

  lemma StartProgress(white: seq<bool>, g: seq<nat>, s: seq<nat>, max: nat, overlap: nat)
    requires BoundariesOk(|white|, g, s)
    ensures 0 in g && Increasing(g) && Progress(white, g, s, max, overlap, [], 0) && Pending(white, g, overlap, [], 0)
  {
    assert g[0] in g;
  }

  lemma SkipProgress(white: seq<bool>, g: seq<nat>, s: seq<nat>, max: nat, overlap: nat, chunks: seq<Chunk>, start: nat, end: nat)
    requires Progress(white, g, s, max, overlap, chunks, start) && Pending(white, g, overlap, chunks, start)
    requires start < end <= |white| && forall i :: start <= i < end ==> white[i]
    ensures Progress(white, g, s, max, overlap, chunks, end) && Pending(white, g, overlap, chunks, end)
  {
    hide IsEnd, Bounded, WellCut, Covered, IsRestart, Joined;
    if |chunks| > 0 {
      var c := chunks[|chunks| - 1];
      var next: nat :| IsRestart(g, c.start, c.end, overlap, next) && next <= start && forall i :: next <= i < start && i < |white| ==> white[i];
      assert forall i :: next <= i < end && i < |white| ==> white[i];
    }
  }

  lemma EmitProgress(white: seq<bool>, g: seq<nat>, s: seq<nat>, max: nat, overlap: nat, chunks: seq<Chunk>, start: nat, end: nat)
    requires BoundariesOk(|white|, g, s) && Progress(white, g, s, max, overlap, chunks, start) && Pending(white, g, overlap, chunks, start)
    requires start in g && start < end <= |white| && end in g
    requires IsEnd(g, s, start, max, end) && exists i :: start <= i < end && !white[i]
    ensures Progress(white, g, s, max, overlap, chunks + [Chunk(start, end)], end)
  {
    hide IsEnd, Bounded, WellCut, Covered, BoundariesOk, Resumes;
    EmitGood(white, g, s, max, start, end);
    var more := chunks + [Chunk(start, end)];
    forall k | 0 <= k < |chunks| ensures chunks[k].end <= end {
      EndsAscend(|white|, g, s, max, chunks[k].start, start, chunks[k].end, end);
    }
    forall j, k | 0 <= j < k < |more| ensures more[j].start < more[k].start && more[j].end <= more[k].end {
      assert k < |chunks| ==> more[k] == chunks[k];
      assert more[j] == chunks[j];
    }
    forall j, k | 0 <= j < k < |more| && k == j + 1 ensures Resumes(g, white, overlap, more[j], more[k].start) {
      assert k < |chunks| ==> more[k] == chunks[k];
      assert more[j] == chunks[j];
    }
    forall i | 0 <= i < end && !white[i] ensures Covered(more, i) { CoveredMore(chunks, Chunk(start, end), i); }
  }

  lemma EmitGood(white: seq<bool>, g: seq<nat>, s: seq<nat>, max: nat, start: nat, end: nat)
    requires BoundariesOk(|white|, g, s) && start in g && start < end <= |white| && end in g
    requires IsEnd(g, s, start, max, end) && exists i :: start <= i < end && !white[i]
    ensures Bounded(g, Chunk(start, end), max) && WellCut(g, white, Chunk(start, end))
  {
    EndFacts(|white|, g, s, start, max, end);
    NewChunk(g, white, Chunk(start, end), max);
  }

  /** Going back for the overlap loses nothing. */
  lemma BackProgress(white: seq<bool>, g: seq<nat>, s: seq<nat>, max: nat, overlap: nat, chunks: seq<Chunk>, end: nat, start: nat, next: nat)
    requires Progress(white, g, s, max, overlap, chunks, end) && IsRestart(g, start, end, overlap, next)
    requires |chunks| > 0 && chunks[|chunks| - 1] == Chunk(start, end)
    ensures start < next <= end && next in g
    ensures Progress(white, g, s, max, overlap, chunks, next) && Pending(white, g, overlap, chunks, next)
  {
    hide IsEnd, Bounded, WellCut, Covered, Joined;
    forall k | 0 <= k < |chunks| ensures chunks[k].start < next {
      assert k < |chunks| - 1 ==> chunks[k].start < chunks[|chunks| - 1].start;
    }
  }

  lemma EndProgress(white: seq<bool>, g: seq<nat>, s: seq<nat>, max: nat, overlap: nat, chunks: seq<Chunk>, start: nat)
    requires start >= |white| && Progress(white, g, s, max, overlap, chunks, start)
    ensures InOrder(chunks) && Joined(g, white, overlap, chunks)
    ensures forall k :: 0 <= k < |chunks| ==> Bounded(g, chunks[k], max) && WellCut(g, white, chunks[k])
    ensures forall i :: 0 <= i < |white| && !white[i] ==> Covered(chunks, i)
    ensures forall k :: 0 <= k < |chunks| ==> IsEnd(g, s, chunks[k].start, max, chunks[k].end)
  {
    hide IsEnd, Bounded, WellCut, Covered, Joined;
  }
}
