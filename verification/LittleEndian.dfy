/** Fixed-width little-endian numbers in byte strings. */
module LittleEndian {
  import opened Common

  const U32: nat := 0x1_0000_0000
  const U64: nat := 0x1_0000_0000_0000_0000

  function Power(width: nat): (r: nat)
    ensures r > 0
  {
    if width == 0 then 1 else 256 * Power(width - 1)
  }

  function Put(v: nat, width: nat): (r: Bytes)
    ensures |r| == width
  {
    if width == 0 then [] else [(v % 256) as byte] + Put(v / 256, width - 1)
  }

  function Get(b: Bytes): nat {
    if |b| == 0 then 0 else b[0] as nat + 256 * Get(b[1..])
  }

  lemma {:induction false} GetPut(v: nat, width: nat)
    requires v < Power(width)
    ensures Get(Put(v, width)) == v
  {
    if width > 0 {
      GetPut(v / 256, width - 1);
      assert Put(v, width)[1..] == Put(v / 256, width - 1);
    }
  }

  lemma {:induction false} GetBound(b: Bytes)
    ensures Get(b) < Power(|b|)
  {
    if |b| > 0 { GetBound(b[1..]); }
  }

  lemma Widths()
    ensures Power(4) == U32 && Power(8) == U64
  {
    assert Power(4) == 256 * 256 * 256 * 256;
    assert Power(8) == 256 * 256 * 256 * 256 * Power(4);
  }

  lemma RoundTrip32(v: nat)
    requires v < U32
    ensures Get(Put(v, 4)) == v
  {
    Widths();
    GetPut(v, 4);
  }

  /** The byte that counts least comes first. */
  lemma GetInFull(b: Bytes)
    requires |b| == 4
    ensures Get(b) == b[0] as nat + 0x100 * b[1] as nat + 0x1_0000 * b[2] as nat + 0x100_0000 * b[3] as nat
  {
    assert b[1..][1..] == b[2..] && b[2..][1..] == b[3..];
    assert Get(b[3..]) == b[3] as nat && Get(b[2..]) == b[2] as nat + 256 * Get(b[3..]);
  }

  // ---------------------------------------------------------------- records of fixed-width fields

  function Width(widths: seq<nat>): nat {
    if |widths| == 0 then 0 else widths[0] + Width(widths[1..])
  }

  function Layout(values: seq<nat>, widths: seq<nat>): (r: Bytes)
    requires |values| == |widths|
    ensures |r| == Width(widths)
  {
    if |widths| == 0 then [] else Put(values[0], widths[0]) + Layout(values[1..], widths[1..])
  }

  /** The fields of a record, one after the other. */
  function Fields(b: Bytes, widths: seq<nat>): (r: seq<nat>)
    requires Width(widths) <= |b|
    ensures |r| == |widths|
  {
    if |widths| == 0 then [] else [Get(b[..widths[0]])] + Fields(b[widths[0]..], widths[1..])
  }

  predicate Fit(values: seq<nat>, widths: seq<nat>) {
    |values| == |widths| && forall i :: 0 <= i < |values| ==> values[i] < Power(widths[i])
  }

  /** A record that starts a byte string is read back field by field. */
  lemma {:induction false} FieldsLayout(values: seq<nat>, widths: seq<nat>, tail: Bytes)
    requires Fit(values, widths)
    ensures Fields(Layout(values, widths) + tail, widths) == values
  {
    if |widths| > 0 {
      var b, rest := Layout(values, widths) + tail, Layout(values[1..], widths[1..]) + tail;
      assert b[..widths[0]] == Put(values[0], widths[0]) && b[widths[0]..] == rest;
      GetPut(values[0], widths[0]);
      FieldsLayout(values[1..], widths[1..], tail);
    }
  }

  lemma {:induction false} WidthConcat(a: seq<nat>, b: seq<nat>)
    ensures Width(a + b) == Width(a) + Width(b)
  {
    if |a| == 0 {
      assert a + b == b;
    } else {
      assert (a + b)[1..] == a[1..] + b;
      WidthConcat(a[1..], b);
    }
  }

  /** A run of n fields of the same width. */
  lemma {:induction false} WidthRepeat(n: nat, width: nat)
    ensures Width(seq(n, i => width)) == width * n
  {
    if n > 0 {
      assert seq(n, i => width)[1..] == seq(n - 1, i => width);
      WidthRepeat(n - 1, width);
    }
  }

  // ---------------------------------------------------------------- fields by place

  lemma Inner(b: Bytes, lo: nat, hi: nat, i: nat, j: nat)
    requires lo <= hi <= |b| && i <= j <= hi - lo
    ensures b[lo..hi][i..j] == b[lo + i..lo + j]
  {
    var x, y := b[lo..hi][i..j], b[lo + i..lo + j];
    forall k | 0 <= k < j - i ensures x[k] == y[k] {
      assert x[k] == b[lo..hi][i + k] == b[lo + (i + k)];
    }
  }

  /** A field of a record lies behind the fields in front of it. */
  lemma {:induction false} FieldAt(b: Bytes, widths: seq<nat>, k: nat)
    requires Width(widths) <= |b| && k < |widths|
    ensures var at := Width(widths[..k]); at + widths[k] <= |b| && Fields(b, widths)[k] == Get(b[at..at + widths[k]])
  {
    hide Get;
    if k == 0 {
      assert b[0..widths[0]] == b[..widths[0]];
    } else {
      hide Fields;
      var rest, behind := b[widths[0]..], widths[1..];
      var at := Width(behind[..k - 1]);
      FieldAt(rest, behind, k - 1);
      LaterField(b, widths, k);
      Inner(b, widths[0], |b|, at, at + widths[k]);
      assert b[widths[0]..|b|] == rest;
    }
  }

  lemma LaterField(b: Bytes, widths: seq<nat>, k: nat)
    requires Width(widths) <= |b| && 0 < k < |widths|
    ensures Width(widths[1..]) <= |b[widths[0]..]| && Fields(b, widths)[k] == Fields(b[widths[0]..], widths[1..])[k - 1]
    ensures Width(widths[..k]) == widths[0] + Width(widths[1..][..k - 1])
  {
    hide Get;
    assert widths[..k][1..] == widths[1..][..k - 1];
  }

  lemma OneWidth(w: nat)
    ensures Width([w]) == w
  {
  }

  lemma PlaceOf(b: Bytes, widths: seq<nat>, k: nat, at: nat)
    requires Width(widths) <= |b| && k < |widths| && Width(widths[..k]) == at
    ensures at + widths[k] <= |b| && Fields(b, widths)[k] == Get(b[at..at + widths[k]]) && Width(widths[..k + 1]) == at + widths[k]
  {
    hide Fields, Get;
    FieldAt(b, widths, k);
    WidthConcat(widths[..k], [widths[k]]);
    OneWidth(widths[k]);
    hide Width;
    assert widths[..k + 1] == widths[..k] + [widths[k]];
  }

  lemma Start(w: seq<nat>)
    ensures Width(w[..0]) == 0
  {
  }

  /** A number written as a field of a record stands at its place. */
  lemma WrittenAt(values: seq<nat>, widths: seq<nat>, k: nat, at: nat)
    requires Fit(values, widths) && k < |widths| && Width(widths[..k]) == at
    ensures at + widths[k] <= |Layout(values, widths)| && Get(Layout(values, widths)[at..at + widths[k]]) == values[k]
    ensures Width(widths[..k + 1]) == at + widths[k]
  {
    hide Width, Layout, Fields, Get;
    var b := Layout(values, widths);
    FieldsLayout(values, widths, []);
    assert b + [] == b;
    PlaceOf(b, widths, k, at);
  }

  // ---------------------------------------------------------------- byte strings put together

  function Concat(parts: seq<Bytes>): Bytes {
    if |parts| == 0 then [] else Concat(parts[..|parts| - 1]) + parts[|parts| - 1]
  }

  lemma {:induction false} ConcatFirst(parts: seq<Bytes>)
    requires |parts| > 0
    ensures Concat(parts) == parts[0] + Concat(parts[1..])
  {
    if |parts| > 1 {
      var init := parts[..|parts| - 1];
      ConcatFirst(init);
      assert init[1..] == parts[1..][..|parts| - 2];
    } else {
      assert parts[..0] == [] && parts[1..] == [];
    }
  }

  lemma {:induction false} ConcatGrows(parts: seq<Bytes>, n: nat)
    requires n <= |parts|
    ensures |Concat(parts[..n])| <= |Concat(parts)|
    decreases |parts| - n
  {
    if n == |parts| {
      assert parts[..n] == parts;
    } else {
      assert parts[..n + 1][..n] == parts[..n];
      ConcatGrows(parts, n + 1);
    }
  }

  lemma {:induction false} ConcatTwo(a: seq<Bytes>, b: seq<Bytes>)
    ensures Concat(a + b) == Concat(a) + Concat(b)
  {
    if |b| == 0 {
      assert a + b == a;
    } else {
      ConcatTwo(a, b[..|b| - 1]);
      assert (a + b)[..|a + b| - 1] == a + b[..|b| - 1];
    }
  }

  lemma ConcatStep(parts: seq<Bytes>, j: nat)
    requires j < |parts|
    ensures Concat(parts[..j + 1]) == Concat(parts[..j]) + parts[j]
  {
    assert parts[..j + 1][..j] == parts[..j];
  }

  lemma ConcatEnds(parts: seq<Bytes>)
    ensures Concat(parts[..0]) == [] && parts[..|parts|] == parts
  {
  }

  /** A part lies between the parts in front of it and the parts behind it. */
  lemma ConcatAround(parts: seq<Bytes>, k: nat)
    requires k < |parts|
    ensures Concat(parts) == Concat(parts[..k]) + parts[k] + Concat(parts[k + 1..])
  {
    ConcatTwo(parts[..k], parts[k..]);
    ConcatFirst(parts[k..]);
    assert parts == parts[..k] + parts[k..] && parts[k..][1..] == parts[k + 1..];
  }

  lemma ConcatSlice(head: Bytes, parts: seq<Bytes>, tail: Bytes, k: nat)
    requires k < |parts|
    ensures var b := head + Concat(parts) + tail; var at := |head| + |Concat(parts[..k])|;
            at + |parts[k]| <= |b| && b[at..at + |parts[k]|] == parts[k]
  {
    ConcatAround(parts, k);
    hide Concat;
    Middle(head, Concat(parts[..k]), parts[k], Concat(parts[k + 1..]), tail);
  }

  lemma Middle(head: Bytes, a: Bytes, m: Bytes, c: Bytes, tail: Bytes)
    ensures var b, at := head + (a + m + c) + tail, |head| + |a|; at + |m| <= |b| && b[at..at + |m|] == m
  {
    var b, at := head + (a + m + c) + tail, |head| + |a|;
    forall i | 0 <= i < |m| ensures b[at + i] == m[i] {}
  }

  lemma {:induction false} ConcatRows(rows: seq<Bytes>, width: nat)
    requires forall i :: 0 <= i < |rows| ==> |rows[i]| == width
    ensures |Concat(rows)| == width * |rows|
  {
    if |rows| > 0 { ConcatRows(rows[..|rows| - 1], width); }
  }

  /** Row k of a table of equally wide rows. */
  lemma RowAt(head: Bytes, rows: seq<Bytes>, tail: Bytes, width: nat, k: nat)
    requires k < |rows| && forall i :: 0 <= i < |rows| ==> |rows[i]| == width
    ensures var b := head + Concat(rows) + tail; var at := |head| + width * k;
            0 <= at && at + width <= |b| && b[at..at + width] == rows[k]
  {
    ConcatSlice(head, rows, tail, k);
    ConcatRows(rows[..k], width);
  }
}
