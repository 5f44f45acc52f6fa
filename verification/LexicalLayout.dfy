/** The records of the lexical payloads place by place, as any reader of the format finds them. */
module LexicalLayout {
  import opened Common
  import opened LittleEndian
  import opened Bm25
  import opened LexicalGroups
  import opened LexicalFormat

  predicate Small(v: nat) {
    v < 0x1_0000_0000
  }

  predicate Large(v: nat) {
    v < 0x1_0000_0000_0000_0000
  }

  /** A position: field and position in the field. */
  lemma PositionPlaces(p: Position)
    requires Small(p.field) && Small(p.position)
    ensures var b := PositionRow(p); Get(b[0..4]) == p.field && Get(b[4..8]) == p.position
  {
    hide Width, Layout, Get;
    var v, w := [p.field, p.position], PositionWidths;
    Widths();
    Start(w);
    WrittenAt(v, w, 0, 0);
    WrittenAt(v, w, 1, 4);
  }

  /** A posting: object, frequency per field, length per field, and where its positions are. */
  lemma PostingPlaces(p: Posting, offset: nat)
    requires Sized(p) && Small(p.objectType) && Large(p.ordinal) && Large(offset) && Small(|p.positions|)
    requires forall f :: 0 <= f < 3 ==> Small(p.tf[f]) && Small(p.length[f])
    ensures var b := PostingRow(p, offset);
      && Get(b[0..4]) == p.objectType && Get(b[4..12]) == p.ordinal
      && Get(b[12..16]) == p.tf[0] && Get(b[16..20]) == p.tf[1] && Get(b[20..24]) == p.tf[2]
      && Get(b[24..28]) == p.length[0] && Get(b[28..32]) == p.length[1] && Get(b[32..36]) == p.length[2]
      && Get(b[36..44]) == offset && Get(b[44..48]) == |p.positions|
  {
    hide Width, Layout, Get;
    var v, w := PostingFields(p, offset), PostingWidths;
    Widths();
    PostingFits(p, offset);
    Start(w);
    WrittenAt(v, w, 0, 0);
    WrittenAt(v, w, 1, 4);
    WrittenAt(v, w, 2, 12);
    WrittenAt(v, w, 3, 16);
    WrittenAt(v, w, 4, 20);
    WrittenAt(v, w, 5, 24);
    WrittenAt(v, w, 6, 28);
    WrittenAt(v, w, 7, 32);
    WrittenAt(v, w, 8, 36);
    WrittenAt(v, w, 9, 44);
  }

  lemma PostingFits(p: Posting, offset: nat)
    requires Sized(p) && Small(p.objectType) && Large(p.ordinal) && Large(offset) && Small(|p.positions|)
    requires forall f :: 0 <= f < 3 ==> Small(p.tf[f]) && Small(p.length[f])
    ensures Fit(PostingFields(p, offset), PostingWidths)
  {
    hide Power;
    Widths();
  }

  lemma {:induction false} MostIsAttained(ps: seq<Posting>)
    requires SizedPostings(ps)
    ensures exists i :: 0 <= i < |ps| && Frequency(ps[i]) == MaxFrequency(ps)
    ensures forall i :: 0 <= i < |ps| ==> Frequency(ps[i]) <= MaxFrequency(ps)
  {
    var n := |ps| - 1;
    var init := ps[..n];
    if n > 0 {
      MostIsAttained(init);
      var i :| 0 <= i < n && Frequency(init[i]) == MaxFrequency(init);
      assert ps[i] == init[i] && Frequency(ps[i]) == MaxFrequency(init);
      forall j | 0 <= j < |ps| ensures Frequency(ps[j]) <= MaxFrequency(ps) { assert j < n ==> init[j] == ps[j]; }
      assert MaxFrequency(ps) == Frequency(ps[n]) || MaxFrequency(ps) == Frequency(ps[i]);
    } else {
      assert MaxFrequency(init) == 0;
      assert Frequency(ps[0]) == MaxFrequency(ps);
    }
  }

  predicate LengthHere(ps: seq<Posting>, i: nat, f: nat, length: nat)
    requires SizedPostings(ps)
  {
    i < |ps| && f < 3 && ps[i].tf[f] > 0 && ps[i].length[f] == length
  }

  /** The smallest length a term of the postings stands in, or 2^32 - 1 when none is smaller. */
  lemma {:induction false} LeastIsAttained(ps: seq<Posting>)
    requires SizedPostings(ps)
    ensures forall i, f, n :: LengthHere(ps, i, f, n) ==> MinLength(ps) <= n
    ensures MinLength(ps) <= 0xFFFF_FFFF
    ensures MinLength(ps) < 0xFFFF_FFFF ==> exists i: nat, f: nat :: LengthHere(ps, i, f, MinLength(ps))
  {
    var n := |ps| - 1;
    var init, least := ps[..n], MinLength(ps);
    if n > 0 { LeastIsAttained(init); }
    forall i: nat, f: nat, m: nat | LengthHere(ps, i, f, m) ensures least <= m {
      if i < n { assert LengthHere(init, i, f, m); }
    }
    if least < U32 - 1 {
      if n > 0 && least == MinLength(init) {
        var i: nat, f: nat :| LengthHere(init, i, f, least);
        assert LengthHere(ps, i, f, least);
      } else {
        assert LengthHere(ps, n, 0, least) || LengthHere(ps, n, 1, least) || LengthHere(ps, n, 2, least);
      }
    }
  }

  /** A block: which postings, and the maxima that pruning relies on, both attained. */
  lemma BlockPlaces(ps: seq<Posting>, b: nat)
    requires SizedPostings(ps) && Small(|ps|) && b < Blocks(|ps|) && forall i :: 0 <= i < |ps| ==> Small(Frequency(ps[i]))
    ensures 128 * b < |ps| && Get(BlockRow(ps, b)[0..4]) == 128 * b
    ensures var part, r := ps[128 * b..if |ps| < 128 * b + 128 then |ps| else 128 * b + 128], BlockRow(ps, b);
      && Get(r[4..8]) == |part|
      && (exists i :: 0 <= i < |part| && Frequency(part[i]) == Get(r[8..12]))
      && (forall i :: 0 <= i < |part| ==> Frequency(part[i]) <= Get(r[8..12]))
      && (forall i, f, n :: LengthHere(part, i, f, n) ==> Get(r[12..16]) <= n)
      && (Get(r[12..16]) == 0 || exists i: nat, f: nat :: LengthHere(part, i, f, Get(r[12..16])))
  {
    BlockStarts(|ps|, b);
    var first, end := 128 * b, BlockEnd(|ps|, b);
    var part := ps[first..end];
    BlockValues(ps, b);
    BlockFits(ps, b);
    BlockNumbers(ps, b);
    hide MaxFrequency, MinLength, Frequency, LengthHere, BlockRow, BlockFields, Get, Fit;
    MostIsAttained(part);
    LeastIsAttained(part);
  }

  lemma BlockValues(ps: seq<Posting>, b: nat)
    requires SizedPostings(ps) && b < Blocks(|ps|)
    ensures BlockEnd(|ps|, b) == if |ps| < 128 * b + 128 then |ps| else 128 * b + 128
    ensures 128 * b < BlockEnd(|ps|, b)
    ensures var part := ps[128 * b..BlockEnd(|ps|, b)];
      BlockFields(ps, b) == [128 * b, |part|, MaxFrequency(part), if MinLength(part) == 0xFFFF_FFFF then 0 else MinLength(part)]
  {
    BlockStarts(|ps|, b);
    hide MaxFrequency, MinLength;
  }

  lemma BlockFits(ps: seq<Posting>, b: nat)
    requires SizedPostings(ps) && Small(|ps|) && b < Blocks(|ps|) && forall i :: 0 <= i < |ps| ==> Small(Frequency(ps[i]))
    ensures Fit(BlockFields(ps, b), BlockWidths)
  {
    BlockStarts(|ps|, b);
    var part := ps[b * BlockSize..BlockEnd(|ps|, b)];
    MostIsAttained(part);
    LeastIsAttained(part);
    hide MaxFrequency, MinLength, Frequency, LengthHere, Power;
    Widths();
  }

  lemma BlockNumbers(ps: seq<Posting>, b: nat)
    requires SizedPostings(ps) && b < Blocks(|ps|) && Fit(BlockFields(ps, b), BlockWidths)
    ensures var r, f := BlockRow(ps, b), BlockFields(ps, b);
      Get(r[0..4]) == f[0] && Get(r[4..8]) == f[1] && Get(r[8..12]) == f[2] && Get(r[12..16]) == f[3]
  {
    hide Width, Layout, Get, BlockFields, Fit;
    var v, w := BlockFields(ps, b), BlockWidths;
    Start(w);
    WrittenAt(v, w, 0, 0);
    WrittenAt(v, w, 1, 4);
    WrittenAt(v, w, 2, 8);
    WrittenAt(v, w, 3, 12);
  }

  /** What stands in front of a term's postings and of its positions. */
  lemma TermHeads(k: nat, n: nat, positions: nat)
    requires Large(k) && Small(n) && Large(positions)
    ensures var b := ListHeader(k, n); Get(b[0..8]) == k && Get(b[8..16]) == n && Get(b[16..20]) == (n + 127) / 128
    ensures var b := RunHeader(k, positions); Get(b[0..8]) == k && Get(b[8..16]) == positions
  {
    hide Width, Layout, Get;
    Widths();
    var v, w := [k, n, Blocks(n)], ListWidths;
    Start(w);
    WrittenAt(v, w, 0, 0);
    WrittenAt(v, w, 1, 8);
    WrittenAt(v, w, 2, 16);
    var x, y := [k, positions], RunWidths;
    Start(y);
    WrittenAt(x, y, 0, 0);
    WrittenAt(x, y, 1, 8);
  }

  /** A term entry: length and bytes of the term, its frequency, and offset and size of its two parts. */
  lemma EntryPlaces(gs: seq<Group>, k: nat)
    requires SizedGroups(gs) && k < |gs| && Small(|gs[k].term|) && Fit(EntryFields(gs, k), EntryWidths)
    ensures var b, n := EntryRow(gs, k), |gs[k].term|;
      && Get(b[0..4]) == n && b[4..4 + n] == gs[k].term
      && Get(b[4 + n..12 + n]) == |gs[k].postings|
      && Get(b[12 + n..20 + n]) == 56 + |Concat(PostingParts(gs)[..k])| && Get(b[20 + n..28 + n]) == |PostingParts(gs)[k]|
      && Get(b[28 + n..36 + n]) == 12 + |Concat(PositionParts(gs)[..k])| && Get(b[36 + n..44 + n]) == |PositionParts(gs)[k]|
  {
    hide *;
    EntryNumbers(gs, k);
    EntryRowParts(gs, k);
    FieldPlaces(EntryFields(gs, k));
    EntryParts(Put(|gs[k].term|, 4), gs[k].term, Layout(EntryFields(gs, k), EntryWidths));
  }

  lemma EntryRowParts(gs: seq<Group>, k: nat)
    requires SizedGroups(gs) && k < |gs| && Small(|gs[k].term|)
    ensures Get(Put(|gs[k].term|, 4)) == |gs[k].term|
    ensures |EntryFields(gs, k)| == |EntryWidths| == 5 && |Layout(EntryFields(gs, k), EntryWidths)| == 40
    ensures EntryRow(gs, k) == Put(|gs[k].term|, 4) + gs[k].term + Layout(EntryFields(gs, k), EntryWidths)
  {
    hide Width, Layout, Put, EntryFields, Get;
    RecordWidths();
    RoundTrip32(|gs[k].term|);
  }

  lemma FieldPlaces(v: seq<nat>)
    requires Fit(v, EntryWidths)
    ensures |v| == |EntryWidths| == 5 && |Layout(v, EntryWidths)| == 40
    ensures var b := Layout(v, EntryWidths);
      Get(b[0..8]) == v[0] && Get(b[8..16]) == v[1] && Get(b[16..24]) == v[2] && Get(b[24..32]) == v[3] && Get(b[32..40]) == v[4]
  {
    hide Width, Layout, Get;
    var w := EntryWidths;
    RecordWidths();
    Start(w);
    WrittenAt(v, w, 0, 0);
    WrittenAt(v, w, 1, 8);
    WrittenAt(v, w, 2, 16);
    WrittenAt(v, w, 3, 24);
    WrittenAt(v, w, 4, 32);
  }

  lemma EntryNumbers(gs: seq<Group>, k: nat)
    requires SizedGroups(gs) && k < |gs|
    ensures EntryFields(gs, k) == [|gs[k].postings|, 56 + |Concat(PostingParts(gs)[..k])|, |PostingParts(gs)[k]|,
                                   12 + |Concat(PositionParts(gs)[..k])|, |PositionParts(gs)[k]|]
  {
    hide Concat, TermPostings, TermPositions;
  }

  lemma EntryParts(length: Bytes, term: Bytes, fields: Bytes)
    requires |length| == 4 && |fields| == 40
    ensures var b, n := length + term + fields, |term|;
      && b[0..4] == length && b[4..4 + n] == term
      && b[4 + n..12 + n] == fields[0..8] && b[12 + n..20 + n] == fields[8..16] && b[20 + n..28 + n] == fields[16..24]
      && b[28 + n..36 + n] == fields[24..32] && b[36 + n..44 + n] == fields[32..40]
  {
    var b, n := length + term + fields, |term|;
    assert b[4 + n..44 + n] == fields;
    Inner(b, 4 + n, 44 + n, 0, 8);
    Inner(b, 4 + n, 44 + n, 8, 16);
    Inner(b, 4 + n, 44 + n, 16, 24);
    Inner(b, 4 + n, 44 + n, 24, 32);
    Inner(b, 4 + n, 44 + n, 32, 40);
  }

  /** The heads of the three payloads. */
  lemma PayloadHeads(t: Totals, n: nat)
    requires TotalsOk(t) && Large(n)
    ensures var b := CountHeader(n); |b| == 12 && Get(b[0..4]) == 1 && Get(b[4..12]) == n
    ensures var b := TotalHeader(t, n);
      && |b| == 56 && Get(b[0..4]) == 1 && Get(b[4..8]) == 128 && Get(b[8..16]) == t.documents && Get(b[16..24]) == t.passages
      && Get(b[24..32]) == n && Get(b[32..40]) == t.tokens[0] && Get(b[40..48]) == t.tokens[1] && Get(b[48..56]) == t.tokens[2]
  {
    hide Width, Layout, Get;
    Widths();
    var v, w := [PayloadVersion, n], CountWidths;
    Start(w);
    WrittenAt(v, w, 0, 0);
    WrittenAt(v, w, 1, 4);
    var x, y := TotalFields(t, n), TotalWidths;
    Start(y);
    WrittenAt(x, y, 0, 0);
    WrittenAt(x, y, 1, 4);
    WrittenAt(x, y, 2, 8);
    WrittenAt(x, y, 3, 16);
    WrittenAt(x, y, 4, 24);
    WrittenAt(x, y, 5, 32);
    WrittenAt(x, y, 6, 40);
    WrittenAt(x, y, 7, 48);
  }
}
