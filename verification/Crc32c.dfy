/** The CRC-32C byte step over bits, least significant first, and what it separates. */
module Crc32c {
  import opened Common
  import opened LittleEndian
  import opened UpdateLogFormat

  type Bits = seq<bool>

  function ToBits(n: nat, width: nat): (b: Bits)
    ensures |b| == width
  {
    if width == 0 then [] else [n % 2 == 1] + ToBits(n / 2, width - 1)
  }

  function FromBits(b: Bits): nat {
    if |b| == 0 then 0 else (if b[0] then 1 else 0) + 2 * FromBits(b[1..])
  }

  function Xor(a: Bits, b: Bits): (r: Bits)
    requires |a| == |b|
    ensures |r| == |a| && forall i :: 0 <= i < |r| ==> (r[i] <==> a[i] != b[i])
  {
    seq(|a|, i requires 0 <= i < |a| => a[i] != b[i])
  }

  const Polynomial: nat := 0x82F6_3B78

  /** Shift one bit out, and fold the polynomial in when it was set. */
  function Shifted(c: Bits): (r: Bits)
    requires |c| == 32
    ensures |r| == 32
  {
    if c[0] then Xor(c[1..] + [false], ToBits(Polynomial, 32)) else c[1..] + [false]
  }

  function ShiftedBy(c: Bits, n: nat): (r: Bits)
    requires |c| == 32
    ensures |r| == 32
    decreases n
  {
    if n == 0 then c else ShiftedBy(Shifted(c), n - 1)
  }

  /** The 32-bit state after one more byte. */
  function Step(state: nat, x: byte): nat {
    FromBits(ShiftedBy(Xor(ToBits(state, 32), ToBits(x as nat, 32)), 8))
  }

  // ---------------------------------------------------------------- bits and numbers

  function Power2(n: nat): (r: nat)
    ensures r > 0
  {
    if n == 0 then 1 else 2 * Power2(n - 1)
  }

  lemma {:induction false} FromBitsBound(b: Bits)
    ensures FromBits(b) < Power2(|b|)
  {
    if |b| > 0 { FromBitsBound(b[1..]); }
  }

  lemma {:induction false} ToFromBits(b: Bits)
    ensures ToBits(FromBits(b), |b|) == b
  {
    if |b| > 0 {
      ToFromBits(b[1..]);
      assert FromBits(b) / 2 == FromBits(b[1..]);
      assert b == [b[0]] + b[1..];
    }
  }

  /** The bits of two numbers agree exactly when the numbers do, up to a multiple of 2^width. */
  lemma {:induction false} SameBits(m: nat, n: nat, width: nat)
    requires ToBits(m, width) == ToBits(n, width)
    ensures m % Power2(width) == n % Power2(width)
  {
    if width > 0 {
      assert ToBits(m, width)[1..] == ToBits(m / 2, width - 1) && ToBits(n, width)[1..] == ToBits(n / 2, width - 1);
      SameBits(m / 2, n / 2, width - 1);
      assert ToBits(m, width)[0] == ToBits(n, width)[0];
      SplitModulo(m, Power2(width - 1));
      SplitModulo(n, Power2(width - 1));
    }
  }

  lemma SplitModulo(m: nat, p: nat)
    requires p > 0
    ensures m % (2 * p) == m % 2 + 2 * (m / 2 % p)
  {
    var h := m / 2;
    var q, r := h / p, h % p;
    assert h == q * p + r && m == 2 * h + m % 2;
    assert m == q * (2 * p) + (2 * r + m % 2);
    ModuloIs(m, 2 * p, q, 2 * r + m % 2);
  }

  lemma ModuloIs(m: nat, d: nat, q: nat, r: nat)
    requires d > 0 && r < d && m == q * d + r
    ensures m % d == r
  {
    var k, e := m / d, m % d;
    assert m == k * d + e;
    assert (k - q) * d == k * d - q * d;
    SmallMultiple(k - q, d, r - e);
  }

  lemma SmallMultiple(k: int, d: nat, e: int)
    requires k * d == e && 0 - d < e < d
    ensures k == 0
  {
    Multiple(k, d);
  }

  lemma Multiple(k: int, d: nat)
    ensures (k >= 1 ==> k * d >= d) && (k <= -1 ==> k * d <= 0 - d)
  {
    if k >= 1 { assert (k - 1) * d >= 0; }
    if k <= -1 { assert (-1 - k) * d >= 0; }
  }

  lemma Power32()
    ensures Power2(32) == U32
  {
    assert Power2(8) == 256;
    assert Power2(16) == 65536;
    assert Power2(24) == 0x100_0000;
  }

  // ---------------------------------------------------------------- what the step separates

  lemma TopBit()
    ensures ToBits(Polynomial, 32)[31]
  {
    hide ToBits, Power2;
    BitAt(Polynomial, 32, 31);
    Power31();
  }

  lemma Power31()
    ensures Power2(31) == 0x8000_0000
  {
    assert Power2(8) == 256;
    assert Power2(16) == 65536;
    assert Power2(24) == 0x100_0000;
  }

  lemma {:induction false} BitAt(n: nat, width: nat, i: nat)
    requires i < width
    ensures ToBits(n, width)[i] <==> n / Power2(i) % 2 == 1
  {
    if i > 0 {
      BitAt(n / 2, width - 1, i - 1);
      HalvedQuotient(n, Power2(i - 1));
    }
  }

  lemma HalvedQuotient(n: nat, p: nat)
    requires p > 0
    ensures n / (2 * p) == n / 2 / p
  {
    var h := n / 2;
    var q, r := h / p, h % p;
    assert h == q * p + r;
    assert n == q * (2 * p) + (2 * r + n % 2);
    QuotientIs(n, 2 * p, q, 2 * r + n % 2);
  }

  lemma QuotientIs(m: nat, d: nat, q: nat, r: nat)
    requires d > 0 && r < d && m == q * d + r
    ensures m / d == q
  {
    ModuloIs(m, d, q, r);
    assert (m / d - q) * d == 0;
  }

  /** The polynomial's top bit tells whether a bit was shifted out, so nothing is lost. */
  lemma ShiftedApart(c: Bits, d: Bits)
    requires |c| == |d| == 32 && Shifted(c) == Shifted(d)
    ensures c == d
  {
    TopBit();
    var p := ToBits(Polynomial, 32);
    hide ToBits;
    assert Shifted(c)[31] == c[0] && Shifted(d)[31] == d[0];
    forall i | 0 < i < 32 ensures c[i] == d[i] {
      assert (c[1..] + [false])[i - 1] == c[i] && (d[1..] + [false])[i - 1] == d[i];
      assert Shifted(c)[i - 1] == (c[i] != (c[0] && p[i - 1])) && Shifted(d)[i - 1] == (d[i] != (d[0] && p[i - 1]));
    }
  }

  lemma {:induction false} ShiftsApart(c: Bits, d: Bits, n: nat)
    requires |c| == |d| == 32 && ShiftedBy(c, n) == ShiftedBy(d, n)
    ensures c == d
    decreases n
  {
    hide Shifted;
    if n > 0 {
      ShiftsApart(Shifted(c), Shifted(d), n - 1);
      ShiftedApart(c, d);
    }
  }

  lemma XorApart(c: Bits, d: Bits, x: Bits)
    requires |c| == |d| == |x|
    ensures Xor(c, x) == Xor(d, x) ==> c == d
    ensures Xor(x, c) == Xor(x, d) ==> c == d
  {
    if Xor(c, x) == Xor(d, x) {
      forall i | 0 <= i < |c| ensures c[i] == d[i] { assert Xor(c, x)[i] == Xor(d, x)[i]; }
    }
    if Xor(x, c) == Xor(x, d) {
      forall i | 0 <= i < |c| ensures c[i] == d[i] { assert Xor(x, c)[i] == Xor(x, d)[i]; }
    }
  }

  lemma StepInBounds(c: nat, x: byte)
    ensures Step(c, x) < U32
  {
    hide ShiftedBy, FromBits;
    Power32();
    FromBitsBound(ShiftedBy(Xor(ToBits(c, 32), ToBits(x as nat, 32)), 8));
  }

  lemma SameStep(c: nat, d: nat, x: byte, y: byte)
    requires Step(c, x) % U32 == Step(d, y) % U32
    ensures Xor(ToBits(c, 32), ToBits(x as nat, 32)) == Xor(ToBits(d, 32), ToBits(y as nat, 32))
  {
    hide ShiftedBy, FromBits, ToBits, Xor;
    StepInBounds(c, x);
    StepInBounds(d, y);
    var a, b := Xor(ToBits(c, 32), ToBits(x as nat, 32)), Xor(ToBits(d, 32), ToBits(y as nat, 32));
    ToFromBits(ShiftedBy(a, 8));
    ToFromBits(ShiftedBy(b, 8));
    ShiftsApart(a, b, 8);
  }

  /** CRC-32C keeps different states apart and tells any two bytes apart, so it detects one changed byte. */
  lemma StepSeparates()
    ensures Separates(Step)
  {
    hide Step;
    forall c: nat, x: byte, y: byte | x != y ensures Step(c, x) % U32 != Step(c, y) % U32 {
      if Step(c, x) % U32 == Step(c, y) % U32 { SameBytes(c, x, y); }
    }
    forall c: nat, d: nat, x: byte | c % U32 != d % U32 ensures Step(c, x) % U32 != Step(d, x) % U32 {
      if Step(c, x) % U32 == Step(d, x) % U32 { SameStates(c, d, x); }
    }
  }

  lemma SameBytes(c: nat, x: byte, y: byte)
    requires Step(c, x) % U32 == Step(c, y) % U32
    ensures x == y
  {
    hide Step, ToBits, Xor, Power2;
    SameStep(c, c, x, y);
    XorApart(ToBits(x as nat, 32), ToBits(y as nat, 32), ToBits(c, 32));
    SameBits(x as nat, y as nat, 32);
    Power32();
  }

  lemma SameStates(c: nat, d: nat, x: byte)
    requires Step(c, x) % U32 == Step(d, x) % U32
    ensures c % U32 == d % U32
  {
    hide Step, ToBits, Xor, Power2;
    SameStep(c, d, x, x);
    XorApart(ToBits(c, 32), ToBits(d, 32), ToBits(x as nat, 32));
    SameBits(c, d, 32);
    Power32();
  }
}
