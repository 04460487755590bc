/**
 * Hashes as strings: packing 64 bits into hexadecimal, and the Hamming distance on hex strings.
 */
module Hex {
  predicate IsBits(bits: string) {
    forall i :: 0 <= i < |bits| ==> bits[i] == '0' || bits[i] == '1'
  }

  predicate IsLowerDigit(c: char) {
    '0' <= c <= '9' || 'a' <= c <= 'f'
  }

  predicate IsLowerHex(s: string) {
    forall i :: 0 <= i < |s| ==> IsLowerDigit(s[i])
  }

  function BitValue(c: char): nat {
    if c == '1' then 1 else 0
  }

  /** `n.toString(16)` for one digit. */
  function HexDigit(n: nat): char
    requires n < 16
  {
    "0123456789abcdef"[n]
  }

  /** `parseInt(c, 16)` as an operand of `^`: NaN counts as 0. */
  function HexValue(c: char): (n: nat)
    ensures n < 16
  {
    if '0' <= c <= '9' then (c - '0') as nat
    else if 'a' <= c <= 'f' then (c - 'a') as nat + 10
    else if 'A' <= c <= 'F' then (c - 'A') as nat + 10
    else 0
  }

  function BitChar(n: nat, j: nat): char
    requires n < 16 && j < 4
  {
    if Bit(n, j) == 1 then '1' else '0'
  }

  /** The bits of a four-bit number, from the highest down. */
  function Bit(n: nat, j: nat): (b: nat)
    requires n < 16 && j < 4
    ensures b <= 1
  {
    var below8 := if n >= 8 then n - 8 else n;
    var below4 := if below8 >= 4 then below8 - 4 else below8;
    if j == 3 then (if n >= 8 then 1 else 0)
    else if j == 2 then (if below8 >= 4 then 1 else 0)
    else if j == 1 then (if below4 >= 2 then 1 else 0)
    else if below4 >= 2 then below4 - 2 else below4
  }

  /** `(n >> j) & 1` is that bit. */
  lemma BitIsShiftAndMask(n: nat)
    requires n < 16
    ensures n % 2 == Bit(n, 0) && n / 2 % 2 == Bit(n, 1) && n / 4 % 2 == Bit(n, 2) && n / 8 % 2 == Bit(n, 3)
  {
  }

  // ---- Packing ---------------------------------------------------------------------------------

  /** `parseInt(bits.slice(i, i + 4), 2)` */
  function Nibble(bits: string): (n: nat)
    requires |bits| == 4
    ensures n < 16
  {
    8 * BitValue(bits[0]) + 4 * BitValue(bits[1]) + 2 * BitValue(bits[2]) + BitValue(bits[3])
  }

  function Pack(bits: string): (hex: string)
    requires |bits| % 4 == 0
    ensures |hex| == |bits| / 4
  {
    if bits == [] then "" else [HexDigit(Nibble(bits[..4]))] + Pack(bits[4..])
  }

  function FourBits(n: nat): (bits: string)
    requires n < 16
    ensures |bits| == 4
  {
    [BitChar(n, 3), BitChar(n, 2), BitChar(n, 1), BitChar(n, 0)]
  }

  /** The inverse of packing. */
  function Unpack(hex: string): (bits: string)
    ensures |bits| == 4 * |hex|
  {
    if hex == [] then "" else FourBits(HexValue(hex[0])) + Unpack(hex[1..])
  }

  /** The first i bits are packed into `hex`. */
  ghost predicate Packed(bits: string, i: nat, hex: string)
    requires |bits| % 4 == 0
  {
    i <= |bits| && i % 4 == 0 && hex + Pack(bits[i..]) == Pack(bits)
  }

  lemma NextFour(i: nat, n: nat)
    requires i < n && n % 4 == 0 && i % 4 == 0
    ensures i + 4 <= n && (i + 4) % 4 == 0 && (n - i) % 4 == 0
  {
  }

  lemma PackCons(bits: string, i: nat)
    requires i + 4 <= |bits| && (|bits| - i) % 4 == 0
    ensures Pack(bits[i..]) == [HexDigit(Nibble(bits[i..i + 4]))] + Pack(bits[i + 4..])
  {
    assert bits[i..][..4] == bits[i..i + 4] && bits[i..][4..] == bits[i + 4..];
  }

  lemma PackStep(bits: string, i: nat, hex: string)
    requires |bits| % 4 == 0 && i < |bits| && Packed(bits, i, hex)
    ensures i + 4 <= |bits| && Packed(bits, i + 4, hex + [HexDigit(Nibble(bits[i..i + 4]))])
  {
    NextFour(i, |bits|);
    PackCons(bits, i);
    var digit, rest := HexDigit(Nibble(bits[i..i + 4])), Pack(bits[i + 4..]);
    assert hex + ([digit] + rest) == hex + [digit] + rest;
  }

  lemma AllPacked(bits: string, hex: string)
    requires |bits| % 4 == 0 && Packed(bits, |bits|, hex)
    ensures hex == Pack(bits)
  {
    assert bits[|bits|..] == "" && hex + "" == hex;
  }

  method PackHex(bits: string) returns (hex: string)
    requires |bits| % 4 == 0
    ensures hex == Pack(bits)
  {
    hex := "";
    var i := 0;
    assert bits[0..] == bits && "" + Pack(bits) == Pack(bits);
    while i < |bits|
      invariant 0 <= i <= |bits| && Packed(bits, i, hex)
    {
      PackStep(bits, i, hex);
      var digit := HexDigit(Nibble(bits[i..i + 4]));
      hex := hex + [digit];
      i := i + 4;
    }
    AllPacked(bits, hex);
  }

  lemma DigitRoundTrip(n: nat)
    requires n < 16
    ensures HexValue(HexDigit(n)) == n
    ensures Nibble(FourBits(n)) == n
    ensures IsLowerDigit(HexDigit(n))
  {
  }

  /** What a character is worth: a hex digit of either case its value, anything else nothing. */
  lemma DigitValues(c: char, k: nat)
    requires k < 16
    ensures HexValue("0123456789abcdef"[k]) == k && HexValue("0123456789ABCDEF"[k]) == k
    ensures c !in "0123456789abcdefABCDEF" ==> HexValue(c) == 0
  {
    var digits := "0123456789abcdefABCDEF";
    if '0' <= c <= '9' { assert digits[(c - '0') as nat] == c; }
    if 'a' <= c <= 'f' { assert digits[10 + (c - 'a') as nat] == c; }
    if 'A' <= c <= 'F' { assert digits[16 + (c - 'A') as nat] == c; }
  }

  lemma LowerDigitRoundTrip(c: char)
    requires IsLowerDigit(c)
    ensures HexDigit(HexValue(c)) == c
  {
  }

  lemma NibbleRoundTrip(bits: string)
    requires |bits| == 4 && IsBits(bits)
    ensures FourBits(Nibble(bits)) == bits
  {
  }

  /** Packed bits are lower-case hex and unpack to themselves. */
  lemma {:induction false} UnpackPack(bits: string)
    requires |bits| % 4 == 0 && IsBits(bits)
    ensures IsLowerHex(Pack(bits)) && Unpack(Pack(bits)) == bits
  {
    if bits != [] {
      UnpackPack(bits[4..]);
      var n := Nibble(bits[..4]);
      DigitRoundTrip(n);
      NibbleRoundTrip(bits[..4]);
      var rest := Pack(bits[4..]);
      assert Pack(bits) == [HexDigit(n)] + rest;
      assert Pack(bits)[1..] == rest;
      assert bits == bits[..4] + bits[4..];
    }
  }

  /** The bit at a position, as a number. */
  function BitAt(bits: string, j: nat): nat
    requires j < |bits|
  {
    if bits[j] == '1' then 1 else 0
  }

  /** Each hex digit stands for four bits, the first of them the highest. */
  lemma {:induction false} PackedDigit(bits: string, k: nat)
    requires |bits| % 4 == 0 && 4 * k < |bits|
    ensures var j := 4 * k;
            j + 3 < |bits| && k < |Pack(bits)|
            && var n := 8 * BitAt(bits, j) + 4 * BitAt(bits, j + 1) + 2 * BitAt(bits, j + 2) + BitAt(bits, j + 3);
               Pack(bits)[k] == "0123456789abcdef"[n]
  {
    if k > 0 {
      PackedDigit(bits[4..], k - 1);
      assert Pack(bits)[k] == Pack(bits[4..])[k - 1];
    }
  }

  /** And every lower-case hex string is the packing of its bits. */
  lemma {:induction false} PackUnpack(hex: string)
    requires IsLowerHex(hex)
    ensures IsBits(Unpack(hex)) && Pack(Unpack(hex)) == hex
  {
    if hex != [] {
      PackUnpack(hex[1..]);
      var n := HexValue(hex[0]);
      DigitRoundTrip(n);
      LowerDigitRoundTrip(hex[0]);
      var bits := FourBits(n) + Unpack(hex[1..]);
      assert bits[..4] == FourBits(n) && bits[4..] == Unpack(hex[1..]);
      assert Unpack(hex) == bits;
    }
  }

  // ---- Hamming distance --------------------------------------------------------------------------

  function DiffBit(x: nat, y: nat, j: nat): (d: nat)
    requires x < 16 && y < 16 && j < 4
    ensures d <= 1
  {
    if Bit(x, j) == Bit(y, j) then 0 else 1
  }

  /** `x ^ y` on four-bit numbers. */
  function Xor(x: nat, y: nat): (z: nat)
    requires x < 16 && y < 16
    ensures z < 16
  {
    8 * DiffBit(x, y, 3) + 4 * DiffBit(x, y, 2) + 2 * DiffBit(x, y, 1) + DiffBit(x, y, 0)
  }

  function NibbleDistance(x: nat, y: nat): nat
    requires x < 16 && y < 16
  {
    DiffBit(x, y, 0) + DiffBit(x, y, 1) + DiffBit(x, y, 2) + DiffBit(x, y, 3)
  }

  function CharDistance(c: char, d: char): nat {
    NibbleDistance(HexValue(c), HexValue(d))
  }

  /** The sum of f over the first n positions of two strings. */
  function Total(f: (char, char) -> nat, a: string, b: string, n: nat): nat
    requires n <= |a| && n <= |b|
  {
    if n == 0 then 0 else Total(f, a, b, n - 1) + f(a[n - 1], b[n - 1])
  }

  function Max(m: nat, n: nat): nat {
    if m >= n then m else n
  }

  function Hamming(a: string, b: string): nat {
    if |a| != |b| then Max(|a|, |b|) * 4 else Total(CharDistance, a, b, |a|)
  }

  /** It is the bitwise operator. */
  lemma XorIsBitwise(x: bv4, y: bv4)
    ensures x as nat < 16 && y as nat < 16 && Xor(x as nat, y as nat) == (x ^ y) as nat
  {
  }

  lemma XorBits(x: nat, y: nat, j: nat)
    requires x < 16 && y < 16 && j < 4
    ensures Bit(Xor(x, y), j) == DiffBit(x, y, j)
  {
    var d0, d1, d2, d3 := DiffBit(x, y, 0), DiffBit(x, y, 1), DiffBit(x, y, 2), DiffBit(x, y, 3);
    assert Xor(x, y) == 8 * d3 + 4 * d2 + 2 * d1 + d0;
  }

  method HammingDistance(a: string, b: string) returns (dist: nat)
    ensures dist == Hamming(a, b)
  {
    if |a| != |b| {
      return Max(|a|, |b|) * 4;
    }
    dist := 0;
    for i := 0 to |a|
      invariant dist == Total(CharDistance, a, b, i)
    {
      var xor := Xor(HexValue(a[i]), HexValue(b[i]));
      XorBits(HexValue(a[i]), HexValue(b[i]), 0);
      XorBits(HexValue(a[i]), HexValue(b[i]), 1);
      XorBits(HexValue(a[i]), HexValue(b[i]), 2);
      XorBits(HexValue(a[i]), HexValue(b[i]), 3);
      dist := dist + Bit(xor, 0) + Bit(xor, 1) + Bit(xor, 2) + Bit(xor, 3);
    }
  }

  /** The number of positions at which two bit strings differ. */
  function Differing(p: string, q: string): nat
    requires |p| == |q|
  {
    if p == [] then 0 else (if p[0] == q[0] then 0 else 1) + Differing(p[1..], q[1..])
  }

  lemma {:induction false} TotalFromFront(f: (char, char) -> nat, a: string, b: string, n: nat)
    requires 0 < n <= |a| && |a| == |b|
    ensures Total(f, a, b, n) == f(a[0], b[0]) + Total(f, a[1..], b[1..], n - 1)
  {
    if n > 1 {
      TotalFromFront(f, a, b, n - 1);
      assert a[1..][n - 2] == a[n - 1] && b[1..][n - 2] == b[n - 1];
    }
  }

  lemma DifferingConcat(p: string, q: string, p': string, q': string)
    requires |p| == |q| && |p'| == |q'|
    ensures Differing(p + p', q + q') == Differing(p, q) + Differing(p', q')
  {
    if p == [] {
      assert p + p' == p' && q + q' == q';
    } else {
      assert (p + p')[1..] == p[1..] + p' && (q + q')[1..] == q[1..] + q';
      DifferingConcat(p[1..], q[1..], p', q');
    }
  }

  lemma DifferingFour(x: nat, y: nat)
    requires x < 16 && y < 16
    ensures Differing(FourBits(x), FourBits(y)) == NibbleDistance(x, y)
  {
    DifferingOfFour(BitChar(x, 3), BitChar(x, 2), BitChar(x, 1), BitChar(x, 0),
                    BitChar(y, 3), BitChar(y, 2), BitChar(y, 1), BitChar(y, 0));
  }

  lemma DifferingOfFour(c3: char, c2: char, c1: char, c0: char, d3: char, d2: char, d1: char, d0: char)
    ensures Differing([c3, c2, c1, c0], [d3, d2, d1, d0])
         == (if c3 == d3 then 0 else 1) + (if c2 == d2 then 0 else 1) + (if c1 == d1 then 0 else 1) +
           (if c0 == d0 then 0 else 1)
  {
    DifferingCons(c0, d0, [], []);
    DifferingCons(c1, d1, [c0], [d0]);
    DifferingCons(c2, d2, [c1, c0], [d1, d0]);
    DifferingCons(c3, d3, [c2, c1, c0], [d2, d1, d0]);
    assert [c3, c2, c1, c0] == [c3] + [c2, c1, c0] && [d3, d2, d1, d0] == [d3] + [d2, d1, d0];
    assert [c2, c1, c0] == [c2] + [c1, c0] && [d2, d1, d0] == [d2] + [d1, d0];
    assert [c1, c0] == [c1] + [c0] && [d1, d0] == [d1] + [d0];
  }

  lemma DifferingCons(c: char, d: char, p: string, q: string)
    requires |p| == |q|
    ensures Differing([c] + p, [d] + q) == (if c == d then 0 else 1) + Differing(p, q)
  {
    assert ([c] + p)[1..] == p && ([d] + q)[1..] == q;
  }

  /** On strings of one length the distance counts the differing bits of what the strings encode. */
  lemma {:induction false} HammingCountsBits(a: string, b: string)
    requires |a| == |b|
    ensures Hamming(a, b) == Differing(Unpack(a), Unpack(b))
  {
    if a != [] {
      HammingCountsBits(a[1..], b[1..]);
      TotalFromFront(CharDistance, a, b, |a|);
      DifferingFour(HexValue(a[0]), HexValue(b[0]));
      DifferingConcat(FourBits(HexValue(a[0])), FourBits(HexValue(b[0])), Unpack(a[1..]), Unpack(b[1..]));
    }
  }

  /** Strings of different lengths are as far apart as can be: four for every digit of the longer one. */
  lemma HammingOfUnequal(a: string, b: string)
    requires |a| != |b|
    ensures Hamming(a, b) == 4 * if |a| > |b| then |a| else |b|
  {
    assert Max(|a|, |b|) * 4 == 4 * Max(|a|, |b|);
  }

  /** The distance of two packed hashes is the number of bits in which they differ. */
  lemma HammingOfPacked(p: string, q: string)
    requires |p| == |q| && |p| % 4 == 0 && IsBits(p) && IsBits(q)
    ensures Hamming(Pack(p), Pack(q)) == Differing(p, q)
  {
    UnpackPack(p);
    UnpackPack(q);
    HammingCountsBits(Pack(p), Pack(q));
  }

  // ---- It is a metric --------------------------------------------------------------------------------

  lemma NibbleMetric(x: nat, y: nat, z: nat)
    requires x < 16 && y < 16 && z < 16
    ensures NibbleDistance(x, y) <= 4 && NibbleDistance(x, x) == 0
    ensures NibbleDistance(x, y) == NibbleDistance(y, x)
    ensures NibbleDistance(x, z) <= NibbleDistance(x, y) + NibbleDistance(y, z)
  {
  }

  /** What carries over from characters to strings. */
  ghost predicate IsPseudoMetric(f: (char, char) -> nat) {
    && (forall c, d :: f(c, d) <= 4 && f(c, d) == f(d, c))
    && (forall c, d, e :: f(c, e) <= f(c, d) + f(d, e))
    && (forall c :: f(c, c) == 0)
  }

  lemma CharDistanceIsPseudoMetric()
    ensures IsPseudoMetric(CharDistance)
  {
    var f: (char, char) -> nat := CharDistance;
    forall c, d, e ensures f(c, d) <= 4 && f(c, d) == f(d, c) && f(c, c) == 0 && f(c, e) <= f(c, d) + f(d, e) {
      NibbleMetric(HexValue(c), HexValue(d), HexValue(e));
    }
  }

  lemma {:induction false} TotalBound(f: (char, char) -> nat, a: string, b: string, n: nat)
    requires IsPseudoMetric(f) && n <= |a| && n <= |b|
    ensures Total(f, a, b, n) <= 4 * n && Total(f, a, b, n) == Total(f, b, a, n)
  {
    if n > 0 { TotalBound(f, a, b, n - 1); }
  }

  lemma {:induction false} TotalTriangle(f: (char, char) -> nat, a: string, b: string, d: string, n: nat)
    requires IsPseudoMetric(f) && n <= |a| && n <= |b| && n <= |d|
    ensures Total(f, a, d, n) <= Total(f, a, b, n) + Total(f, b, d, n)
  {
    if n > 0 {
      TotalTriangle(f, a, b, d, n - 1);
      assert f(a[n - 1], d[n - 1]) <= f(a[n - 1], b[n - 1]) + f(b[n - 1], d[n - 1]);
    }
  }

  lemma {:induction false} TotalZero(f: (char, char) -> nat, a: string, b: string, n: nat, i: nat)
    requires i < n <= |a| && n <= |b| && Total(f, a, b, n) == 0
    ensures f(a[i], b[i]) == 0
  {
    if i < n - 1 { TotalZero(f, a, b, n - 1, i); }
  }

  lemma {:induction false} TotalOfSelf(f: (char, char) -> nat, a: string, n: nat)
    requires IsPseudoMetric(f) && n <= |a|
    ensures Total(f, a, a, n) == 0
  {
    if n > 0 { TotalOfSelf(f, a, n - 1); }
  }

  lemma HammingSymmetric(a: string, b: string)
    ensures Hamming(a, b) == Hamming(b, a)
  {
    CharDistanceIsPseudoMetric();
    if |a| == |b| { TotalBound(CharDistance, a, b, |a|); }
  }

  /** The triangle inequality, across the branch for strings of unequal length as well. */
  lemma HammingTriangle(a: string, b: string, d: string)
    ensures Hamming(a, d) <= Hamming(a, b) + Hamming(b, d)
  {
    CharDistanceIsPseudoMetric();
    if |a| == |d| { TotalBound(CharDistance, a, d, |a|); }
    if |a| == |b| == |d| { TotalTriangle(CharDistance, a, b, d, |a|); }
  }

  lemma HammingOfSelf(a: string)
    ensures Hamming(a, a) == 0
  {
    CharDistanceIsPseudoMetric();
    TotalOfSelf(CharDistance, a, |a|);
  }

  lemma SameNibble(x: nat, y: nat)
    requires x < 16 && y < 16 && NibbleDistance(x, y) == 0
    ensures x == y
  {
    assert x == 8 * Bit(x, 3) + 4 * Bit(x, 2) + 2 * Bit(x, 1) + Bit(x, 0);
    assert y == 8 * Bit(y, 3) + 4 * Bit(y, 2) + 2 * Bit(y, 1) + Bit(y, 0);
  }

  lemma SameDigit(c: char, d: char)
    requires IsLowerDigit(c) && IsLowerDigit(d) && NibbleDistance(HexValue(c), HexValue(d)) == 0
    ensures c == d
  {
    SameNibble(HexValue(c), HexValue(d));
    LowerDigitRoundTrip(c);
    LowerDigitRoundTrip(d);
  }

  /** Distance zero means equal -- on lower-case hex, where digits have one spelling. */
  lemma HammingZero(a: string, b: string)
    requires IsLowerHex(a) && IsLowerHex(b)
    ensures Hamming(a, b) == 0 <==> a == b
  {
    if |a| == |b| {
      if Hamming(a, b) == 0 {
        forall i | 0 <= i < |a| ensures a[i] == b[i] {
          TotalZero(CharDistance, a, b, |a|, i);
          SameDigit(a[i], b[i]);
        }
      }
      if a == b { HammingOfSelf(a); }
    }
  }
}
