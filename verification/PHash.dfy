/**
 * The perceptual hash: a separable 32 x 32 DCT, the 63 lowest non-DC coefficients compared with their
 * median, packed into 16 hex digits.  Exact reals; the cosine table is a parameter T(k, n).
 */
module PHash {
  import opened Arithmetic
  import opened Hex
  import opened Sorting

  const N: nat := 32
  const KEEP: nat := 8
  const COEFFS: nat := 63

  type Table = (nat, nat) -> real

  // ---- What the transform computes ------------------------------------------------------------------

  /** The first `n` terms of one output of the one-dimensional transform. */
  function Dot(T: Table, k: nat, v: seq<real>, n: nat): real
    requires n <= |v|
  {
    if n == 0 then 0.0 else Dot(T, k, v, n - 1) + v[n - 1] * T(k, n - 1)
  }

  function Dct(T: Table, v: seq<real>): (out: seq<real>)
    requires |v| == N
    ensures |out| == N && forall k :: 0 <= k < N ==> out[k] == Dot(T, k, v, N)
  {
    seq(N, k requires 0 <= k < N => Dot(T, k, v, N))
  }

  function RowOf(px: seq<real>, y: nat): (row: seq<real>)
    requires |px| == N * N && y < N
    ensures |row| == N && forall x :: 0 <= x < N ==> row[x] == px[y * N + x]
  {
    px[y * N..y * N + N]
  }

  /** Column `x` of the row-transformed image. */
  function ColumnOf(T: Table, px: seq<real>, x: nat): (col: seq<real>)
    requires |px| == N * N && x < N
    ensures |col| == N && forall y :: 0 <= y < N ==> col[y] == Dot(T, x, RowOf(px, y), N)
  {
    seq(N, y requires 0 <= y < N => Dot(T, x, RowOf(px, y), N))
  }

  /** Row transform first, then column transform. */
  function Coefficient(T: Table, px: seq<real>, y: nat, x: nat): real
    requires |px| == N * N && y < N && x < N
  {
    Dot(T, y, ColumnOf(T, px, x), N)
  }

  /** The reference: the two-dimensional transform as one double sum, here over the rows before v and
      the first u pixels of row v. */
  function DoubleSum(T: Table, px: seq<real>, y: nat, x: nat, v: nat, u: nat): real
    requires |px| == N * N && v < N && u <= N
    decreases v, u
  {
    if u > 0 then DoubleSum(T, px, y, x, v, u - 1) + px[v * N + u - 1] * T(y, v) * T(x, u - 1)
    else if v > 0 then DoubleSum(T, px, y, x, v - 1, N)
    else 0.0
  }

  lemma {:induction false} RowOfDoubleSum(T: Table, px: seq<real>, y: nat, x: nat, v: nat, u: nat)
    requires |px| == N * N && v < N && u <= N
    ensures DoubleSum(T, px, y, x, v, u) == DoubleSum(T, px, y, x, v, 0) + T(y, v) * Dot(T, x, RowOf(px, v), u)
  {
    if u > 0 {
      RowOfDoubleSum(T, px, y, x, v, u - 1);
      var row := RowOf(px, v);
      assert row[u - 1] == px[v * N + u - 1];
      TermOfSum(row[u - 1], T(y, v), T(x, u - 1), Dot(T, x, row, u - 1));
    }
  }

  lemma TermOfSum(p: real, a: real, b: real, d: real)
    ensures a * (d + p * b) == a * d + p * a * b
  {
  }

  lemma {:induction false} RowsOfDoubleSum(T: Table, px: seq<real>, y: nat, x: nat, v: nat)
    requires |px| == N * N && x < N && v < N
    ensures DoubleSum(T, px, y, x, v, N) == Dot(T, y, ColumnOf(T, px, x), v + 1)
  {
    RowOfDoubleSum(T, px, y, x, v, N);
    ColumnStep(T, px, y, x, v);
    if v > 0 {
      RowsOfDoubleSum(T, px, y, x, v - 1);
      assert DoubleSum(T, px, y, x, v, 0) == DoubleSum(T, px, y, x, v - 1, N);
    }
  }

  lemma ColumnStep(T: Table, px: seq<real>, y: nat, x: nat, v: nat)
    requires |px| == N * N && x < N && v < N
    ensures Dot(T, y, ColumnOf(T, px, x), v + 1) ==
            Dot(T, y, ColumnOf(T, px, x), v) + T(y, v) * Dot(T, x, RowOf(px, v), N)
  {
  }

  /** The two passes of one-dimensional transforms are the two-dimensional transform. */
  lemma SeparableTransform(T: Table, px: seq<real>, y: nat, x: nat)
    requires |px| == N * N && y < N && x < N
    ensures Coefficient(T, px, y, x) == DoubleSum(T, px, y, x, N - 1, N)
  {
    RowsOfDoubleSum(T, px, y, x, N - 1);
  }

  /** The 63 coefficients of the 8 x 8 corner, DC left out, row by row. */
  function Coefficients(T: Table, px: seq<real>): (cs: seq<real>)
    requires |px| == N * N
    ensures |cs| == COEFFS && forall j :: 0 <= j < COEFFS ==>
            cs[j] == Coefficient(T, px, (j + 1) / KEEP, (j + 1) % KEEP)
  {
    seq(COEFFS, j requires 0 <= j < COEFFS => Coefficient(T, px, (j + 1) / KEEP, (j + 1) % KEEP))
  }

  // ---- Order statistics --------------------------------------------------------------------------------

  function Itself(x: real): real {
    x
  }

  /** `[...s].sort((a, b) => a - b)` */
  function Sort(s: seq<real>): (r: seq<real>)
    ensures |r| == |s|
  {
    SortBy(Itself, s)
  }

  function Median(s: seq<real>): real
    requires s != []
  {
    Sort(s)[|s| / 2]
  }

  // ---- The hash ------------------------------------------------------------------------------------------

  function BitString(cs: seq<real>): (bits: string)
    requires |cs| == COEFFS
    ensures |bits| == COEFFS + 1 && IsBits(bits)
  {
    seq(COEFFS + 1, j requires 0 <= j < COEFFS + 1 => if j > 0 && cs[j - 1] > Median(cs) then '1' else '0')
  }

  function HashBits(T: Table, px: seq<real>): (bits: string)
    requires |px| == N * N
    ensures |bits| == 64 && IsBits(bits)
  {
    BitString(Coefficients(T, px))
  }

  function Hash(T: Table, px: seq<real>): (hex: string)
    requires |px| == N * N
    ensures |hex| == 16
  {
    Pack(HashBits(T, px))
  }

  // ---- The code ------------------------------------------------------------------------------------------

  method Dct1d(T: Table, input: array<real>) returns (out: array<real>)
    requires input.Length == N
    ensures fresh(out) && out[..] == Dct(T, input[..])
  {
    out := new real[N];
    for k := 0 to N
      invariant forall j :: 0 <= j < k ==> out[j] == Dot(T, j, input[..], N)
    {
      var sum := 0.0;
      for n := 0 to N
        invariant sum == Dot(T, k, input[..], n)
      {
        sum := sum + input[n] * T(k, n);
      }
      out[k] := sum;
    }
  }

  function Pixels(data: seq<int>): (px: seq<real>)
    ensures |px| == |data| && forall i :: 0 <= i < |px| ==> px[i] == data[i] as real
  {
    seq(|data|, i requires 0 <= i < |data| => data[i] as real)
  }

  method TransformRows(T: Table, data: array<int>) returns (rowsDct: seq<seq<real>>)
    requires data.Length == N * N
    ensures |rowsDct| == N
    ensures forall y :: 0 <= y < N ==> rowsDct[y] == Dct(T, RowOf(Pixels(data[..]), y))
  {
    ghost var px := Pixels(data[..]);
    rowsDct := [];
    for y := 0 to N
      invariant |rowsDct| == y
      invariant forall v :: 0 <= v < y ==> rowsDct[v] == Dct(T, RowOf(px, v))
    {
      var row := new real[N];
      for x := 0 to N
        invariant forall u :: 0 <= u < x ==> row[u] == px[y * N + u]
      {
        row[x] := data[y * N + x] as real;
      }
      assert row[..] == RowOf(px, y);
      var t := Dct1d(T, row);
      rowsDct := rowsDct + [t[..]];
    }
  }

  method TransformColumns(T: Table, ghost px: seq<real>, rowsDct: seq<seq<real>>) returns (dct: array2<real>)
    requires |px| == N * N && |rowsDct| == N
    requires forall y :: 0 <= y < N ==> rowsDct[y] == Dct(T, RowOf(px, y))
    ensures fresh(dct) && dct.Length0 == N && dct.Length1 == N
    ensures forall y, x :: 0 <= y < N && 0 <= x < N ==> dct[y, x] == Coefficient(T, px, y, x)
  {
    dct := new real[N, N];
    for x := 0 to N
      invariant forall y, u :: 0 <= y < N && 0 <= u < x ==> dct[y, u] == Coefficient(T, px, y, u)
    {
      var col := new real[N];
      for y := 0 to N
        invariant forall v :: 0 <= v < y ==> col[v] == Dot(T, x, RowOf(px, v), N)
        modifies col
      {
        col[y] := rowsDct[y][x];
      }
      assert col[..] == ColumnOf(T, px, x);
      var t := Dct1d(T, col);
      StoreColumn(dct, x, t);
    }
  }

  /** `for (let y = 0; y < N; y++) dct[y][x] = t[y]` */
  method StoreColumn(dct: array2<real>, x: nat, t: array<real>)
    requires dct.Length0 == N && x < dct.Length1 && t.Length == N
    modifies dct
    ensures forall y :: 0 <= y < N ==> dct[y, x] == t[y]
    ensures forall y, u :: 0 <= y < N && 0 <= u < dct.Length1 && u != x ==> dct[y, u] == old(dct[y, u])
  {
    for y := 0 to N
      invariant forall v :: 0 <= v < y ==> dct[v, x] == t[v]
      invariant forall v, u :: 0 <= v < N && 0 <= u < dct.Length1 && u != x ==> dct[v, u] == old(dct[v, u])
    {
      dct[y, x] := t[y];
    }
  }

  ghost predicate Corner(dct: array2<real>, all: seq<real>)
    reads dct
  {
    && |all| == COEFFS && dct.Length0 == N && dct.Length1 == N
    && forall y, x :: 0 <= y < KEEP && 0 <= x < KEEP && y + x > 0 ==> dct[y, x] == all[y * KEEP + x - 1]
  }

  method CollectCoefficients(dct: array2<real>, ghost all: seq<real>) returns (coeffs: seq<real>)
    requires Corner(dct, all)
    ensures coeffs == all
  {
    coeffs := [];
    for y := 0 to KEEP
      invariant coeffs == all[..if y == 0 then 0 else y * KEEP - 1]
    {
      for x := 0 to KEEP
        invariant coeffs == all[..if y == 0 && x == 0 then 0 else y * KEEP + x - 1]
      {
        if y == 0 && x == 0 { continue; }
        coeffs := coeffs + [dct[y, x]];
      }
    }
  }

  method BuildBits(dct: array2<real>, ghost all: seq<real>, median: real) returns (bits: string)
    requires Corner(dct, all) && median == Median(all)
    ensures bits == BitString(all)
  {
    bits := "";
    ghost var want := BitString(all);
    for y := 0 to KEEP
      invariant bits == want[..y * KEEP]
    {
      for x := 0 to KEEP
        invariant bits == want[..y * KEEP + x]
      {
        if y == 0 && x == 0 {
          bits := bits + "0";
          continue;
        }
        bits := bits + if dct[y, x] > median then "1" else "0";
      }
    }
  }

  /** The whole of computePerceptualHash after decoding: the hash of the pixels, each of its bits telling whether
      the coefficient at its place is larger than the median. */
  method ComputePerceptualHash(T: Table, data: array<int>) returns (hex: string)
    requires data.Length == N * N
    ensures hex == Hash(T, Pixels(data[..]))
    ensures |hex| == 16 && Unpack(hex)[0] == '0'
    ensures forall y, x :: 0 <= y < 8 && 0 <= x < 8 && y + x > 0 ==>
              (Unpack(hex)[8 * y + x] == '1' <==>
                 Smaller(T, Pixels(data[..]), Dct2(T, Pixels(data[..]), y, x), 64) >= 32)
  {
    ghost var px := Pixels(data[..]);
    var rowsDct := TransformRows(T, data);
    var dct := TransformColumns(T, px, rowsDct);
    ghost var all := Coefficients(T, px);
    forall y, x | 0 <= y < KEEP && 0 <= x < KEEP && y + x > 0 ensures dct[y, x] == all[y * KEEP + x - 1] {
      CornerIndex(y, x);
    }
    var coeffs := CollectCoefficients(dct, all);
    var sorted := Sort(coeffs);
    var median := sorted[|sorted| / 2];
    var bits := BuildBits(dct, all, median);
    hex := PackHex(bits);
    BitsAreRanks(T, px, 0, 0);
    forall y, x | 0 <= y < 8 && 0 <= x < 8 && y + x > 0
      ensures Unpack(hex)[8 * y + x] == '1' <==> Smaller(T, px, Dct2(T, px, y, x), 64) >= 32
    {
      BitsAreRanks(T, px, y, x);
    }
  }

  lemma CornerIndex(y: nat, x: nat)
    requires x < KEEP
    ensures (y * KEEP + x) / KEEP == y && (y * KEEP + x) % KEEP == x
  {
  }

  // ---- Brightness and contrast -----------------------------------------------------------------------------

  function RowSum(T: Table, k: nat, n: nat): real {
    if n == 0 then 0.0 else RowSum(T, k, n - 1) + T(k, n - 1)
  }

  /** `a * v + b`, elementwise. */
  function Affine(a: real, v: seq<real>, b: real): (r: seq<real>)
    ensures |r| == |v| && forall i :: 0 <= i < |v| ==> r[i] == a * v[i] + b
  {
    seq(|v|, i requires 0 <= i < |v| => a * v[i] + b)
  }

  lemma {:induction false} DotOfAffine(T: Table, k: nat, v: seq<real>, v': seq<real>, a: real, b: real, n: nat)
    requires n <= |v| && |v'| == |v|
    requires forall i :: 0 <= i < |v| ==> v'[i] == a * v[i] + b
    ensures Dot(T, k, v', n) == a * Dot(T, k, v, n) + b * RowSum(T, k, n)
  {
    if n > 0 {
      DotOfAffine(T, k, v, v', a, b, n - 1);
      AffineTerm(a, b, v[n - 1], T(k, n - 1), Dot(T, k, v, n - 1), RowSum(T, k, n - 1));
    }
  }

  lemma AffineTerm(a: real, b: real, p: real, t: real, d: real, r: real)
    ensures a * d + b * r + (a * p + b) * t == a * (d + p * t) + b * (r + t)
  {
    assert (a * p + b) * t == a * (p * t) + b * t;
    assert a * (d + p * t) == a * d + a * (p * t);
  }

  /** Rows k >= 1 of the cosine table sum to zero (true of cos((2n+1) k pi / 64)). */
  predicate ZeroRowSums(T: Table) {
    forall k :: 1 <= k < N ==> RowSum(T, k, N) == 0.0
  }

  lemma CoefficientOfAffine(T: Table, px: seq<real>, a: real, b: real, y: nat, x: nat)
    requires |px| == N * N && y < N && x < N && (y > 0 || x > 0) && ZeroRowSums(T)
    ensures Coefficient(T, Affine(a, px, b), y, x) == a * Coefficient(T, px, y, x)
  {
    var px' := Affine(a, px, b);
    var shift := b * RowSum(T, x, N);
    var col, col' := ColumnOf(T, px, x), ColumnOf(T, px', x);
    forall v | 0 <= v < N ensures col'[v] == a * col[v] + shift {
      DotOfAffine(T, x, RowOf(px, v), RowOf(px', v), a, b, N);
    }
    DotOfAffine(T, y, col, col', a, shift, N);
    ShiftVanishes(b, RowSum(T, x, N), RowSum(T, y, N));
  }

  lemma ShiftVanishes(b: real, p: real, q: real)
    requires p == 0.0 || q == 0.0
    ensures b * p * q == 0.0
  {
  }

  lemma Commutes(a: real, p: real)
    ensures a * p == p * a
  {
  }

  lemma Monotone(a: real, p: real, q: real)
    requires a > 0.0
    ensures a * p <= a * q <==> p <= q
  {
    Commutes(a, p);
    Commutes(a, q);
    if p < q { ProductMonotone(p, q, a); } else if q < p { ProductMonotone(q, p, a); }
  }

  ghost predicate OrderPreserving(g: real -> real) {
    forall p, q :: g(p) <= g(q) <==> p <= q
  }

  ghost predicate Image(g: real -> real, s: seq<real>, s': seq<real>) {
    |s'| == |s| && forall i :: 0 <= i < |s| ==> s'[i] == g(s[i])
  }

  /** An order-preserving map commutes with sorting. */
  lemma {:induction false} InsertOfImage(g: real -> real, x: real, s: seq<real>, s': seq<real>)
    requires OrderPreserving(g) && Image(g, s, s')
    ensures Image(g, Insert(Itself, x, s), Insert(Itself, g(x), s'))
  {
    if s != [] && !(x <= s[0]) {
      InsertOfImage(g, x, s[1..], s'[1..]);
    }
  }

  lemma {:induction false} SortOfImage(g: real -> real, s: seq<real>, s': seq<real>)
    requires OrderPreserving(g) && Image(g, s, s')
    ensures Image(g, Sort(s), Sort(s'))
  {
    if s != [] {
      SortOfImage(g, s[1..], s'[1..]);
      InsertOfImage(g, s[0], Sort(s[1..]), Sort(s'[1..]));
    }
  }

  /** So the comparison with the median is the same for every order-preserving image. */
  lemma BitsOfImage(g: real -> real, cs: seq<real>, cs': seq<real>)
    requires OrderPreserving(g) && Image(g, cs, cs') && |cs| == COEFFS
    ensures BitString(cs') == BitString(cs)
  {
    SortOfImage(g, cs, cs');
    assert Median(cs') == g(Median(cs));
  }

  /** Brightness (any b) and contrast (any a > 0) leave the hash unchanged. */
  lemma HashIgnoresBrightnessAndContrast(T: Table, px: seq<real>, a: real, b: real)
    requires |px| == N * N && a > 0.0 && ZeroRowSums(T)
    ensures Hash(T, Affine(a, px, b)) == Hash(T, px)
  {
    var cs, cs' := Coefficients(T, px), Coefficients(T, Affine(a, px, b));
    forall j | 0 <= j < COEFFS ensures cs'[j] == a * cs[j] {
      CoefficientOfAffine(T, px, a, b, (j + 1) / KEEP, (j + 1) % KEEP);
    }
    var g := (r: real) => a * r;
    forall p, q ensures g(p) <= g(q) <==> p <= q {
      Monotone(a, p, q);
    }
    BitsOfImage(g, cs, cs');
  }

  // ---- Weight -------------------------------------------------------------------------------------------------

  function Above(m: real): real -> bool {
    (v: real) => v > m
  }

  function Below(m: real): real -> bool {
    (v: real) => v < m
  }

  lemma UpToTheMedian(cs: seq<real>, i: nat)
    requires |cs| == COEFFS && i < 32
    ensures Sort(cs)[i] <= Median(cs)
  {
    SortSorts(Itself, cs);
    assert Itself(Sort(cs)[i]) <= Itself(Sort(cs)[31]);
  }

  lemma BeyondTheMedian(cs: seq<real>, i: nat)
    requires |cs| == COEFFS && 32 <= i < COEFFS && Untied(Itself, cs)
    ensures Sort(cs)[i] > Median(cs)
  {
    SortSorts(Itself, cs);
    SortUntied(Itself, cs);
    assert Itself(Sort(cs)[31]) <= Itself(Sort(cs)[i]) && Itself(Sort(cs)[31]) != Itself(Sort(cs)[i]);
  }

  /** At most half of the coefficients lie above the median; exactly half where no two are equal. */
  lemma AboveMedian(cs: seq<real>)
    requires |cs| == COEFFS
    ensures Count(cs, Above(Median(cs))) <= 31
    ensures Untied(Itself, cs) ==> Count(cs, Above(Median(cs))) == 31
  {
    var m, low, high := Median(cs), Sort(cs)[..32], Sort(cs)[32..];
    CountOfSort(Itself, cs, Above(m));
    assert Sort(cs) == low + high;
    CountOfConcat(low, high, Above(m));
    forall i | 0 <= i < |low| ensures low[i] <= m { UpToTheMedian(cs, i); }
    CountNone(low, Above(m));
    if Untied(Itself, cs) {
      forall i | 0 <= i < |high| ensures high[i] > m { BeyondTheMedian(cs, i + 32); }
    }
    CountAll(high, Above(m));
  }

  function Ones(bits: string): nat {
    if bits == [] then 0 else BitValue(bits[0]) + Ones(bits[1..])
  }

  lemma {:induction false} OnesAreAbove(bits: string, cs: seq<real>, m: real)
    requires |bits| == |cs| && forall i :: 0 <= i < |cs| ==> bits[i] == if cs[i] > m then '1' else '0'
    ensures Ones(bits) == Count(cs, Above(m))
  {
    if cs != [] { OnesAreAbove(bits[1..], cs[1..], m); }
  }

  /** Every hash starts with a zero bit and has at most 31 one bits -- exactly 31 unless two of the
      coefficients are equal. */
  lemma HashWeight(T: Table, px: seq<real>)
    requires |px| == N * N
    ensures var bits := HashBits(T, px);
            && bits[0] == '0' && Ones(bits) <= 31
            && (Untied(Itself, Coefficients(T, px)) ==> Ones(bits) == 31)
  {
    var cs, bits := Coefficients(T, px), HashBits(T, px);
    OnesAreAbove(bits[1..], cs, Median(cs));
    AboveMedian(cs);
  }

  // ---- Each bit by itself ----------------------------------------------------------------------------------

  /** A value lies above the median if and only if at least 32 of the 63 are smaller than it. */
  lemma {:induction false} AboveMedianByRank(cs: seq<real>, v: real)
    requires |cs| == COEFFS
    ensures v > Median(cs) <==> Count(cs, Below(v)) >= 32
  {
    var sorted := Sort(cs);
    CountOfSort(Itself, cs, Below(v));
    SortSorts(Itself, cs);
    if v > Median(cs) {
      forall i | 0 <= i < 32 ensures Below(v)(sorted[i]) { UpToTheMedian(cs, i); }
      CountOfSplit(sorted, 32, Below(v));
    } else {
      forall i | 31 <= i < COEFFS ensures !Below(v)(sorted[i]) {
        assert Itself(sorted[31]) <= Itself(sorted[i]);
      }
      CountOfSplit(sorted, 31, Below(v));
    }
  }

  /** The coefficient at row y and column x of the two-dimensional transform. */
  function Dct2(T: Table, px: seq<real>, y: nat, x: nat): real
    requires |px| == N * N
  {
    DoubleSum(T, px, y, x, N - 1, N)
  }

  lemma {:induction false} CoefficientAt(T: Table, px: seq<real>, p: nat)
    requires |px| == N * N && 1 <= p < 64
    ensures Coefficients(T, px)[p - 1] == Dct2(T, px, p / 8, p % 8)
  {
    SeparableTransform(T, px, p / 8, p % 8);
  }

  /** How many of the places 1 .. n - 1 of the 8 x 8 corner, row by row and without the DC place 0, hold a
      coefficient of the two-dimensional transform smaller than v. */
  function Smaller(T: Table, px: seq<real>, v: real, n: nat): nat
    requires |px| == N * N && n <= 64
  {
    if n <= 1 then 0
    else Smaller(T, px, v, n - 1) + if Dct2(T, px, (n - 1) / 8, (n - 1) % 8) < v then 1 else 0
  }

  lemma {:induction false} SmallerIsCount(T: Table, px: seq<real>, v: real, n: nat)
    requires |px| == N * N && 1 <= n <= 64
    ensures Smaller(T, px, v, n) == Count(Coefficients(T, px)[..n - 1], Below(v))
  {
    if n > 1 {
      var cs := Coefficients(T, px);
      SmallerIsCount(T, px, v, n - 1);
      CoefficientAt(T, px, n - 1);
      assert cs[..n - 1] == cs[..n - 2] + [cs[n - 2]];
      CountOfConcat(cs[..n - 2], [cs[n - 2]], Below(v));
    }
  }

  /** The hash, bit by bit as it is read back from the hex digits: bit 0 is zero, and any other bit of the
      8 x 8 corner, row by row, is one if and only if at least 32 of the 63 coefficients beside DC are
      smaller than the one at its place. */
  lemma {:induction false} BitsAreRanks(T: Table, px: seq<real>, y: nat, x: nat)
    requires |px| == N * N && y < 8 && x < 8
    ensures var bits := Unpack(Hash(T, px));
            && |Hash(T, px)| == 16 && |bits| == 64 && bits[0] == '0'
            && (y + x > 0 ==>
                  (bits[8 * y + x] == '1' <==> Smaller(T, px, Dct2(T, px, y, x), 64) >= 32))
            && bits[8 * y + x] in {'0', '1'}
  {
    var cs := Coefficients(T, px);
    UnpackPack(HashBits(T, px));
    if y + x > 0 {
      var j := 8 * y + x - 1;
      CornerIndex(y, x);
      CoefficientAt(T, px, j + 1);
      AboveMedianByRank(cs, cs[j]);
      SmallerIsCount(T, px, cs[j], 64);
      assert cs[..63] == cs;
    }
  }

  lemma {:induction false} DifferingAtMostOnes(p: string, q: string)
    requires |p| == |q| && IsBits(p) && IsBits(q)
    ensures Differing(p, q) <= Ones(p) + Ones(q)
  {
    if p != [] { DifferingAtMostOnes(p[1..], q[1..]); }
  }

  /** Two produced hashes are never more than 62 apart. */
  lemma HashesAreAtMost62Apart(T: Table, px: seq<real>, px': seq<real>)
    requires |px| == N * N && |px'| == N * N
    ensures Hamming(Hash(T, px), Hash(T, px')) <= 62
  {
    var p, q := HashBits(T, px), HashBits(T, px');
    HashWeight(T, px);
    HashWeight(T, px');
    DifferingAtMostOnes(p, q);
    HammingOfPacked(p, q);
  }
}
