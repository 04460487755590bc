/**
 * The blur check: variance of the Laplacian over the interior pixels of a greyscale image, computed
 * in one pass over a flat array.  The accumulators are integers; every value stays below 2^53, where
 * the doubles of the program are exact.
 */
module Blur {
  import opened Arithmetic
  import opened Wrappers

  predicate IsGrey(data: seq<int>) {
    forall i :: 0 <= i < |data| ==> 0 <= data[i] <= 255
  }

  /** Row-major position of pixel (x, y), with its range. */
  lemma Indexing(w: nat, h: nat, x: nat, y: nat)
    requires 1 <= x < w - 1 && 1 <= y < h - 1
    ensures var i := y * w + x; w <= i && i + w < w * h && 1 <= i
  {
    NeighbourRows(w, y);
    TimesMonotone(1, y, w);
    TimesMonotone(y + 2, h, w);
    assert (y + 2) * w == y * w + w + w by { NeighbourRows(w, y + 1); }
  }

  lemma NeighbourRows(w: nat, y: int)
    ensures (y - 1) * w == y * w - w && (y + 1) * w == y * w + w
  {
  }

  lemma TimesMonotone(p: nat, q: nat, n: nat)
    requires p <= q
    ensures p * n <= q * n
  {
    assert q * n == p * n + (q - p) * n;
  }

  function Laplacian(data: seq<int>, w: nat, h: nat, x: nat, y: nat): int
    requires |data| == w * h && 1 <= x < w - 1 && 1 <= y < h - 1
  {
    Indexing(w, h, x, y);
    var i := y * w + x;
    data[i - w] + data[i + w] + data[i - 1] + data[i + 1] - 4 * data[i]
  }

  lemma Stencil(data: seq<int>, w: nat, h: nat, x: nat, y: nat, i: nat)
    requires |data| == w * h && 1 <= x < w - 1 && 1 <= y < h - 1 && i == y * w + x
    ensures w <= i && i + w < |data| && 1 <= i
    ensures Laplacian(data, w, h, x, y) == data[i - w] + data[i + w] + data[i - 1] + data[i + 1] - 4 * data[i]
  {
    Indexing(w, h, x, y);
  }

  /** The Laplacians of row `y` at columns 1 .. upTo - 1. */
  function RowLaplacians(data: seq<int>, w: nat, h: nat, y: nat, upTo: nat): (ls: seq<int>)
    requires |data| == w * h && 1 <= y < h - 1 && 1 <= upTo < w
    ensures |ls| == upTo - 1 && forall x :: 1 <= x < upTo ==> ls[x - 1] == Laplacian(data, w, h, x, y)
  {
    seq(upTo - 1, k requires 0 <= k < upTo - 1 => Laplacian(data, w, h, k + 1, y))
  }

  /** The Laplacians of rows 1 .. upTo - 1, row by row. */
  function Laplacians(data: seq<int>, w: nat, h: nat, upTo: nat): (ls: seq<int>)
    requires |data| == w * h && w >= 2 && 1 <= upTo < h
    ensures |ls| == (upTo - 1) * (w - 2)
  {
    if upTo == 1 then []
    else Laplacians(data, w, h, upTo - 1) + RowLaplacians(data, w, h, upTo - 1, w - 1)
  }

  /** All interior Laplacians; none when a side is shorter than three pixels. */
  function Interior(data: seq<int>, w: nat, h: nat): (ls: seq<int>)
    requires |data| == w * h
    ensures |ls| == if w >= 2 && h >= 2 then (h - 2) * (w - 2) else 0
  {
    if w >= 2 && h >= 2 then Laplacians(data, w, h, h - 1) else []
  }

  function Sum(s: seq<int>): int {
    if s == [] then 0 else Sum(s[..|s| - 1]) + s[|s| - 1]
  }

  function SumSq(s: seq<int>): int {
    if s == [] then 0 else SumSq(s[..|s| - 1]) + s[|s| - 1] * s[|s| - 1]
  }

  lemma SumsOfSnoc(s: seq<int>, l: int)
    ensures Sum(s + [l]) == Sum(s) + l && SumSq(s + [l]) == SumSq(s) + l * l
  {
    assert (s + [l])[..|s|] == s;
  }

  // ---- The loop ------------------------------------------------------------------------------------

  const TWO_TO_THE_53: int := 9007199254740992

  /** An integer a double holds exactly. */
  type Exact = x: int | -TWO_TO_THE_53 < x < TWO_TO_THE_53

  /** The Laplacians seen when the loops stand at row y, column x. */
  function Seen(data: seq<int>, w: nat, h: nat, y: nat, x: nat): (ls: seq<int>)
    requires |data| == w * h && 1 <= y < h - 1 && w >= 3 && 1 <= x < w
  {
    Laplacians(data, w, h, y) + RowLaplacians(data, w, h, y, x)
  }

  lemma SeenStep(data: seq<int>, w: nat, h: nat, y: nat, x: nat)
    requires |data| == w * h && 1 <= y < h - 1 && w >= 3 && 1 <= x < w - 1
    ensures Seen(data, w, h, y, x + 1) == Seen(data, w, h, y, x) + [Laplacian(data, w, h, x, y)]
  {
    var row, row' := RowLaplacians(data, w, h, y, x), RowLaplacians(data, w, h, y, x + 1);
    assert row' == row + [Laplacian(data, w, h, x, y)];
  }

  lemma SeenRow(data: seq<int>, w: nat, h: nat, y: nat)
    requires |data| == w * h && 1 <= y < h - 1 && w >= 3
    ensures Seen(data, w, h, y, 1) == Laplacians(data, w, h, y)
    ensures Seen(data, w, h, y, w - 1) == Laplacians(data, w, h, y + 1)
  {
    assert RowLaplacians(data, w, h, y, 1) == [];
  }

  /** Wherever the loops stand, the sums so far are exact. */
  lemma SeenIsExact(data: seq<int>, w: nat, h: nat, y: nat, x: nat)
    requires |data| == w * h && IsGrey(data) && 1 <= y < h - 1 && 3 <= w <= 256 && h <= 256 && 1 <= x < w
    ensures var ls := Seen(data, w, h, y, x);
            && -TWO_TO_THE_53 < Sum(ls) < TWO_TO_THE_53 && 0 <= SumSq(ls) < TWO_TO_THE_53 && |ls| < TWO_TO_THE_53
  {
    var ls := Seen(data, w, h, y, x);
    RowsWithin(data, w, h, y);
    RowWithin(data, w, h, y, x);
    SumsWithin(ls, 1020);
    Multiplies(y - 1, 256, w - 2, 256);
    assert |ls| <= 256 * 256 + 256;
    assert |ls| * 1020 <= 65792 * 1020 && |ls| * (1020 * 1020) <= 65792 * (1020 * 1020);
  }

  lemma NoColumns(data: seq<int>, w: nat, h: nat)
    requires |data| == w * h && w < 3 && h >= 2
    ensures Interior(data, w, h) == []
  {
    if w == 2 { assert (h - 2) * 0 == 0; }
  }

  ghost predicate Accumulated(ls: seq<int>, sum: int, sumSq: int, count: int) {
    sum == Sum(ls) && sumSq == SumSq(ls) && count == |ls|
  }

  predicate IsExact(v: int) {
    -TWO_TO_THE_53 < v < TWO_TO_THE_53
  }

  lemma LoopStep(data: seq<int>, w: nat, h: nat, y: nat, x: nat, sum: int, sumSq: int, count: int, lap: int)
    requires |data| == w * h && IsGrey(data) && 1 <= y < h - 1 && 3 <= w <= 256 && h <= 256 && 1 <= x < w - 1
    requires Accumulated(Seen(data, w, h, y, x), sum, sumSq, count) && lap == Laplacian(data, w, h, x, y)
    ensures Accumulated(Seen(data, w, h, y, x + 1), sum + lap, sumSq + lap * lap, count + 1)
    ensures IsExact(sum + lap) && IsExact(sumSq + lap * lap) && IsExact(count + 1)
  {
    SeenStep(data, w, h, y, x);
    SumsOfSnoc(Seen(data, w, h, y, x), lap);
    SeenIsExact(data, w, h, y, x + 1);
  }

  /** The accumulators when the outer loop stands at row y. */
  ghost predicate BeforeRow(px: seq<int>, w: nat, h: nat, y: int, sum: int, sumSq: int, count: int)
    requires |px| == w * h
  {
    && 1 <= y && (h >= 2 ==> y <= h - 1)
    && if w >= 3 && h >= 2 then Accumulated(Laplacians(px, w, h, y), sum, sumSq, count) else sum == sumSq == count == 0
  }

  /** The same when the inner loop stands at column x. */
  ghost predicate BeforePixel(px: seq<int>, w: nat, h: nat, y: int, x: int, sum: int, sumSq: int, count: int)
    requires |px| == w * h && 1 <= y < h - 1
  {
    && 1 <= x && (w >= 2 ==> x <= w - 1)
    && if w >= 3 then Accumulated(Seen(px, w, h, y, x), sum, sumSq, count) else sum == sumSq == count == 0
  }

  lemma RowBegins(px: seq<int>, w: nat, h: nat, y: int, sum: int, sumSq: int, count: int)
    requires |px| == w * h && y < h - 1 && BeforeRow(px, w, h, y, sum, sumSq, count)
    ensures BeforePixel(px, w, h, y, 1, sum, sumSq, count)
  {
    if w >= 3 { SeenRow(px, w, h, y); }
  }

  lemma RowEnds(px: seq<int>, w: nat, h: nat, y: int, x: int, sum: int, sumSq: int, count: int)
    requires |px| == w * h && 1 <= y < h - 1 && w - 1 <= x && BeforePixel(px, w, h, y, x, sum, sumSq, count)
    ensures BeforeRow(px, w, h, y + 1, sum, sumSq, count)
  {
    if w >= 3 { SeenRow(px, w, h, y); }
  }

  lemma RowsEnd(px: seq<int>, w: nat, h: nat, y: int, sum: int, sumSq: int, count: int)
    requires |px| == w * h && h - 1 <= y && BeforeRow(px, w, h, y, sum, sumSq, count)
    ensures Figure(sum, sumSq, count) == OnePass(Interior(px, w, h))
  {
    AllRows(px, w, h);
  }

  /** One pixel's stencil, read from the flat array. */
  method LaplacianAt(data: array<int>, w: nat, h: nat, x: nat, y: nat) returns (lap: int)
    requires data.Length == w * h && 1 <= x < w - 1 && 1 <= y < h - 1
    ensures lap == Laplacian(data[..], w, h, x, y)
  {
    var i := y * w + x;
    Stencil(data[..], w, h, x, y, i);
    lap := data[i - w] + data[i + w] + data[i - 1] + data[i + 1] - 4 * data[i];
  }

  /** The two nested loops and the figure they end with.  The accumulators are of type Exact: on the
      resized image (sides of at most 256, 8-bit pixels) no sum along the way leaves the integers a
      double can hold.  None is the NaN of an image without interior pixels. */
  method Variance(data: array<int>, w: nat, h: nat) returns (variance: Option<real>)
    requires data.Length == w * h && IsGrey(data[..]) && w <= 256 && h <= 256
    ensures variance == OnePass(Interior(data[..], w, h))
  {
    var sum: Exact, sumSq: Exact, count: Exact := 0, 0, 0;
    ghost var px := data[..];
    var y := 1;
    while y < h - 1
      invariant BeforeRow(px, w, h, y, sum, sumSq, count)
    {
      RowBegins(px, w, h, y, sum, sumSq, count);
      var x := 1;
      while x < w - 1
        invariant BeforePixel(px, w, h, y, x, sum, sumSq, count)
      {
        var lap := LaplacianAt(data, w, h, x, y);
        LoopStep(px, w, h, y, x, sum, sumSq, count, lap);
        sum := sum + lap;
        sumSq := sumSq + lap * lap;
        count := count + 1;
        x := x + 1;
      }
      RowEnds(px, w, h, y, x, sum, sumSq, count);
      y := y + 1;
    }
    RowsEnd(px, w, h, y, sum, sumSq, count);
    variance := Figure(sum, sumSq, count);
  }

  lemma AllRows(data: seq<int>, w: nat, h: nat)
    requires |data| == w * h
    ensures w >= 3 && h >= 2 ==> Interior(data, w, h) == Laplacians(data, w, h, h - 1)
    ensures w < 3 || h < 2 ==> Interior(data, w, h) == []
  {
    if w < 3 && h >= 2 { NoColumns(data, w, h); }
  }

  lemma {:induction false} LaplaciansAt(data: seq<int>, w: nat, h: nat, upTo: nat, x: nat, y: nat)
    requires |data| == w * h && 1 <= x < w - 1 && 1 <= y < upTo < h
    ensures var k := (y - 1) * (w - 2) + (x - 1);
            0 <= k < |Laplacians(data, w, h, upTo)| && Laplacians(data, w, h, upTo)[k] == Laplacian(data, w, h, x, y)
  {
    var before, row := Laplacians(data, w, h, upTo - 1), RowLaplacians(data, w, h, upTo - 1, w - 1);
    if y < upTo - 1 {
      LaplaciansAt(data, w, h, upTo - 1, x, y);
      assert (before + row)[(y - 1) * (w - 2) + (x - 1)] == before[(y - 1) * (w - 2) + (x - 1)];
    } else {
      assert |before| == (y - 1) * (w - 2);
      assert (before + row)[|before| + (x - 1)] == row[x - 1];
    }
  }

  /** Every interior pixel is looked at once, row by row: the entry at its place is four neighbours less four
      times itself, and there are no other entries. */
  lemma {:induction false} InteriorAt(data: seq<int>, w: nat, h: nat, x: nat, y: nat)
    requires |data| == w * h && 1 <= x < w - 1 && 1 <= y < h - 1
    ensures |Interior(data, w, h)| == (h - 2) * (w - 2)
    ensures var k, i := (y - 1) * (w - 2) + (x - 1), y * w + x;
            && w <= i && i + w < |data| && 0 <= k < |Interior(data, w, h)|
            && Interior(data, w, h)[k] == data[i - w] + data[i + w] + data[i - 1] + data[i + 1] - 4 * data[i]
  {
    LaplaciansAt(data, w, h, h - 1, x, y);
    Stencil(data, w, h, x, y, y * w + x);
  }

  function OnePass(ls: seq<int>): Option<real> {
    Figure(Sum(ls), SumSq(ls), |ls|)
  }

  /** What the check computes from its three accumulators; None is the NaN of 0 / 0. */
  function Figure(sum: int, sumSq: int, count: int): Option<real> {
    if count == 0 then None
    else
      Some(MeanSquareLess(sumSq as real / count as real, sum as real / count as real))
  }

  function MeanSquareLess(meanSq: real, mean: real): real {
    meanSq - mean * mean
  }

  /** `variance < threshold` is false for NaN: an image without interior pixels is never blurry. */
  predicate TooBlurry(variance: Option<real>, threshold: real) {
    variance.Some? && variance.value < threshold
  }

  // ---- It is the variance ----------------------------------------------------------------------------

  /** The reference: mean first, then the mean of the squared deviations. */
  function Deviations(ls: seq<int>, mean: real): real {
    if ls == [] then 0.0
    else
      var d := ls[|ls| - 1] as real - mean;
      Deviations(ls[..|ls| - 1], mean) + Squared(d)
  }

  function Squared(d: real): real {
    d * d
  }

  function Mean(ls: seq<int>): real
    requires ls != []
  {
    Sum(ls) as real / |ls| as real
  }

  function TwoPass(ls: seq<int>): real
    requires ls != []
  {
    Deviations(ls, Mean(ls)) / |ls| as real
  }

  /** The three accumulators as reals. */
  lemma {:induction false} DeviationsExpand(ls: seq<int>, m: real) returns (q: real, s: real, n: real)
    ensures q == SumSq(ls) as real && s == Sum(ls) as real && n == |ls| as real
    ensures Deviations(ls, m) == q - 2.0 * m * s + n * m * m
  {
    q, s, n := SumSq(ls) as real, Sum(ls) as real, |ls| as real;
    if ls != [] {
      var rest, l := ls[..|ls| - 1], ls[|ls| - 1] as real;
      var q0, s0, n0 := DeviationsExpand(rest, m);
      SquareOfInt(ls[|ls| - 1]);
      ExpandStep(q0, s0, n0, l, m, Deviations(rest, m), q, s, n);
    }
  }

  lemma SquareOfInt(l: int)
    ensures (l * l) as real == Squared(l as real)
  {
  }

  lemma ExpandStep(q0: real, s0: real, n0: real, l: real, m: real, d: real, q: real, s: real, n: real)
    requires d == q0 - 2.0 * m * s0 + n0 * m * m
    requires q == q0 + Squared(l) && s == s0 + l && n == n0 + 1.0
    ensures d + Squared(l - m) == q - 2.0 * m * s + n * m * m
  {
    SquareOfDifference(l, m);
    Distribute(m, s0, l, n0);
  }

  lemma SquareOfDifference(l: real, m: real)
    ensures Squared(l - m) == l * l - 2.0 * m * l + m * m
  {
  }

  lemma Distribute(m: real, s: real, l: real, n: real)
    ensures 2.0 * m * (s + l) == 2.0 * m * s + 2.0 * m * l
    ensures (n + 1.0) * m * m == n * m * m + m * m
  {
  }

  /** One pass and two passes give the same figure. */
  lemma {:induction false} OnePassIsTwoPass(ls: seq<int>)
    requires ls != []
    ensures OnePass(ls) == Some(TwoPass(ls))
  {
    PassesAgree(ls, Mean(ls));
  }

  lemma {:induction false} PassesAgree(ls: seq<int>, m: real)
    requires ls != [] && m == Mean(ls)
    ensures Deviations(ls, m) / |ls| as real == MeanSquareLess(SumSq(ls) as real / |ls| as real, m)
  {
    var q, s, n := DeviationsExpand(ls, m);
    SameFigure(q, s, n, m, Deviations(ls, m));
  }

  lemma SameFigure(q: real, s: real, n: real, m: real, d: real)
    requires n > 0.0 && m == s / n && d == q - 2.0 * m * s + n * m * m
    ensures d / n == MeanSquareLess(q / n, m)
  {
    MeanTimesCount(s, n);
    Collect(q, s, n, m);
    DivideDifference(q, m * m, n);
  }

  lemma MeanTimesCount(s: real, n: real)
    requires n > 0.0
    ensures n * (s / n) == s
  {
  }

  lemma Collect(q: real, s: real, n: real, m: real)
    requires n * m == s
    ensures q - 2.0 * m * s + n * m * m == q - n * (m * m)
  {
    assert n * m * m == m * s;
    assert 2.0 * m * s == m * s + m * s;
    assert m * s == n * (m * m);
  }

  lemma DivideDifference(q: real, p: real, n: real)
    requires n > 0.0
    ensures (q - n * p) / n == q / n - p
  {
  }

  lemma {:induction false} DeviationsNonNegative(ls: seq<int>, m: real)
    ensures Deviations(ls, m) >= 0.0
    ensures Deviations(ls, m) == 0.0 <==> forall k :: 0 <= k < |ls| ==> ls[k] as real == m
  {
    if ls != [] {
      var rest, d := ls[..|ls| - 1], ls[|ls| - 1] as real - m;
      DeviationsNonNegative(rest, m);
      Square(d);
      if Deviations(ls, m) == 0.0 {
        assert d == 0.0 && Deviations(rest, m) == 0.0;
        forall k | 0 <= k < |ls| ensures ls[k] as real == m {
          if k < |rest| { assert rest[k] == ls[k]; }
        }
      }
      if forall k :: 0 <= k < |ls| ==> ls[k] as real == m {
        forall k | 0 <= k < |rest| ensures rest[k] as real == m {
          assert rest[k] == ls[k];
        }
      }
    }
  }

  lemma Square(d: real)
    ensures Squared(d) >= 0.0 && (Squared(d) == 0.0 <==> d == 0.0)
  {
    if d > 0.0 {
      PositiveSquare(d);
    } else if d < 0.0 {
      PositiveSquare(-d);
      SquareOfNegation(d);
    }
  }

  lemma PositiveSquare(d: real)
    requires d > 0.0
    ensures Squared(d) > 0.0
  {
    ProductPositive(d, d, Squared(d));
  }

  lemma SquareOfNegation(d: real)
    ensures Squared(-d) == Squared(d)
  {
  }

  lemma {:induction false} SumOfConstant(ls: seq<int>, v: int)
    requires forall k :: 0 <= k < |ls| ==> ls[k] == v
    ensures Sum(ls) == |ls| * v
  {
    if ls != [] { SumOfConstant(ls[..|ls| - 1], v); }
  }

  /** The variance is never negative, and zero exactly when all Laplacians are equal. */
  lemma VarianceZero(ls: seq<int>)
    requires ls != []
    ensures TwoPass(ls) >= 0.0
    ensures TwoPass(ls) == 0.0 <==> forall j, k :: 0 <= j < |ls| && 0 <= k < |ls| ==> ls[j] == ls[k]
  {
    var n, m := |ls| as real, Mean(ls);
    DeviationsNonNegative(ls, m);
    NonNegativeQuotient(Deviations(ls, m), n);
    if TwoPass(ls) == 0.0 {
      forall j, k | 0 <= j < |ls| && 0 <= k < |ls| ensures ls[j] == ls[k] {
        assert ls[j] as real == m && ls[k] as real == m;
      }
    }
    if forall j, k :: 0 <= j < |ls| && 0 <= k < |ls| ==> ls[j] == ls[k] {
      SumOfConstant(ls, ls[0]);
      MeanOfConstant(|ls|, ls[0]);
    }
  }

  lemma NonNegativeQuotient(d: real, n: real)
    requires d >= 0.0 && n > 0.0
    ensures d / n >= 0.0 && (d / n == 0.0 <==> d == 0.0)
  {
    assert d / n * n == d;
  }

  lemma MeanOfConstant(n: nat, v: int)
    requires n > 0
    ensures (n * v) as real / n as real == v as real
  {
    assert (n * v) as real == n as real * v as real;
  }

  // ---- Bounds ------------------------------------------------------------------------------------------

  predicate Within(ls: seq<int>, b: int) {
    forall k :: 0 <= k < |ls| ==> -b <= ls[k] <= b
  }

  lemma {:induction false} RowsWithin(data: seq<int>, w: nat, h: nat, upTo: nat)
    requires |data| == w * h && w >= 2 && 1 <= upTo < h && IsGrey(data)
    ensures Within(Laplacians(data, w, h, upTo), 1020)
  {
    if upTo > 1 {
      RowsWithin(data, w, h, upTo - 1);
      RowWithin(data, w, h, upTo - 1, w - 1);
    }
  }

  lemma RowWithin(data: seq<int>, w: nat, h: nat, y: nat, upTo: nat)
    requires |data| == w * h && 1 <= y < h - 1 && 1 <= upTo < w && IsGrey(data)
    ensures Within(RowLaplacians(data, w, h, y, upTo), 1020)
  {
    var row := RowLaplacians(data, w, h, y, upTo);
    forall k | 0 <= k < |row| ensures -1020 <= row[k] <= 1020 {
      assert row[(k + 1) - 1] == Laplacian(data, w, h, k + 1, y);
      Indexing(w, h, k + 1, y);
    }
  }

  /** Every Laplacian of 8-bit pixels lies between -1020 and 1020. */
  lemma LaplaciansWithin(data: seq<int>, w: nat, h: nat)
    requires |data| == w * h && IsGrey(data)
    ensures Within(Interior(data, w, h), 1020)
  {
    if w >= 2 && h >= 2 { RowsWithin(data, w, h, h - 1); }
  }

  lemma {:induction false} SumsWithin(ls: seq<int>, b: nat)
    requires Within(ls, b)
    ensures -(|ls| * b) <= Sum(ls) <= |ls| * b && 0 <= SumSq(ls) <= |ls| * (b * b)
  {
    if ls != [] {
      var rest, l := ls[..|ls| - 1], ls[|ls| - 1];
      SumsWithin(rest, b);
      SquareWithin(l, b);
      OneMoreTerm(|rest|, b);
      OneMoreTerm(|rest|, b * b);
    }
  }

  lemma OneMoreTerm(n: nat, b: nat)
    ensures (n + 1) * b == n * b + b
  {
  }

  lemma SquareWithin(l: int, b: int)
    requires -b <= l <= b
    ensures 0 <= l * l <= b * b
  {
    if l >= 0 { Multiplies(l, b, l, b); } else { Multiplies(-l, b, -l, b); assert l * l == (-l) * (-l); }
  }

  lemma Multiplies(a: nat, a': nat, b: nat, b': nat)
    requires a <= a' && b <= b'
    ensures 0 <= a * b <= a' * b'
  {
    assert a * b <= a' * b;
    assert a' * b <= a' * b';
  }

  /** The variance of an 8-bit image lies between 0 and 1020^2. */
  lemma VarianceBound(data: seq<int>, w: nat, h: nat)
    requires |data| == w * h && IsGrey(data) && w >= 3 && h >= 3
    ensures Interior(data, w, h) != []
    ensures 0.0 <= TwoPass(Interior(data, w, h)) <= 1020.0 * 1020.0
  {
    var ls := Interior(data, w, h);
    InteriorSize(w, h);
    LaplaciansWithin(data, w, h);
    SumsWithin(ls, 1020);
    OnePassIsTwoPass(ls);
    VarianceZero(ls);
    var n := |ls| as real;
    Square(Sum(ls) as real / n);
    QuotientBound(SumSq(ls) as real, n, 1020.0 * 1020.0);
  }

  lemma InteriorSize(w: nat, h: nat)
    requires w >= 3 && h >= 3
    ensures (h - 2) * (w - 2) >= 1
  {
  }

  lemma QuotientBound(q: real, n: real, b: real)
    requires n > 0.0 && q <= n * b
    ensures q / n <= b
  {
    var r := q / n;
    assert r * n == q;
    if r > b {
      ProductPositive(r - b, n, (r - b) * n);
    }
  }

  // ---- Ramps ---------------------------------------------------------------------------------------------

  /** `ramped` is `data` plus a * x + b * y + d at every pixel (x, y). */
  ghost predicate Ramped(data: seq<int>, ramped: seq<int>, w: nat, h: nat, a: int, b: int, d: int) {
    |data| == w * h && |ramped| == w * h &&
    forall x: nat, y: nat :: x < w && y < h ==>
      InRange(w, h, x, y) && ramped[y * w + x] == data[y * w + x] + Plane(a, b, d, x, y)
  }

  function Plane(a: int, b: int, d: int, x: nat, y: nat): int {
    a * x + b * y + d
  }

  predicate InRange(w: nat, h: nat, x: nat, y: nat) {
    y * w + x < w * h
  }

  lemma LaplacianOfRamp(data: seq<int>, ramped: seq<int>, w: nat, h: nat, a: int, b: int, d: int, x: nat, y: nat)
    requires Ramped(data, ramped, w, h, a, b, d) && 1 <= x < w - 1 && 1 <= y < h - 1
    ensures Laplacian(ramped, w, h, x, y) == Laplacian(data, w, h, x, y)
  {
    var i := y * w + x;
    Stencil(data, w, h, x, y, i);
    Stencil(ramped, w, h, x, y, i);
    NeighbourRows(w, y);
    PixelOfRamp(data, ramped, w, h, a, b, d, x, y, i);
    PixelOfRamp(data, ramped, w, h, a, b, d, x - 1, y, i - 1);
    PixelOfRamp(data, ramped, w, h, a, b, d, x + 1, y, i + 1);
    PixelOfRamp(data, ramped, w, h, a, b, d, x, y - 1, i - w);
    PixelOfRamp(data, ramped, w, h, a, b, d, x, y + 1, i + w);
    PlaneIsFlat(a, b, d, x, y);
  }

  lemma PixelOfRamp(data: seq<int>, ramped: seq<int>, w: nat, h: nat, a: int, b: int, d: int, x: nat, y: nat, i: int)
    requires Ramped(data, ramped, w, h, a, b, d) && x < w && y < h && i == y * w + x
    ensures 0 <= i < |data| == |ramped| && ramped[i] == data[i] + Plane(a, b, d, x, y)
  {
    assert InRange(w, h, x, y);
  }

  /** A plane has no curvature. */
  lemma PlaneIsFlat(a: int, b: int, d: int, x: nat, y: nat)
    requires x >= 1 && y >= 1
    ensures Plane(a, b, d, x, y - 1) + Plane(a, b, d, x, y + 1) + Plane(a, b, d, x - 1, y) + Plane(a, b, d, x + 1, y)
         == 4 * Plane(a, b, d, x, y)
  {
    assert a * (x - 1) == a * x - a && a * (x + 1) == a * x + a;
    assert b * (y - 1) == b * y - b && b * (y + 1) == b * y + b;
  }

  lemma {:induction false} RowsOfRamp(data: seq<int>, ramped: seq<int>, w: nat, h: nat, a: int, b: int, d: int,
                                      upTo: nat)
    requires Ramped(data, ramped, w, h, a, b, d) && w >= 2 && 1 <= upTo < h
    ensures Laplacians(ramped, w, h, upTo) == Laplacians(data, w, h, upTo)
  {
    if upTo > 1 {
      RowsOfRamp(data, ramped, w, h, a, b, d, upTo - 1);
      var y := upTo - 1;
      var row, row' := RowLaplacians(data, w, h, y, w - 1), RowLaplacians(ramped, w, h, y, w - 1);
      forall k | 0 <= k < |row| ensures row'[k] == row[k] {
        LaplacianOfRamp(data, ramped, w, h, a, b, d, k + 1, y);
        assert row[(k + 1) - 1] == Laplacian(data, w, h, k + 1, y) &&
          row'[(k + 1) - 1] == Laplacian(ramped, w, h, k + 1, y);
      }
      assert row' == row;
    }
  }

  /** Adding any affine ramp to the pixels -- brightness or an even gradient -- leaves the figure,
      and with it the verdict, unchanged. */
  lemma VarianceIgnoresRamps(data: seq<int>, ramped: seq<int>, w: nat, h: nat, a: int, b: int, d: int, threshold: real)
    requires Ramped(data, ramped, w, h, a, b, d)
    ensures OnePass(Interior(ramped, w, h)) == OnePass(Interior(data, w, h))
    ensures TooBlurry(OnePass(Interior(ramped, w, h)), threshold) <==>
            TooBlurry(OnePass(Interior(data, w, h)), threshold)
  {
    if w >= 2 && h >= 2 { RowsOfRamp(data, ramped, w, h, a, b, d, h - 1); }
  }

  /** The figure is undefined exactly when a side is shorter than three pixels; such an image passes
      the check whatever the threshold. */
  lemma NoInteriorNoVerdict(data: seq<int>, w: nat, h: nat, threshold: real)
    requires |data| == w * h
    ensures OnePass(Interior(data, w, h)).None? <==> w < 3 || h < 3
    ensures w < 3 || h < 3 ==> !TooBlurry(OnePass(Interior(data, w, h)), threshold)
  {
    if w >= 3 && h >= 3 { InteriorSize(w, h); }
  }
}
