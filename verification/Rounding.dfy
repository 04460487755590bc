/**
 * The compression figure is rounded twice: the worker stores the ratio with four decimals, and the
 * API derives a percentage with one decimal from the stored ratio.  The worker's own log line
 * rounds the percentage once, straight from the exact ratio.
 */
module Rounding {
  import opened Arithmetic

  /** `Number(x.toFixed(digits))` with scale 10^digits, as in section 21.1.3.3 of ECMA-262: the
      nearest multiple of 1/scale, the larger one of a tie, with the sign put back afterwards. */
  function ToFixed(x: real, scale: nat): (r: real)
    requires scale > 0
  {
    ToFixedUnits(x, scale) as real / scale as real
  }

  function ToFixedUnits(x: real, scale: nat): int
    requires scale > 0
  {
    if x < 0.0 then -((-x * scale as real + 0.5).Floor) else (x * scale as real + 0.5).Floor
  }

  /** `normalized.length > 0 ? compressed.sizeBytes / normalized.length : 1` */
  function Ratio(compressedBytes: nat, normalizedBytes: nat): real {
    if normalizedBytes > 0 then compressedBytes as real / normalizedBytes as real else 1.0
  }

  function StoredRatio(compressedBytes: nat, normalizedBytes: nat): real {
    ToFixed(Ratio(compressedBytes, normalizedBytes), 10000)
  }

  /** What the worker logs. */
  function LoggedSavedPct(compressedBytes: nat, normalizedBytes: nat): real {
    ToFixed((1.0 - Ratio(compressedBytes, normalizedBytes)) * 100.0, 10)
  }

  /** What the API serves from the stored ratio. */
  function ServedSavedPct(storedRatio: real): real {
    ToFixed((1.0 - storedRatio) * 100.0, 10)
  }

  function Abs(x: real): (a: real)
    ensures a >= 0.0 && (a == x || a == -x)
  {
    if x < 0.0 then -x else x
  }

  /** Section 21.1.3.3 in its own words: no integer is nearer to x * scale, and of two equally near
      ones the result is the one farther from zero. */
  lemma ToFixedIsNearest(x: real, scale: nat, n: int)
    requires scale > 0
    ensures var u := ToFixedUnits(x, scale);
            && Abs(u as real - x * scale as real) <= Abs(n as real - x * scale as real)
            && (Abs(u as real - x * scale as real) == Abs(n as real - x * scale as real)
                ==> Abs(n as real) <= Abs(u as real))
  {
    var y := x * scale as real;
    if x < 0.0 {
      assert -x * scale as real == -y;
      NearestInteger(-y, -n);
      ProductNegative(x, scale as real, x * scale as real);
    } else {
      NearestInteger(y, n);
    }
  }

  lemma NearestInteger(y: real, n: int)
    requires y >= 0.0
    ensures var u := (y + 0.5).Floor;
            && u >= 0
            && Abs(u as real - y) <= 0.5
            && Abs(u as real - y) <= Abs(n as real - y)
            && (Abs(u as real - y) == Abs(n as real - y) ==> -u <= n <= u)
  {
    var u := (y + 0.5).Floor;
    assert u as real <= y + 0.5 < u as real + 1.0;
    if n > u {
      assert n as real >= u as real + 1.0;
    } else if n < u {
      assert n as real <= u as real - 1.0;
      if n < -u { assert n as real < -(u as real); }
    }
  }

  lemma UnitsError(x: real, scale: nat)
    requires scale > 0
    ensures Abs(ToFixedUnits(x, scale) as real - x * scale as real) <= 0.5
  {
    var y := x * scale as real;
    if x < 0.0 {
      assert -x * scale as real == -y;
      ProductNegative(x, scale as real, x * scale as real);
      NearestInteger(-y, 0);
    } else {
      NearestInteger(y, 0);
    }
  }

  /** One rounding moves a figure by at most half a unit in the last place. */
  lemma ToFixedError(x: real, scale: nat)
    requires scale > 0
    ensures Abs(ToFixed(x, scale) - x) * scale as real <= 0.5
  {
    UnitsError(x, scale);
    ScaledError(ToFixedUnits(x, scale) as real, x, scale as real);
  }

  lemma ScaledError(u: real, x: real, s: real)
    requires s > 0.0
    ensures Abs(u / s - x) * s == Abs(u - x * s)
  {
    assert (u / s - x) * s == u - x * s;
    if u / s - x < 0.0 {
      ProductNegative(u / s - x, s, (u / s - x) * s);
    }
  }

  /** The ratio, without a division: of nothing it is one. */
  lemma RatioTimesWhole(compressedBytes: nat, normalizedBytes: nat)
    ensures normalizedBytes > 0 ==>
              Ratio(compressedBytes, normalizedBytes) * normalizedBytes as real == compressedBytes as real
    ensures normalizedBytes == 0 ==> Ratio(compressedBytes, normalizedBytes) == 1.0
  {
  }

  /** An error in a share of n is that error times n in the amount. */
  lemma {:induction false} ErrorOfPart(a: real, b: real, e: real, n: real)
    requires Abs(a - b) <= e && n > 0.0
    ensures Abs(a * n - b * n) <= e * n
  {
    DifferenceTimes(a, b, n);
    if a - b >= 0.0 { ProductMonotone(a - b, e, n); } else { ProductMonotone(b - a, e, n); }
    DifferenceTimes(b, a, n);
  }

  lemma StoredNearRatio(compressedBytes: nat, normalizedBytes: nat)
    ensures Abs(StoredRatio(compressedBytes, normalizedBytes) - Ratio(compressedBytes, normalizedBytes)) <= 0.00005
  {
    ToFixedError(Ratio(compressedBytes, normalizedBytes), 10000);
  }

  /** Times the normalized bytes the ratio is the compressed bytes, give or take 0.00005 for each. */
  predicate TellsBytes(ratio: real, compressedBytes: nat, normalizedBytes: nat) {
    Abs(ratio * normalizedBytes as real - compressedBytes as real) <= 0.00005 * normalizedBytes as real
  }

  lemma NearRatioTellsBytes(ratio: real, compressedBytes: nat, normalizedBytes: nat)
    requires normalizedBytes > 0 && Abs(ratio - Ratio(compressedBytes, normalizedBytes)) <= 0.00005
    ensures TellsBytes(ratio, compressedBytes, normalizedBytes)
  {
    ErrorOfPart(ratio, Ratio(compressedBytes, normalizedBytes), 0.00005, normalizedBytes as real);
    RatioTimesWhole(compressedBytes, normalizedBytes);
  }

  lemma RatioOfNothing(compressedBytes: nat)
    ensures StoredRatio(compressedBytes, 0) == 1.0
  {
    assert ToFixedUnits(1.0, 10000) == 10000;
  }

  /** The stored ratio is within 0.00005 of the true one, so that it tells the compressed bytes to within that
      share of the normalized ones; of nothing it is one. */
  lemma StoredRatioError(compressedBytes: nat, normalizedBytes: nat)
    ensures Abs(StoredRatio(compressedBytes, normalizedBytes) - Ratio(compressedBytes, normalizedBytes)) <= 0.00005
    ensures normalizedBytes > 0 ==>
              TellsBytes(StoredRatio(compressedBytes, normalizedBytes), compressedBytes, normalizedBytes)
    ensures normalizedBytes == 0 ==> StoredRatio(compressedBytes, normalizedBytes) == 1.0
  {
    StoredNearRatio(compressedBytes, normalizedBytes);
    if normalizedBytes > 0 {
      NearRatioTellsBytes(StoredRatio(compressedBytes, normalizedBytes), compressedBytes, normalizedBytes);
    } else {
      RatioOfNothing(compressedBytes);
    }
  }

  /** The saved share times the whole is a hundred times the saved bytes. */
  lemma SavedTimesWhole(compressedBytes: nat, normalizedBytes: nat)
    requires normalizedBytes > 0
    ensures (1.0 - Ratio(compressedBytes, normalizedBytes)) * 100.0 * normalizedBytes as real
         == 100.0 * (normalizedBytes as real - compressedBytes as real)
  {
    RatioTimesWhole(compressedBytes, normalizedBytes);
  }

  /** Times the normalized bytes the figure is a hundred times the bytes saved, give or take e for each. */
  predicate TellsSaved(figure: real, e: real, compressedBytes: nat, normalizedBytes: nat) {
    Abs(figure * normalizedBytes as real - 100.0 * (normalizedBytes as real - compressedBytes as real))
      <= e * normalizedBytes as real
  }

  /** A percentage within e of the saved share tells the saved bytes to within e percent of the whole. */
  lemma SavedToWithin(figure: real, e: real, compressedBytes: nat, normalizedBytes: nat)
    requires normalizedBytes > 0
    requires Abs(figure - (1.0 - Ratio(compressedBytes, normalizedBytes)) * 100.0) <= e
    ensures TellsSaved(figure, e, compressedBytes, normalizedBytes)
  {
    var saved := (1.0 - Ratio(compressedBytes, normalizedBytes)) * 100.0;
    ErrorOfPart(figure, saved, e, normalizedBytes as real);
    SavedTimesWhole(compressedBytes, normalizedBytes);
  }

  lemma ServedNearSaved(compressedBytes: nat, normalizedBytes: nat)
    ensures var served := ServedSavedPct(StoredRatio(compressedBytes, normalizedBytes));
            Abs(served - (1.0 - Ratio(compressedBytes, normalizedBytes)) * 100.0) <= 0.055
  {
    var stored := StoredRatio(compressedBytes, normalizedBytes);
    StoredRatioError(compressedBytes, normalizedBytes);
    ToFixedError((1.0 - stored) * 100.0, 10);
  }

  /** The served percentage is within 0.055 of the true one, compression or growth alike, and so tells the bytes
      saved. */
  lemma ServedSavedPctError(compressedBytes: nat, normalizedBytes: nat)
    ensures var served := ServedSavedPct(StoredRatio(compressedBytes, normalizedBytes));
            && Abs(served - (1.0 - Ratio(compressedBytes, normalizedBytes)) * 100.0) <= 0.055
            && (normalizedBytes > 0 ==> TellsSaved(served, 0.055, compressedBytes, normalizedBytes))
  {
    ServedNearSaved(compressedBytes, normalizedBytes);
    if normalizedBytes > 0 {
      SavedToWithin(ServedSavedPct(StoredRatio(compressedBytes, normalizedBytes)), 0.055, compressedBytes,
        normalizedBytes);
    }
  }

  lemma LoggedNearSaved(compressedBytes: nat, normalizedBytes: nat)
    ensures Abs(LoggedSavedPct(compressedBytes, normalizedBytes)
                - (1.0 - Ratio(compressedBytes, normalizedBytes)) * 100.0) <= 0.05
  {
    ToFixedError((1.0 - Ratio(compressedBytes, normalizedBytes)) * 100.0, 10);
  }

  /** The logged one, rounded once, is within 0.05. */
  lemma LoggedSavedPctError(compressedBytes: nat, normalizedBytes: nat)
    requires normalizedBytes > 0
    ensures TellsSaved(LoggedSavedPct(compressedBytes, normalizedBytes), 0.05, compressedBytes, normalizedBytes)
  {
    LoggedNearSaved(compressedBytes, normalizedBytes);
    SavedToWithin(LoggedSavedPct(compressedBytes, normalizedBytes), 0.05, compressedBytes, normalizedBytes);
  }

  /** Of nothing, nothing is saved. */
  lemma NothingSaved(compressedBytes: nat)
    ensures ServedSavedPct(StoredRatio(compressedBytes, 0)) == 0.0 == LoggedSavedPct(compressedBytes, 0)
  {
    StoredRatioError(compressedBytes, 0);
    assert ToFixedUnits(0.0, 10) == 0;
  }

  /** Served and logged percentages are the same figure or neighbours one decimal apart. */
  lemma ServedVersusLogged(compressedBytes: nat, normalizedBytes: nat)
    ensures var served := ServedSavedPct(StoredRatio(compressedBytes, normalizedBytes));
            var logged := LoggedSavedPct(compressedBytes, normalizedBytes);
            served == logged || served == logged + 0.1 || served == logged - 0.1
  {
    StoredRatioError(compressedBytes, normalizedBytes);
    PercentUnits(Ratio(compressedBytes, normalizedBytes), StoredRatio(compressedBytes, normalizedBytes));
  }

  lemma PercentUnits(ratio: real, stored: real)
    requires Abs(stored - ratio) <= 0.00005
    ensures -1 <= ToFixedUnits((1.0 - stored) * 100.0, 10) - ToFixedUnits((1.0 - ratio) * 100.0, 10) <= 1
    ensures var served, logged := ToFixed((1.0 - stored) * 100.0, 10), ToFixed((1.0 - ratio) * 100.0, 10);
            served == logged || served == logged + 0.1 || served == logged - 0.1
  {
    var x, y := (1.0 - stored) * 100.0, (1.0 - ratio) * 100.0;
    assert Abs(x - y) <= 0.005;
    UnitsError(x, 10);
    UnitsError(y, 10);
    NeighbouringUnits(ToFixedUnits(x, 10), ToFixedUnits(y, 10), x, y);
  }

  lemma NeighbouringUnits(a: int, b: int, x: real, y: real)
    requires Abs(a as real - x * 10.0) <= 0.5 && Abs(b as real - y * 10.0) <= 0.5
    requires Abs(x - y) <= 0.005
    ensures -1 <= a - b <= 1
  {
    assert (a - b) as real == a as real - b as real;
  }

  /** What half a unit does to a tenth: rounding v in place of the integer n shows a smaller figure only
      where n ends in 5 and v lies below it. */
  lemma TenthOfNear(n: nat, v: real)
    requires Abs(v - n as real) <= 0.5
    ensures (n as real / 10.0 + 0.5).Floor == (n + 5) / 10
    ensures (v / 10.0 + 0.5).Floor == if n % 10 == 5 && v < n as real then (n + 5) / 10 - 1 else (n + 5) / 10
  {
    var q, rest := (n + 5) / 10, (n + 5) % 10;
    assert n as real == 10.0 * q as real + rest as real - 5.0;
    assert n as real / 10.0 + 0.5 == q as real + rest as real / 10.0;
    assert v / 10.0 + 0.5 == q as real + (v - n as real + rest as real) / 10.0;
  }

  /** The units of the served figure, from those of the stored ratio. */
  lemma ServedUnits(p: int)
    ensures ToFixedUnits((1.0 - p as real / 10000.0) * 100.0, 10)
         == if p <= 10000 then (10005 - p) / 10 else -((p - 9995) / 10)
  {
    var x := (1.0 - p as real / 10000.0) * 100.0;
    if p <= 10000 {
      TenthOfNear(10000 - p, (10000 - p) as real);
      assert x * 10.0 == (10000 - p) as real / 10.0;
    } else {
      TenthOfNear(p - 10000, (p - 10000) as real);
      assert -x * 10.0 == (p - 10000) as real / 10.0;
    }
  }

  /** The units of the logged figure, for a ratio within half a unit of p / 10000. */
  lemma LoggedUnits(r: real, p: int)
    requires Abs(r * 10000.0 - p as real) <= 0.5
    ensures ToFixedUnits((1.0 - r) * 100.0, 10)
         == if p < 10000 then (10005 - p) / 10 - (if p % 10 == 5 && r * 10000.0 > p as real then 1 else 0)
            else if p == 10000 then 0
            else (if p % 10 == 5 && r * 10000.0 < p as real then 1 else 0) - (p - 9995) / 10
  {
    var x := (1.0 - r) * 100.0;
    if p <= 10000 { TenthOfNear(10000 - p, 10000.0 - r * 10000.0); }
    if p >= 10000 { TenthOfNear(p - 10000, r * 10000.0 - 10000.0); }
    assert x * 10.0 == (10000.0 - r * 10000.0) / 10.0;
    assert -x * 10.0 == (r * 10000.0 - 10000.0) / 10.0;
  }

  lemma SameFigure(a: int, b: int)
    ensures a as real / 10.0 == b as real / 10.0 <==> a == b
  {
  }

  /** Served and logged percentages part exactly when the fourth decimal of the stored ratio is a 5 and
      storing it moved the ratio towards the figure that rounds up. */
  lemma ServedAndLoggedPart(compressedBytes: nat, normalizedBytes: nat)
    ensures var r := Ratio(compressedBytes, normalizedBytes);
            var p := ToFixedUnits(r, 10000);
            ServedSavedPct(StoredRatio(compressedBytes, normalizedBytes))
              != LoggedSavedPct(compressedBytes, normalizedBytes)
            <==> p % 10 == 5 && if p < 10000 then r * 10000.0 > p as real else r * 10000.0 < p as real
  {
    var r := Ratio(compressedBytes, normalizedBytes);
    var p := ToFixedUnits(r, 10000);
    UnitsError(r, 10000);
    ServedUnits(p);
    LoggedUnits(r, p);
    SameFigure(ToFixedUnits((1.0 - p as real / 10000.0) * 100.0, 10), ToFixedUnits((1.0 - r) * 100.0, 10));
  }

  /** Rounding twice can really show another figure: 50054 bytes left of 100000 save 49.946 percent,
      logged as 49.9; the ratio is stored as 0.5005, and the API serves 50.0. */
  lemma ServedAndLoggedCanDiffer()
    ensures ServedSavedPct(StoredRatio(50054, 100000)) == LoggedSavedPct(50054, 100000) + 0.1
  {
    assert Ratio(50054, 100000) == 0.50054;
    assert (0.50054 * 10000.0 + 0.5).Floor == 5005;
    assert StoredRatio(50054, 100000) == 0.5005;
    assert ((1.0 - 0.5005) * 100.0 * 10.0 + 0.5).Floor == 500;
    assert ((1.0 - 0.50054) * 100.0 * 10.0 + 0.5).Floor == 499;
  }
}
