/** `helpers.py`: min-max normalisation of one numeric column. */
module Helpers {
  import opened Wrappers
  import opened Series

  /**
   * `min_max_norm`: every entry becomes (x - min) / (max - min).  For a
   * constant column the source divides zero by zero, so every entry is NaN
   * (`None`); an empty column stays empty.
   */
  function MinMaxNorm(col: seq<real>): (r: seq<Option<real>>)
    ensures |r| == |col|
    ensures forall i :: 0 <= i < |col| ==> (r[i].None? <==> Max(col) == Min(col))
  {
    if |col| == 0 then [] else Rescale(col, Min(col), Max(col))
  }

  /** (x - lo) / (hi - lo) per entry, NaN everywhere when hi == lo. */
  function Rescale(col: seq<real>, lo: real, hi: real): (r: seq<Option<real>>)
    ensures |r| == |col|
    ensures forall i :: 0 <= i < |col| ==> (r[i].None? <==> hi == lo)
  {
    seq(|col|, i requires 0 <= i < |col| => if hi == lo then None else Some((col[i] - lo) / (hi - lo)))
  }

  /** True when no entry is NaN. */
  predicate AllDefined(r: seq<Option<real>>)
  {
    forall i :: 0 <= i < |r| ==> r[i].Some?
  }

  /** The numbers of a column without NaN. */
  function Values(r: seq<Option<real>>): (v: seq<real>)
    requires AllDefined(r)
    ensures |v| == |r| && forall i :: 0 <= i < |r| ==> Some(v[i]) == r[i]
  {
    seq(|r|, i requires 0 <= i < |r| => r[i].value)
  }

  lemma QuotientInUnitInterval(a: real, d: real)
    requires 0.0 <= a <= d && d > 0.0
    ensures 0.0 <= a / d <= 1.0
  {
  }

  lemma QuotientMonotone(a: real, b: real, d: real)
    requires a <= b && d > 0.0
    ensures a / d <= b / d
  {
  }

  /** Rescaling by bounds that enclose the column lands in [0, 1]. */
  lemma RescaleInUnitInterval(col: seq<real>, lo: real, hi: real)
    requires hi > lo && forall i :: 0 <= i < |col| ==> lo <= col[i] <= hi
    ensures forall i :: 0 <= i < |col| ==> 0.0 <= Rescale(col, lo, hi)[i].value <= 1.0
  {
    forall i | 0 <= i < |col| ensures 0.0 <= Rescale(col, lo, hi)[i].value <= 1.0 {
      QuotientInUnitInterval(col[i] - lo, hi - lo);
    }
  }

  lemma RescaleMonotone(col: seq<real>, lo: real, hi: real, i: nat, j: nat)
    requires hi > lo && i < |col| && j < |col| && col[i] <= col[j]
    ensures Rescale(col, lo, hi)[i].value <= Rescale(col, lo, hi)[j].value
  {
    QuotientMonotone(col[i] - lo, col[j] - lo, hi - lo);
  }

  lemma RescaleAtBounds(col: seq<real>, lo: real, hi: real, i: nat)
    requires hi > lo && i < |col|
    ensures col[i] == lo ==> Rescale(col, lo, hi)[i] == Some(0.0)
    ensures col[i] == hi ==> Rescale(col, lo, hi)[i] == Some(1.0)
  {
    var d := hi - lo;
    if col[i] == lo {
      assert col[i] - lo == 0.0;
      assert 0.0 / d == 0.0;
    }
    if col[i] == hi {
      assert col[i] - lo == d;
      assert d / d == 1.0;
    }
  }

  /** On a non-constant column every normalised entry lies in [0, 1]. */
  lemma NormInUnitInterval(col: seq<real>)
    requires |col| > 0 && Max(col) > Min(col)
    ensures AllDefined(MinMaxNorm(col))
    ensures forall i :: 0 <= i < |col| ==> 0.0 <= MinMaxNorm(col)[i].value <= 1.0
  {
    RescaleInUnitInterval(col, Min(col), Max(col));
  }

  /** The column minimum maps to 0 and the column maximum maps to 1. */
  lemma NormMapsExtremes(col: seq<real>, i: nat)
    requires i < |col| && Max(col) > Min(col)
    ensures col[i] == Min(col) ==> MinMaxNorm(col)[i] == Some(0.0)
    ensures col[i] == Max(col) ==> MinMaxNorm(col)[i] == Some(1.0)
  {
    RescaleAtBounds(col, Min(col), Max(col), i);
  }

  /** Normalisation preserves the order of entries. */
  lemma NormMonotone(col: seq<real>, i: nat, j: nat)
    requires i < |col| && j < |col| && Max(col) > Min(col)
    requires col[i] <= col[j]
    ensures MinMaxNorm(col)[i].value <= MinMaxNorm(col)[j].value
  {
    RescaleMonotone(col, Min(col), Max(col), i, j);
  }

  /** A column within [0, 1] that reaches 0 and 1 has those as its extremes. */
  lemma UnitExtremes(n: seq<real>, a: nat, b: nat)
    requires a < |n| && b < |n| && n[a] == 0.0 && n[b] == 1.0
    requires forall i :: 0 <= i < |n| ==> 0.0 <= n[i] <= 1.0
    ensures Min(n) == 0.0 && Max(n) == 1.0
  {
  }

  /** Rescaling by the bounds 0 and 1 changes no entry. */
  lemma UnitRescale(n: seq<real>)
    ensures forall i :: 0 <= i < |n| ==> Rescale(n, 0.0, 1.0)[i] == Some(n[i])
  {
    forall i | 0 <= i < |n| ensures Rescale(n, 0.0, 1.0)[i] == Some(n[i]) {
      assert (n[i] - 0.0) / (1.0 - 0.0) == n[i];
    }
  }

  /** A column of numbers in [0, 1] reaching both bounds normalises to itself. */
  lemma UnitColumnFixed(r: seq<Option<real>>, n: seq<real>, a: nat, b: nat)
    requires |r| == |n| && forall i :: 0 <= i < |n| ==> r[i] == Some(n[i])
    requires a < |n| && b < |n| && n[a] == 0.0 && n[b] == 1.0
    requires forall i :: 0 <= i < |n| ==> 0.0 <= n[i] <= 1.0
    ensures MinMaxNorm(n) == r
  {
    UnitExtremes(n, a, b);
    UnitRescale(n);
    assert MinMaxNorm(n) == Rescale(n, 0.0, 1.0);
  }

  /** Normalising an already normalised column returns it unchanged. */
  lemma NormIdempotent(col: seq<real>)
    requires |col| > 0 && Max(col) > Min(col)
    ensures AllDefined(MinMaxNorm(col))
    ensures MinMaxNorm(Values(MinMaxNorm(col))) == MinMaxNorm(col)
  {
    NormInUnitInterval(col);
    var r := MinMaxNorm(col);
    var n := Values(r);
    var iMin :| 0 <= iMin < |col| && col[iMin] == Min(col);
    var iMax :| 0 <= iMax < |col| && col[iMax] == Max(col);
    NormMapsExtremes(col, iMin);
    NormMapsExtremes(col, iMax);
    UnitColumnFixed(r, n, iMin, iMax);
  }
}
