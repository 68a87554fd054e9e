/** The merged digital-twin table (one reading per timestamp) and the column
    aggregates the scripts compute over it: the sum of a column, its mean,
    and the smallest and largest value. The timestamp column is not modelled. */
module Table {

  /** One row of the merged table. `predictedPowerKw` is the forecaster's
      output, read here as a given column. */
  datatype Reading = Reading(
    powerKw: real,
    predictedPowerKw: real,
    consumptionKw: real,
    sunlightIndex: real,
    temperatureC: real)

  /** The `power_kw` column. */
  function PowerColumn(rows: seq<Reading>): seq<real>
  {
    seq(|rows|, i requires 0 <= i < |rows| => rows[i].powerKw)
  }

  /** The `consumption_kw` column. */
  function ConsumptionColumn(rows: seq<Reading>): seq<real>
  {
    seq(|rows|, i requires 0 <= i < |rows| => rows[i].consumptionKw)
  }

  /** The sum of a column; 0 for an empty column. */
  function Sum(s: seq<real>): real
  {
    if s == [] then 0.0 else s[0] + Sum(s[1..])
  }

  /** Every value at least `lo` makes the sum at least `|s| * lo`. */
  lemma {:induction false} SumLowerBound(s: seq<real>, lo: real)
    requires forall i :: 0 <= i < |s| ==> lo <= s[i]
    ensures |s| as real * lo <= Sum(s)
  {
    if s != [] {
      SumLowerBound(s[1..], lo);
      assert |s| as real * lo == lo + (|s| - 1) as real * lo;
    }
  }

  /** Every value at most `hi` makes the sum at most `|s| * hi`. */
  lemma {:induction false} SumUpperBound(s: seq<real>, hi: real)
    requires forall i :: 0 <= i < |s| ==> s[i] <= hi
    ensures Sum(s) <= |s| as real * hi
  {
    if s != [] {
      SumUpperBound(s[1..], hi);
      assert |s| as real * hi == hi + (|s| - 1) as real * hi;
    }
  }

  /** A column of non-negative values has a non-negative sum. */
  lemma SumNonNegative(s: seq<real>)
    requires forall i :: 0 <= i < |s| ==> 0.0 <= s[i]
    ensures 0.0 <= Sum(s)
  {
    SumLowerBound(s, 0.0);
  }

  /** The smallest value of a non-empty column. */
  function Min(s: seq<real>): (m: real)
    requires |s| > 0
    ensures m in s
    ensures forall i :: 0 <= i < |s| ==> m <= s[i]
  {
    if |s| == 1 then s[0]
    else
      var t := Min(s[1..]);
      if s[0] <= t then s[0] else t
  }

  /** The largest value of a non-empty column. */
  function Max(s: seq<real>): (m: real)
    requires |s| > 0
    ensures m in s
    ensures forall i :: 0 <= i < |s| ==> s[i] <= m
  {
    if |s| == 1 then s[0]
    else
      var t := Max(s[1..]);
      if s[0] >= t then s[0] else t
  }

  /** The arithmetic mean of a non-empty column (pandas `Series.mean`). */
  function Mean(s: seq<real>): real
    requires |s| > 0
  {
    Sum(s) / |s| as real
  }

  /** Dividing by a positive count keeps a bound `n * c <= x` as `c <= x / n`. */
  lemma DivideLowerBound(x: real, n: real, c: real)
    requires n > 0.0 && n * c <= x
    ensures c <= x / n
  {
  }

  /** Dividing by a positive count keeps a bound `x <= n * c` as `x / n <= c`. */
  lemma DivideUpperBound(x: real, n: real, c: real)
    requires n > 0.0 && x <= n * c
    ensures x / n <= c
  {
  }

  /** Every value at least `lo` makes the mean at least `lo`. */
  lemma MeanAtLeast(s: seq<real>, lo: real)
    requires |s| > 0
    requires forall i :: 0 <= i < |s| ==> lo <= s[i]
    ensures lo <= Mean(s)
  {
    SumLowerBound(s, lo);
    DivideLowerBound(Sum(s), |s| as real, lo);
  }

  /** Every value at most `hi` makes the mean at most `hi`. */
  lemma MeanAtMost(s: seq<real>, hi: real)
    requires |s| > 0
    requires forall i :: 0 <= i < |s| ==> s[i] <= hi
    ensures Mean(s) <= hi
  {
    SumUpperBound(s, hi);
    DivideUpperBound(Sum(s), |s| as real, hi);
  }

  /** The mean is at least the smallest value. */
  lemma MeanAtLeastMin(s: seq<real>)
    requires |s| > 0
    ensures Min(s) <= Mean(s)
  {
    MeanAtLeast(s, Min(s));
  }

  /** The mean is at most the largest value. */
  lemma MeanAtMostMax(s: seq<real>)
    requires |s| > 0
    ensures Mean(s) <= Max(s)
  {
    MeanAtMost(s, Max(s));
  }

  /** The mean lies between the smallest and the largest value. */
  lemma MeanBounds(s: seq<real>)
    requires |s| > 0
    ensures Min(s) <= Mean(s) <= Max(s)
  {
    MeanAtLeastMin(s);
    MeanAtMostMax(s);
  }
}
