/** Consumption-pattern learning: every reading's consumption is labelled
    against the mean of the whole column plus or minus one standard
    deviation, and a reading is a waste period when its usage is low while
    the sunlight index is high. The standard deviation is a given parameter. */
module ConsumptionPatterns {
  import opened Table

  datatype Pattern = PeakUsage | LowUsage | NormalUsage

  /** Sunlight index above which a low-usage reading wastes solar energy. */
  const WASTE_SUNLIGHT: real := 0.6

  /** Position of a label in the order LOW < NORMAL < PEAK. */
  function Rank(p: Pattern): nat
  {
    match p
    case LowUsage => 0
    case NormalUsage => 1
    case PeakUsage => 2
  }

  /** `classify_consumption`: the three-way threshold test. */
  function Classify(value: real, mean: real, std: real): (p: Pattern)
    ensures p == PeakUsage <==> value > mean + std
    ensures std >= 0.0 ==> (p == LowUsage <==> value < mean - std)
    ensures std >= 0.0 ==> (p == NormalUsage <==> mean - std <= value <= mean + std)
  {
    if value > mean + std then PeakUsage
    else if value < mean - std then LowUsage
    else NormalUsage
  }

  /** The thresholds themselves are normal usage. */
  lemma ThresholdsAreNormal(mean: real, std: real)
    requires std >= 0.0
    ensures Classify(mean + std, mean, std) == NormalUsage
    ensures Classify(mean - std, mean, std) == NormalUsage
  {
  }

  /** A larger consumption never receives a lower label. */
  lemma ClassifyMonotone(v1: real, v2: real, mean: real, std: real)
    requires std >= 0.0 && v1 <= v2
    ensures Rank(Classify(v1, mean, std)) <= Rank(Classify(v2, mean, std))
  {
  }

  /** The `waste_period` column for one reading. */
  function WastePeriod(p: Pattern, sunlightIndex: real): (w: bool)
    ensures w ==> p == LowUsage
    ensures p == LowUsage ==> (w <==> sunlightIndex > WASTE_SUNLIGHT)
  {
    p == LowUsage && sunlightIndex > WASTE_SUNLIGHT
  }

  /** A reading annotated with the two columns this stage adds. */
  datatype Labelled = Labelled(reading: Reading, pattern: Pattern, waste: bool)

  /** Labels every reading against shared thresholds, in order. */
  function LabelAll(rows: seq<Reading>, mean: real, std: real): (out: seq<Labelled>)
    ensures |out| == |rows|
  {
    if rows == [] then []
    else
      var p := Classify(rows[0].consumptionKw, mean, std);
      [Labelled(rows[0], p, WastePeriod(p, rows[0].sunlightIndex))] + LabelAll(rows[1..], mean, std)
  }

  /** The i-th annotation depends only on the i-th reading and the thresholds. */
  lemma {:induction false} LabelAllAt(rows: seq<Reading>, mean: real, std: real, i: nat)
    requires i < |rows|
    ensures LabelAll(rows, mean, std)[i].reading == rows[i]
    ensures LabelAll(rows, mean, std)[i].pattern == Classify(rows[i].consumptionKw, mean, std)
    ensures LabelAll(rows, mean, std)[i].waste
            == WastePeriod(LabelAll(rows, mean, std)[i].pattern, rows[i].sunlightIndex)
  {
    if i > 0 {
      LabelAllAt(rows[1..], mean, std, i - 1);
    }
  }

  /** The whole stage: the mean of the consumption column, then one label per
      reading. An empty table has no rows to label. */
  function LearnPatterns(rows: seq<Reading>, std: real): (out: seq<Labelled>)
    ensures |out| == |rows|
  {
    if rows == [] then [] else LabelAll(rows, Mean(ConsumptionColumn(rows)), std)
  }

  /** Each row keeps its reading and gets the label of its own consumption
      against the mean of the whole column. */
  lemma LearnPatternsAt(rows: seq<Reading>, std: real, i: nat)
    requires i < |rows|
    ensures LearnPatterns(rows, std)[i].reading == rows[i]
    ensures LearnPatterns(rows, std)[i].pattern
            == Classify(rows[i].consumptionKw, Mean(ConsumptionColumn(rows)), std)
    ensures LearnPatterns(rows, std)[i].waste ==> LearnPatterns(rows, std)[i].pattern != PeakUsage
  {
    LabelAllAt(rows, Mean(ConsumptionColumn(rows)), std, i);
  }

  /** With a non-negative deviation, some reading is not peak usage and some
      reading is not low usage: the extreme values sit on either side of the mean. */
  lemma NotAllPeakNotAllLow(rows: seq<Reading>, std: real)
    requires |rows| > 0 && std >= 0.0
    ensures exists i :: 0 <= i < |rows| && LearnPatterns(rows, std)[i].pattern != PeakUsage
    ensures exists i :: 0 <= i < |rows| && LearnPatterns(rows, std)[i].pattern != LowUsage
  {
    var c := ConsumptionColumn(rows);
    MeanBounds(c);
    var lo :| 0 <= lo < |c| && c[lo] == Min(c);
    var hi :| 0 <= hi < |c| && c[hi] == Max(c);
    LearnPatternsAt(rows, std, lo);
    LearnPatternsAt(rows, std, hi);
  }

  /** A table of one reading is its own mean, so it is labelled normal usage. */
  lemma SingleReadingIsNormal(r: Reading, std: real)
    requires std >= 0.0
    ensures LearnPatterns([r], std) == [Labelled(r, NormalUsage, false)]
  {
    var c := ConsumptionColumn([r]);
    assert c == [r.consumptionKw];
    assert c[1..] == [];
    assert Sum(c) == r.consumptionKw;
    assert Mean(c) == r.consumptionKw;
  }
}
