/** The decision engine: every labelled reading gets one of five
    recommendations from its predicted solar power, its consumption, its
    usage pattern and its waste flag. */
module DecisionEngine {
  import opened Table
  import opened ConsumptionPatterns

  datatype Decision =
    | ShiftFlexibleLoads
    | StoreOrExport
    | ReduceLoads
    | MonitorUsage
    | Balanced
  {
    predicate IsSurplus() { ShiftFlexibleLoads? || StoreOrExport? }
    predicate IsDeficit() { ReduceLoads? || MonitorUsage? }
  }

  /** The text stored in the `energy_decision` column. */
  function Label(d: Decision): string
  {
    match d
    case ShiftFlexibleLoads => "SURPLUS: Shift flexible loads (pumps, EV charging) to this time"
    case StoreOrExport => "SURPLUS: Store energy or export to grid"
    case ReduceLoads => "DEFICIT: Reduce non-critical loads or import from grid"
    case MonitorUsage => "DEFICIT: Monitor usage closely"
    case Balanced => "BALANCED: No action needed"
  }

  /** Different decisions are stored as different texts. */
  lemma LabelInjective(a: Decision, b: Decision)
    ensures Label(a) == Label(b) ==> a == b
  {
  }

  /** `generate_decision`: surplus, deficit or balance decides the family,
      the waste flag splits the surplus and the peak pattern the deficit. */
  function Decide(predicted: real, consumption: real, pattern: Pattern, waste: bool): (d: Decision)
    ensures d.IsSurplus() <==> predicted > consumption
    ensures d.IsDeficit() <==> predicted < consumption
    ensures d == Balanced <==> predicted == consumption
    ensures d.IsSurplus() ==> (d == ShiftFlexibleLoads <==> waste)
    ensures d.IsDeficit() ==> (d == ReduceLoads <==> pattern == PeakUsage)
  {
    if predicted > consumption then
      if waste then ShiftFlexibleLoads else StoreOrExport
    else if predicted < consumption then
      if pattern == PeakUsage then ReduceLoads else MonitorUsage
    else
      Balanced
  }

  /** A surplus decision does not look at the usage pattern. */
  lemma SurplusIgnoresPattern(predicted: real, consumption: real, p1: Pattern, p2: Pattern, waste: bool)
    requires predicted > consumption
    ensures Decide(predicted, consumption, p1, waste) == Decide(predicted, consumption, p2, waste)
  {
  }

  /** A deficit decision does not look at the waste flag. */
  lemma DeficitIgnoresWaste(predicted: real, consumption: real, pattern: Pattern, w1: bool, w2: bool)
    requires predicted < consumption
    ensures Decide(predicted, consumption, pattern, w1) == Decide(predicted, consumption, pattern, w2)
  {
  }

  /** Equal prediction and consumption is balanced whatever the pattern and flag. */
  lemma BalancedIgnoresPatternAndWaste(predicted: real, consumption: real, pattern: Pattern, waste: bool)
    requires predicted == consumption
    ensures Decide(predicted, consumption, pattern, waste) == Balanced
  {
  }

  /** `df.apply(generate_decision, axis=1)`: one decision per row, in order. */
  function DecideAll(rows: seq<Labelled>): (out: seq<Decision>)
    ensures |out| == |rows|
  {
    if rows == [] then []
    else
      var r := rows[0];
      [Decide(r.reading.predictedPowerKw, r.reading.consumptionKw, r.pattern, r.waste)] + DecideAll(rows[1..])
  }

  /** The i-th decision depends only on the i-th row. */
  lemma {:induction false} DecideAllAt(rows: seq<Labelled>, i: nat)
    requires i < |rows|
    ensures DecideAll(rows)[i]
            == Decide(rows[i].reading.predictedPowerKw, rows[i].reading.consumptionKw, rows[i].pattern, rows[i].waste)
  {
    if i > 0 {
      DecideAllAt(rows[1..], i - 1);
    }
  }

  /** Across both stages: a row is advised to shift flexible loads exactly when
      its solar forecast exceeds its consumption, its consumption is below the
      column mean minus the deviation, and its sunlight index is above 0.6. */
  lemma {:induction false} ShiftLoadsWhen(rows: seq<Reading>, std: real, i: nat)
    requires i < |rows| && std >= 0.0
    ensures DecideAll(LearnPatterns(rows, std))[i] == ShiftFlexibleLoads
            <==> rows[i].predictedPowerKw > rows[i].consumptionKw
                 && rows[i].consumptionKw < Mean(ConsumptionColumn(rows)) - std
                 && rows[i].sunlightIndex > WASTE_SUNLIGHT
  {
    var labelled := LearnPatterns(rows, std);
    LearnPatternsAt(rows, std, i);
    LabelAllAt(rows, Mean(ConsumptionColumn(rows)), std, i);
    DecideAllAt(labelled, i);
  }
}
