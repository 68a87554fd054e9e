/** The dashboard's what-if simulation: the base solar and consumption totals
    are scaled by two slider percentages, one battery decision (discharge on a
    deficit, charge on a surplus) is taken against a battery whose lowest
    share is held back as a reserve, and the rest is imported from or
    exported to the grid. */
module Dashboard {
  import opened Table

  /** Share of the capacity held back as a reserve (`MIN_SOC`). */
  const MIN_SOC: real := 0.2

  /** kg of CO2 avoided per kWh of solar energy (`EMISSION_FACTOR`). */
  const EMISSION_FACTOR: real := 0.82

  // ---------------------------------------------------------------------
  // Python's built-in `abs`, `min` and `max` on two numbers
  // ---------------------------------------------------------------------

  function Abs(x: real): real { if x < 0.0 then -x else x }

  function Smaller(a: real, b: real): real { if a <= b then a else b }

  function Larger(a: real, b: real): real { if a >= b then a else b }

  // ---------------------------------------------------------------------
  // Base totals and scenario scaling
  // ---------------------------------------------------------------------

  /** `BASE_SOLAR`: the sum of the `power_kw` column. */
  function BaseSolar(rows: seq<Reading>): real
  {
    Sum(PowerColumn(rows))
  }

  /** `BASE_CONSUMPTION`: the sum of the `consumption_kw` column. */
  function BaseConsumption(rows: seq<Reading>): real
  {
    Sum(ConsumptionColumn(rows))
  }

  /** Readings of non-negative power and consumption give non-negative totals. */
  lemma BaseTotalsNonNegative(rows: seq<Reading>)
    requires forall i :: 0 <= i < |rows| ==> rows[i].powerKw >= 0.0 && rows[i].consumptionKw >= 0.0
    ensures BaseSolar(rows) >= 0.0 && BaseConsumption(rows) >= 0.0
  {
    SumNonNegative(PowerColumn(rows));
    SumNonNegative(ConsumptionColumn(rows));
  }

  /** `sim_solar`: the base solar total grown by the panel increase. */
  function SimSolar(baseSolar: real, panelIncrease: int): (s: real)
    ensures baseSolar >= 0.0 && panelIncrease >= 0 ==> baseSolar <= s
    ensures baseSolar >= 0.0 && 0 <= panelIncrease <= 200 ==> s <= 3.0 * baseSolar
  {
    baseSolar * (1.0 + panelIncrease as real / 100.0)
  }

  /** `sim_consumption`: the base consumption shrunk by the load reduction. */
  function SimConsumption(baseConsumption: real, loadReduction: int): (c: real)
    ensures baseConsumption >= 0.0 && 0 <= loadReduction <= 50
            ==> 0.5 * baseConsumption <= c <= baseConsumption
  {
    baseConsumption * (1.0 - loadReduction as real / 100.0)
  }

  /** A larger panel increase never lowers the simulated solar total. */
  lemma SimSolarMonotone(baseSolar: real, p1: int, p2: int)
    requires baseSolar >= 0.0 && p1 <= p2
    ensures SimSolar(baseSolar, p1) <= SimSolar(baseSolar, p2)
  {
    assert SimSolar(baseSolar, p2) - SimSolar(baseSolar, p1) == baseSolar * ((p2 - p1) as real / 100.0);
  }

  /** A larger load reduction never raises the simulated consumption. */
  lemma SimConsumptionAntitone(baseConsumption: real, l1: int, l2: int)
    requires baseConsumption >= 0.0 && l1 <= l2
    ensures SimConsumption(baseConsumption, l2) <= SimConsumption(baseConsumption, l1)
  {
    assert SimConsumption(baseConsumption, l1) - SimConsumption(baseConsumption, l2)
        == baseConsumption * ((l2 - l1) as real / 100.0);
  }

  /** `co2_saved`: the emission factor applied to the simulated solar total. */
  function Co2Saved(simSolar: real): (c: real)
    ensures simSolar >= 0.0 ==> 0.0 <= c <= simSolar
    ensures simSolar < 0.0 ==> simSolar <= c < 0.0
  {
    simSolar * EMISSION_FACTOR
  }

  // ---------------------------------------------------------------------
  // Battery configuration
  // ---------------------------------------------------------------------

  /** The configurations the sliders and the reserve policy allow: a capacity
      that is not negative, a reserve share below one, an initial charge
      percentage in 0..100. */
  predicate ValidConfig(capacity: real, minSoc: real, initialPct: int)
  {
    0.0 <= capacity && 0.0 <= minSoc < 1.0 && 0 <= initialPct <= 100
  }

  /** `reserve_energy`: the energy that is never discharged. */
  function ReserveEnergy(capacity: real, minSoc: real): real
  {
    capacity * minSoc
  }

  /** `usable_battery`: the most the usable pool may hold. */
  function UsableBattery(capacity: real, minSoc: real): real
  {
    capacity - ReserveEnergy(capacity, minSoc)
  }

  /** The capacity splits into a reserve and a usable pool, neither negative. */
  lemma CapacitySplit(capacity: real, minSoc: real)
    requires capacity > 0.0 && 0.0 <= minSoc < 1.0
    ensures 0.0 <= ReserveEnergy(capacity, minSoc) < capacity
    ensures 0.0 < UsableBattery(capacity, minSoc) <= capacity
    ensures ReserveEnergy(capacity, minSoc) + UsableBattery(capacity, minSoc) == capacity
  {
  }

  /** `initial_usable_energy`: the initial charge above the reserve, never negative. */
  function InitialUsableEnergy(capacity: real, minSoc: real, initialPct: int): (u: real)
    ensures 0.0 <= u
    ensures 0.0 <= capacity && initialPct as real / 100.0 <= minSoc ==> u == 0.0
    ensures 0.0 <= capacity && initialPct <= 100 && minSoc <= 1.0 ==> u <= UsableBattery(capacity, minSoc)
  {
    var share := initialPct as real / 100.0;
    var initialTotal := capacity * share;
    var reserve := ReserveEnergy(capacity, minSoc);
    ScaleMonotone(capacity, share, minSoc);
    ScaleMonotone(capacity, share, 1.0);
    ScaleMonotone(capacity, minSoc, 1.0);
    Larger(0.0, initialTotal - reserve)
  }

  /** Scaling a non-negative capacity by a smaller share gives less energy. */
  lemma ScaleMonotone(capacity: real, a: real, b: real)
    ensures 0.0 <= capacity && a <= b ==> capacity * a <= capacity * b
  {
  }

  // ---------------------------------------------------------------------
  // Battery dispatch
  // ---------------------------------------------------------------------

  /** The figures the dashboard shows after one simulation. */
  datatype Dispatch = Dispatch(
    batteryUsed: real,
    batteryCharged: real,
    usableSoc: real,
    netEnergy: real,
    gridImport: real,
    gridExport: real,
    totalSoc: real)

  /** `grid_import`: the part of a negative net energy drawn from the grid. */
  function GridImport(netEnergy: real): (i: real)
    ensures 0.0 <= i
    ensures i > 0.0 <==> netEnergy < 0.0
  {
    if netEnergy < 0.0 then Abs(netEnergy) else 0.0
  }

  /** `grid_export`: the part of a positive net energy sent to the grid. */
  function GridExport(netEnergy: real): (e: real)
    ensures 0.0 <= e
    ensures e > 0.0 <==> netEnergy > 0.0
  {
    if netEnergy > 0.0 then netEnergy else 0.0
  }

  /** At most one direction of grid exchange is used, and together they carry
      exactly the net energy. */
  lemma GridSplit(netEnergy: real)
    ensures GridImport(netEnergy) == 0.0 || GridExport(netEnergy) == 0.0
    ensures GridExport(netEnergy) - GridImport(netEnergy) == netEnergy
  {
  }

  /** `x` clamped into `[lo, hi]`. */
  function Clamp(x: real, lo: real, hi: real): (c: real)
    requires lo <= hi
    ensures lo <= c <= hi
    ensures lo <= x <= hi ==> c == x
  {
    if x < lo then lo else if x > hi then hi else x
  }

  /** Reference definition of one dispatch decision, independent of the
      dashboard's two branches: the usable charge moves from its initial value
      by the whole energy gap but stops at empty and at full; the battery
      supplies or absorbs that change, and everything it does not is
      exchanged with the grid. */
  function Settle(gap: real, reserve: real, initialUsable: real, usable: real): Dispatch
    requires 0.0 <= initialUsable <= usable
  {
    var final := Clamp(initialUsable + gap, 0.0, usable);
    var net := gap - (final - initialUsable);
    Dispatch(
      Larger(0.0, initialUsable - final),
      Larger(0.0, final - initialUsable),
      final,
      net,
      Larger(0.0, -net),
      Larger(0.0, net),
      final + reserve)
  }

  /** The dispatch of the given simulated totals under a configuration. */
  function Simulate(simSolar: real, simConsumption: real, capacity: real, minSoc: real, initialPct: int): Dispatch
    requires ValidConfig(capacity, minSoc, initialPct)
  {
    Settle(simSolar - simConsumption, ReserveEnergy(capacity, minSoc),
           InitialUsableEnergy(capacity, minSoc, initialPct), UsableBattery(capacity, minSoc))
  }

  /** The battery block of the dashboard, step by step: start with nothing
      used or charged, then take either the discharge or the charge decision
      and update the usable charge. */
  method SimulateBattery(simSolar: real, simConsumption: real, capacity: real, minSoc: real, initialPct: int)
    returns (r: Dispatch)
    requires ValidConfig(capacity, minSoc, initialPct)
    ensures r == Simulate(simSolar, simConsumption, capacity, minSoc, initialPct)
    // a deficit: only discharge, bounded by the usable charge and by the gap
    ensures simSolar < simConsumption ==>
              r.batteryCharged == 0.0
              && 0.0 <= r.batteryUsed <= InitialUsableEnergy(capacity, minSoc, initialPct)
              && r.batteryUsed <= simConsumption - simSolar
              && r.netEnergy <= 0.0
              && (r.netEnergy == 0.0 <==> r.batteryUsed == simConsumption - simSolar)
    // a surplus or exact balance: only charge, bounded by the free space
    ensures simSolar >= simConsumption ==>
              r.batteryUsed == 0.0
              && 0.0 <= r.batteryCharged
              && r.batteryCharged <= UsableBattery(capacity, minSoc) - InitialUsableEnergy(capacity, minSoc, initialPct)
              && r.netEnergy >= 0.0
              && r.usableSoc <= UsableBattery(capacity, minSoc)
  {
    var reserveEnergy := ReserveEnergy(capacity, minSoc);
    var usableBattery := capacity - reserveEnergy;
    var initialUsableEnergy := InitialUsableEnergy(capacity, minSoc, initialPct);
    var energyGap := simSolar - simConsumption;

    var batteryUsed := 0.0;
    var batteryCharged := 0.0;
    var usableSoc := initialUsableEnergy;
    var netEnergy: real;

    if energyGap < 0.0 {
      batteryUsed := Smaller(Abs(energyGap), usableSoc);
      usableSoc := usableSoc - batteryUsed;
      netEnergy := energyGap + batteryUsed;
    } else {
      var availableSpace := usableBattery - usableSoc;
      batteryCharged := Smaller(energyGap, availableSpace);
      usableSoc := usableSoc + batteryCharged;
      netEnergy := energyGap - batteryCharged;
    }

    var gridImport := GridImport(netEnergy);
    var gridExport := GridExport(netEnergy);
    var totalSoc := usableSoc + reserveEnergy;
    r := Dispatch(batteryUsed, batteryCharged, usableSoc, netEnergy, gridImport, gridExport, totalSoc);
  }

  // ---------------------------------------------------------------------
  // What the dispatch guarantees
  // ---------------------------------------------------------------------

  /** Battery and grid flows are never negative, and each pair is used in at
      most one direction. */
  lemma DispatchExclusive(simSolar: real, simConsumption: real, capacity: real, minSoc: real, initialPct: int)
    requires ValidConfig(capacity, minSoc, initialPct)
    ensures var d := Simulate(simSolar, simConsumption, capacity, minSoc, initialPct);
            0.0 <= d.batteryUsed && 0.0 <= d.batteryCharged
            && (d.batteryUsed == 0.0 || d.batteryCharged == 0.0)
            && 0.0 <= d.gridImport && 0.0 <= d.gridExport
            && (d.gridImport == 0.0 || d.gridExport == 0.0)
            && d.gridExport - d.gridImport == d.netEnergy
  {
  }

  /** The final state of charge never drops below the reserve and never
      exceeds the capacity. */
  lemma DispatchSocBounds(simSolar: real, simConsumption: real, capacity: real, minSoc: real, initialPct: int)
    requires ValidConfig(capacity, minSoc, initialPct)
    ensures var d := Simulate(simSolar, simConsumption, capacity, minSoc, initialPct);
            0.0 <= d.usableSoc <= UsableBattery(capacity, minSoc)
            && ReserveEnergy(capacity, minSoc) <= d.totalSoc <= capacity
  {
  }

  /** Energy is conserved: what the sun and the battery supply plus what the
      grid imports equals what is consumed, charged into the battery and
      exported. */
  lemma DispatchBalance(simSolar: real, simConsumption: real, capacity: real, minSoc: real, initialPct: int)
    requires ValidConfig(capacity, minSoc, initialPct)
    ensures var d := Simulate(simSolar, simConsumption, capacity, minSoc, initialPct);
            simSolar + d.batteryUsed + d.gridImport == simConsumption + d.batteryCharged + d.gridExport
  {
  }

  /** A larger energy gap never lowers the net energy, never lowers the export
      and never raises the import. */
  lemma SettleMonotone(g1: real, g2: real, reserve: real, initialUsable: real, usable: real)
    requires g1 <= g2 && 0.0 <= initialUsable <= usable
    ensures Settle(g1, reserve, initialUsable, usable).netEnergy <= Settle(g2, reserve, initialUsable, usable).netEnergy
    ensures Settle(g1, reserve, initialUsable, usable).gridExport <= Settle(g2, reserve, initialUsable, usable).gridExport
    ensures Settle(g2, reserve, initialUsable, usable).gridImport <= Settle(g1, reserve, initialUsable, usable).gridImport
  {
  }

  // ---------------------------------------------------------------------
  // The whole what-if simulation
  // ---------------------------------------------------------------------

  /** Everything the simulation section of the dashboard computes. */
  datatype WhatIfResult = WhatIfResult(
    simSolar: real,
    simConsumption: real,
    reserveEnergy: real,
    dispatch: Dispatch,
    co2Saved: real)

  /** The slider ranges of the dashboard. */
  predicate ValidSliders(capacity: int, initialPct: int, panelIncrease: int, loadReduction: int)
  {
    10 <= capacity <= 200 && 0 <= initialPct <= 100 && 0 <= panelIncrease <= 200 && 0 <= loadReduction <= 50
  }

  /** One recomputation of the what-if section for the current slider values,
      with the 20% reserve. */
  method WhatIf(rows: seq<Reading>, capacity: int, initialPct: int, panelIncrease: int, loadReduction: int)
    returns (r: WhatIfResult)
    requires ValidSliders(capacity, initialPct, panelIncrease, loadReduction)
    ensures r.simSolar == SimSolar(BaseSolar(rows), panelIncrease)
    ensures r.simConsumption == SimConsumption(BaseConsumption(rows), loadReduction)
    ensures r.reserveEnergy == capacity as real * MIN_SOC
    ensures r.dispatch == Simulate(r.simSolar, r.simConsumption, capacity as real, MIN_SOC, initialPct)
    ensures r.co2Saved == Co2Saved(r.simSolar)
    ensures r.reserveEnergy <= r.dispatch.totalSoc <= capacity as real
    ensures r.simSolar + r.dispatch.batteryUsed + r.dispatch.gridImport
            == r.simConsumption + r.dispatch.batteryCharged + r.dispatch.gridExport
  {
    var simSolar := SimSolar(BaseSolar(rows), panelIncrease);
    var simConsumption := SimConsumption(BaseConsumption(rows), loadReduction);
    var dispatch := SimulateBattery(simSolar, simConsumption, capacity as real, MIN_SOC, initialPct);
    DispatchSocBounds(simSolar, simConsumption, capacity as real, MIN_SOC, initialPct);
    DispatchBalance(simSolar, simConsumption, capacity as real, MIN_SOC, initialPct);
    r := WhatIfResult(simSolar, simConsumption, ReserveEnergy(capacity as real, MIN_SOC), dispatch, Co2Saved(simSolar));
  }

  /** Raising the panel increase, all other sliders fixed, never lowers the
      grid export and never raises the grid import (for non-negative base solar). */
  lemma PanelIncreaseMonotone(baseSolar: real, simConsumption: real, capacity: real, initialPct: int, p1: int, p2: int)
    requires baseSolar >= 0.0 && p1 <= p2
    requires ValidConfig(capacity, MIN_SOC, initialPct)
    ensures Simulate(SimSolar(baseSolar, p1), simConsumption, capacity, MIN_SOC, initialPct).gridExport
            <= Simulate(SimSolar(baseSolar, p2), simConsumption, capacity, MIN_SOC, initialPct).gridExport
    ensures Simulate(SimSolar(baseSolar, p2), simConsumption, capacity, MIN_SOC, initialPct).gridImport
            <= Simulate(SimSolar(baseSolar, p1), simConsumption, capacity, MIN_SOC, initialPct).gridImport
  {
    SimSolarMonotone(baseSolar, p1, p2);
    SettleMonotone(SimSolar(baseSolar, p1) - simConsumption, SimSolar(baseSolar, p2) - simConsumption,
                   ReserveEnergy(capacity, MIN_SOC), InitialUsableEnergy(capacity, MIN_SOC, initialPct),
                   UsableBattery(capacity, MIN_SOC));
  }

  /** A 50 kWh battery half full with a 20 kWh surplus: the battery takes the
      whole surplus, nothing reaches the grid, and 45 kWh are stored
      (35 kWh usable plus the 10 kWh reserve). */
  lemma ChargeExample()
    ensures Simulate(100.0, 80.0, 50.0, MIN_SOC, 50) == Dispatch(0.0, 20.0, 35.0, 0.0, 0.0, 0.0, 45.0)
  {
  }

  /** A 50 kWh battery at 10%, below its reserve, with a 50 kWh deficit: the
      battery supplies nothing and the grid supplies the whole deficit. */
  lemma DeficitBelowReserveExample()
    ensures Simulate(30.0, 80.0, 50.0, MIN_SOC, 10) == Dispatch(0.0, 0.0, 0.0, -50.0, 50.0, 0.0, 10.0)
  {
  }
}
