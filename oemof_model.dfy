/**
 * The energy-system wrapper around the optimiser (class OemofModel): how the
 * input profiles are normalised to capacity factors, how the PV series are
 * looked up on the load's time index, how the unsupplied-demand budgets and
 * the per-component cost data are derived, and the cost and KPI arithmetic
 * applied to the optimiser's results. Building and solving the optimisation
 * problem itself is not part of this model.
 */
module OemofModel {
  import opened Wrappers
  import opened Series

  /** A label of the model's time index (one resampled step). */
  type Timestamp = int

  /** A resampled pandas Series, looked up by label. */
  type TimeSeries = map<Timestamp, real>

  // ---------------------------------------------------------------------
  // Index lookup and alignment
  // ---------------------------------------------------------------------

  /**
   * `series[index]`: selecting a list of labels succeeds only when every
   * label is present; otherwise pandas raises a KeyError (None here).
   */
  function Select(series: TimeSeries, index: seq<Timestamp>): (r: Option<seq<real>>)
    ensures r.Some? <==> forall k :: 0 <= k < |index| ==> index[k] in series
    ensures r.Some? ==> |r.value| == |index|
    ensures r.Some? ==> forall k :: 0 <= k < |index| ==> r.value[k] == series[index[k]]
  {
    if forall k :: 0 <= k < |index| ==> index[k] in series
    then Some(seq(|index|, k requires 0 <= k < |index| => series[index[k]]))
    else None
  }

  /**
   * Assigning a series to a column of a frame keeps the frame's index:
   * labels the series lacks become NaN (None here), extra labels are dropped.
   */
  function Align(series: TimeSeries, index: seq<Timestamp>): (r: seq<Option<real>>)
    ensures |r| == |index|
    ensures forall k :: 0 <= k < |index| ==> (r[k].Some? <==> index[k] in series)
    ensures forall k :: 0 <= k < |index| && index[k] in series ==> r[k].value == series[index[k]]
  {
    seq(|index|, k requires 0 <= k < |index| =>
      if index[k] in series then Some(series[index[k]]) else None)
  }

  /** Where the strict selection succeeds, alignment gives the same values and no gap. */
  lemma AlignAgreesWithSelect(series: TimeSeries, index: seq<Timestamp>)
    requires Select(series, index).Some?
    ensures forall k :: 0 <= k < |index| ==>
      Align(series, index)[k] == Some(Select(series, index).value[k])
  {
  }

  /** A column without gaps. */
  function Present(values: seq<real>): (r: seq<Option<real>>)
    ensures |r| == |values| && forall k :: 0 <= k < |values| ==> r[k] == Some(values[k])
  {
    seq(|values|, k requires 0 <= k < |values| => Some(values[k]))
  }

  /** The values of a column with its NaNs skipped, in order (what pandas' max and sum reduce). */
  function Defined(col: seq<Option<real>>): (d: seq<real>)
    ensures |d| <= |col|
  {
    if |col| == 0 then []
    else Defined(col[..|col| - 1]) + (if col[|col| - 1].Some? then [col[|col| - 1].value] else [])
  }

  /** A value survives NaN-skipping exactly when some entry of the column holds it. */
  lemma {:induction false} DefinedMembers(col: seq<Option<real>>, x: real)
    ensures x in Defined(col) <==> exists k :: 0 <= k < |col| && col[k] == Some(x)
  {
    if |col| > 0 {
      var init := col[..|col| - 1];
      DefinedMembers(init, x);
      if exists k :: 0 <= k < |init| && init[k] == Some(x) {
        var k :| 0 <= k < |init| && init[k] == Some(x);
        assert col[k] == Some(x);
      }
      if exists k :: 0 <= k < |col| && col[k] == Some(x) {
        var k :| 0 <= k < |col| && col[k] == Some(x);
        if k < |init| {
          assert init[k] == Some(x);
        }
      }
    }
  }

  /** With no gaps, NaN-skipping changes nothing. */
  lemma {:induction false} DefinedPresent(values: seq<real>)
    ensures Defined(Present(values)) == values
  {
    if |values| > 0 {
      var init := values[..|values| - 1];
      assert Present(values)[..|values| - 1] == Present(init);
      DefinedPresent(init);
      assert values == init + [values[|values| - 1]];
    }
  }

  // ---------------------------------------------------------------------
  // Normalisation to capacity factors
  // ---------------------------------------------------------------------

  /** A profile split into its nominal value (its maximum) and its capacity factors. */
  datatype Normalised = Normalised(nominal: Option<real>, factors: seq<Option<real>>)

  /** Division of a profile value by the nominal value; NaN and the infinities of a zero nominal are None. */
  function Factor(v: Option<real>, nominal: Option<real>): Option<real>
  {
    if v.Some? && nominal.Some? && nominal.value != 0.0 then Some(v.value / nominal.value) else None
  }

  /**
   * `profile / profile.max()`: the nominal value is the NaN-skipping maximum
   * (NaN for an all-NaN or empty column), and every entry is divided by it.
   */
  function Normalise(col: seq<Option<real>>): (n: Normalised)
    ensures |n.factors| == |col|
    ensures n.nominal.None? <==> forall k :: 0 <= k < |col| ==> col[k].None?
    ensures n.nominal.Some? ==> exists k :: 0 <= k < |col| && col[k] == Some(n.nominal.value)
    ensures n.nominal.Some? ==> forall k :: 0 <= k < |col| && col[k].Some? ==> col[k].value <= n.nominal.value
  {
    var d := Defined(col);
    var nominal := if |d| == 0 then None else Some(Max(d));
    NormaliseFacts(col, d, nominal);
    Normalised(nominal, seq(|col|, k requires 0 <= k < |col| => Factor(col[k], nominal)))
  }

  /** The nominal value of Normalise is a member and an upper bound of the defined entries. */
  lemma NormaliseFacts(col: seq<Option<real>>, d: seq<real>, nominal: Option<real>)
    requires d == Defined(col)
    requires nominal == if |d| == 0 then None else Some(Max(d))
    ensures nominal.None? <==> forall k :: 0 <= k < |col| ==> col[k].None?
    ensures nominal.Some? ==> exists k :: 0 <= k < |col| && col[k] == Some(nominal.value)
    ensures nominal.Some? ==> forall k :: 0 <= k < |col| && col[k].Some? ==> col[k].value <= nominal.value
  {
    if |d| == 0 {
      forall k | 0 <= k < |col| ensures col[k].None? {
        if col[k].Some? {
          DefinedMembers(col, col[k].value);
        }
      }
    } else {
      var m := nominal.value;
      DefinedMembers(col, m);
      var k :| 0 <= k < |col| && col[k] == Some(m);
      forall j | 0 <= j < |col| && col[j].Some? ensures col[j].value <= m {
        DefinedMembers(col, col[j].value);
      }
    }
  }

  lemma ProductOfQuotient(a: real, b: real)
    requires b != 0.0
    ensures b * (a / b) == a
  {
  }

  lemma QuotientAtMostOne(x: real, m: real)
    requires x <= m && m > 0.0
    ensures x / m <= 1.0
  {
  }

  /** Nominal value times capacity factor gives back the input value, wherever the factor is defined. */
  lemma NormaliseReproduces(col: seq<Option<real>>, k: int)
    requires 0 <= k < |col| && col[k].Some?
    requires Normalise(col).nominal.Some? && Normalise(col).nominal.value != 0.0
    ensures Normalise(col).factors[k].Some?
    ensures Normalise(col).nominal.value * Normalise(col).factors[k].value == col[k].value
  {
    var n := Normalise(col);
    ProductOfQuotient(col[k].value, n.nominal.value);
  }

  /** With a positive nominal value, every capacity factor is at most 1 and the peak's factor is exactly 1. */
  lemma NormalisedPeakIsOne(col: seq<Option<real>>)
    requires Normalise(col).nominal.Some? && Normalise(col).nominal.value > 0.0
    ensures forall k :: 0 <= k < |col| && Normalise(col).factors[k].Some? ==> Normalise(col).factors[k].value <= 1.0
    ensures exists k :: 0 <= k < |col| && Normalise(col).factors[k] == Some(1.0)
  {
    var n := Normalise(col);
    var m := n.nominal.value;
    forall k | 0 <= k < |col| && n.factors[k].Some? ensures n.factors[k].value <= 1.0 {
      QuotientAtMostOne(col[k].value, m);
    }
    var k :| 0 <= k < |col| && col[k] == Some(m);
    assert m / m == 1.0;
    assert n.factors[k] == Some(1.0);
  }

  // ---------------------------------------------------------------------
  // Inputs and their preparation in the constructor
  // ---------------------------------------------------------------------

  /** The switches of the model's constructor. */
  datatype Flags = Flags(
    peakPowerModel: bool,
    pueLoadExists: bool,
    householdBaseloadExists: bool,
    pvSouthExists: bool,
    pvEastWestExists: bool)

  /**
   * The input series after resampling: the PUE load profile (its index is the
   * model's time index), the household base load, the peak-power profile and
   * the PV generation series (east and west only read for an east-west system).
   */
  datatype LoadInputs = LoadInputs(
    index: seq<Timestamp>,
    pueLoad: seq<real>,
    householdBaseload: TimeSeries,
    peakPower: TimeSeries,
    pvGen: TimeSeries,
    pvEast: TimeSeries,
    pvWest: TimeSeries)

  /** A PUE load profile carries one value per label of its index. */
  predicate WellFormedInputs(inp: LoadInputs)
  {
    |inp.pueLoad| == |inp.index|
  }

  /** The exceptions the constructor raises. */
  datatype InitError =
    | NoPvMatch             // 'No PV gen ts timesteps found to match load profile'
    | NoPvEastMatch         // 'No PV east gen timesteps found to match load profile'
    | NoPvWestMatch         // 'No PV west gen timesteps found to match load profile'
    | HouseholdLabelMissing // KeyError selecting the household load on the PUE index

  /**
   * The total demand over the PUE load's index: the household load alone when
   * there is no PUE load, the PUE load alone when there is no household load,
   * their sum otherwise. Selecting the household load fails (KeyError) when
   * one of the index's labels is missing from it.
   */
  function TotalLoad(flags: Flags, index: seq<Timestamp>, pue: seq<real>, household: TimeSeries): (r: Option<seq<real>>)
    requires |pue| == |index|
    ensures r.None? <==>
      (!flags.pueLoadExists || flags.householdBaseloadExists) && exists k :: 0 <= k < |index| && index[k] !in household
    ensures r.Some? ==> |r.value| == |index|
    ensures r.Some? && !flags.pueLoadExists ==>
      forall k :: 0 <= k < |index| ==> r.value[k] == household[index[k]]
    ensures flags.pueLoadExists && !flags.householdBaseloadExists ==> r == Some(pue)
    ensures r.Some? && flags.pueLoadExists && flags.householdBaseloadExists ==>
      forall k :: 0 <= k < |index| ==> r.value[k] == pue[k] + household[index[k]]
  {
    if !flags.pueLoadExists then Select(household, index)
    else if !flags.householdBaseloadExists then Some(pue)
    else
      var h := Select(household, index);
      if h.None? then None
      else Some(seq(|index|, k requires 0 <= k < |index| => pue[k] + h.value[k]))
  }

  /** The timeseries frame the constructor builds, plus the total demand it derives. */
  datatype Prepared = Prepared(
    pue: Normalised,
    peak: Normalised,
    household: Normalised,
    householdAligned: seq<Option<real>>,
    pv: seq<real>,
    pvEast: seq<real>,
    pvWest: seq<real>,
    totalLoad: seq<real>)

  /**
   * The constructor's data preparation, with its exceptions in the order the
   * constructor raises them: the PV lookup, then the east and west lookups
   * (east-west systems only), then the household selection for the total load.
   */
  function Prepare(inp: LoadInputs, flags: Flags): (r: Result<Prepared, InitError>)
    requires WellFormedInputs(inp)
    ensures r == Failure(NoPvMatch) <==> Select(inp.pvGen, inp.index).None?
    ensures r == Failure(NoPvEastMatch) <==>
      Select(inp.pvGen, inp.index).Some? && flags.pvEastWestExists && Select(inp.pvEast, inp.index).None?
    ensures r == Failure(NoPvWestMatch) <==>
      Select(inp.pvGen, inp.index).Some? && flags.pvEastWestExists && Select(inp.pvEast, inp.index).Some?
      && Select(inp.pvWest, inp.index).None?
    ensures r.Success? ==> r.value.pv == Select(inp.pvGen, inp.index).value
    ensures r.Success? && flags.pvEastWestExists ==>
      r.value.pvEast == Select(inp.pvEast, inp.index).value && r.value.pvWest == Select(inp.pvWest, inp.index).value
    ensures r.Success? && !flags.pvEastWestExists ==> r.value.pvEast == [] && r.value.pvWest == []
    ensures r == Failure(HouseholdLabelMissing) <==>
      Select(inp.pvGen, inp.index).Some?
      && (flags.pvEastWestExists ==> Select(inp.pvEast, inp.index).Some? && Select(inp.pvWest, inp.index).Some?)
      && TotalLoad(flags, inp.index, inp.pueLoad, inp.householdBaseload).None?
    ensures r.Success? ==> r.value.totalLoad == TotalLoad(flags, inp.index, inp.pueLoad, inp.householdBaseload).value
    ensures r.Success? ==>
      r.value.pue == Normalise(Present(inp.pueLoad))
      && r.value.peak == Normalise(Align(inp.peakPower, inp.index))
      && r.value.householdAligned == Align(inp.householdBaseload, inp.index)
      && r.value.household == Normalise(r.value.householdAligned)
  {
    var pv := Select(inp.pvGen, inp.index);
    if pv.None? then Failure(NoPvMatch)
    else
      var east := if flags.pvEastWestExists then Select(inp.pvEast, inp.index) else Some([]);
      if east.None? then Failure(NoPvEastMatch)
      else
        var west := if flags.pvEastWestExists then Select(inp.pvWest, inp.index) else Some([]);
        if west.None? then Failure(NoPvWestMatch)
        else
          var total := TotalLoad(flags, inp.index, inp.pueLoad, inp.householdBaseload);
          if total.None? then Failure(HouseholdLabelMissing)
          else
            var household := Align(inp.householdBaseload, inp.index);
            Success(Prepared(
              Normalise(Present(inp.pueLoad)),
              Normalise(Align(inp.peakPower, inp.index)),
              Normalise(household),
              household,
              pv.value, east.value, west.value, total.value))
  }

  // ---------------------------------------------------------------------
  // Unsupplied-demand budgets
  // ---------------------------------------------------------------------

  /** The general economic data of the system sheet. */
  datatype GeneralData = GeneralData(
    wacc: real,
    unsuppliedTotalDemand: real,
    unsuppliedPueDemand: real,
    unsuppliedHouseholdDemand: real)

  /** Energy that may be left unsupplied: a demand's total energy times the allowed fraction. */
  function Budget(load: seq<real>, fraction: real): real
  {
    Sum(load) * fraction
  }

  lemma ScaleWithin(s: real, f: real)
    requires 0.0 <= f <= 1.0 && s >= 0.0
    ensures 0.0 <= s * f <= s
  {
  }

  /** With a non-negative demand and a fraction in [0, 1], the budget lies between nothing and the whole demand. */
  lemma BudgetWithinDemand(load: seq<real>, fraction: real)
    requires 0.0 <= fraction <= 1.0
    requires forall k :: 0 <= k < |load| ==> load[k] >= 0.0
    ensures 0.0 <= Budget(load, fraction) <= Sum(load)
  {
    var s := Sum(load);
    SumNonNegative(load);
    ScaleWithin(s, fraction);
    assert Budget(load, fraction) == s * fraction;
  }

  /**
   * The household budget as the constructor computes it: from the PUE load
   * profile's energy, not the household's.
   */
  function HouseholdBudgetAsWritten(pue: seq<real>, g: GeneralData): real
  {
    Budget(pue, g.unsuppliedHouseholdDemand)
  }

  /**
   * With no household demand at all and a fraction of one half, the budget as
   * written still lets 5 units of household demand go unsupplied.
   */
  lemma HouseholdBudgetAsWrittenExceedsDemand()
    ensures var g := GeneralData(0.0, 0.0, 0.0, 0.5);
      HouseholdBudgetAsWritten([10.0], g) == 5.0
      && Sum(Defined(Align(map[0 := 0.0], [0]))) == 0.0
  {
    assert Sum([10.0]) == Sum([]) + 10.0;
    var col := Align(map[0 := 0.0], [0]);
    assert col == [Some(0.0)];
    assert Defined(col) == Defined(col[..0]) + [0.0];
    assert Sum(Defined(col)) == Sum([]) + 0.0;
  }

  /** The household budget as intended: the allowed fraction of the household's own energy over the model's index. */
  function HouseholdBudget(household: seq<Option<real>>, g: GeneralData): real
  {
    Budget(Defined(household), g.unsuppliedHouseholdDemand)
  }

  /** The intended household budget never exceeds the household demand, whatever the PUE load. */
  lemma HouseholdBudgetWithinDemand(household: seq<Option<real>>, g: GeneralData)
    requires 0.0 <= g.unsuppliedHouseholdDemand <= 1.0
    requires forall k :: 0 <= k < |household| && household[k].Some? ==> household[k].value >= 0.0
    ensures 0.0 <= HouseholdBudget(household, g) <= Sum(Defined(household))
  {
    var d := Defined(household);
    forall j | 0 <= j < |d| ensures d[j] >= 0.0 {
      DefinedMembers(household, d[j]);
    }
    BudgetWithinDemand(d, g.unsuppliedHouseholdDemand);
  }

  // ---------------------------------------------------------------------
  // Component cost data
  // ---------------------------------------------------------------------

  /** The cost inputs of one component. */
  datatype ComponentData = ComponentData(specificCapex: real, lifetime: real, fixedOpex: real, variableOpex: real)

  /** The system sheet's tables the model reads. */
  datatype SystemData = SystemData(
    generalData: GeneralData,
    pv: ComponentData,
    pvWest: ComponentData,
    pvEast: ComponentData,
    batteryCapacity: ComponentData,
    batteryInverter: ComponentData,
    genset: ComponentData)

  const ComponentNames: set<string> := {"pv", "pv_west", "pv_east", "battery_capacity", "battery_inverter", "genset"}

  /** The components' data keyed by component name (the grid is not considered). */
  function ComponentsData(d: SystemData): (m: map<string, ComponentData>)
    ensures m.Keys == ComponentNames
    ensures m["pv"] == d.pv && m["pv_west"] == d.pvWest && m["pv_east"] == d.pvEast
    ensures m["battery_capacity"] == d.batteryCapacity && m["battery_inverter"] == d.batteryInverter
    ensures m["genset"] == d.genset
  {
    map["pv" := d.pv, "pv_west" := d.pvWest, "pv_east" := d.pvEast,
        "battery_capacity" := d.batteryCapacity, "battery_inverter" := d.batteryInverter,
        "genset" := d.genset]
  }

  /** A component's cost data per unit of capacity. */
  datatype ComponentCosts = ComponentCosts(
    specificCapex: real,
    annuity: real,
    fixedOpex: real,
    capitalCost: real,
    variableOpex: real)

  /**
   * The cost data of one component: the annuity of its specific capex over
   * its lifetime at the system's wacc, and a capital cost of annuity plus
   * fixed opex; capex and opex are carried over.
   */
  function SpecificCosts(d: ComponentData, wacc: real, annuity: (real, real, real) -> real): (c: ComponentCosts)
    ensures c.capitalCost == c.annuity + c.fixedOpex
    ensures c.annuity == annuity(d.specificCapex, d.lifetime, wacc)
    ensures c.specificCapex == d.specificCapex && c.fixedOpex == d.fixedOpex && c.variableOpex == d.variableOpex
  {
    var a := annuity(d.specificCapex, d.lifetime, wacc);
    ComponentCosts(d.specificCapex, a, d.fixedOpex, a + d.fixedOpex, d.variableOpex)
  }

  /** Cost data whose capital costs are annuity plus fixed opex. */
  predicate CapitalCostsConsistent(costs: map<string, ComponentCosts>)
  {
    forall c :: c in costs ==> costs[c].capitalCost == costs[c].annuity + costs[c].fixedOpex
  }

  // ---------------------------------------------------------------------
  // Results: component costs
  // ---------------------------------------------------------------------

  /** The optimiser's capacity results of one component. */
  datatype CapacityResult = CapacityResult(invest: real, total: real)

  /** The optimised capacities the results extraction reads (east and west only for east-west systems). */
  datatype OptimisedCapacities = OptimisedCapacities(
    pv: CapacityResult,
    batteryCapacity: CapacityResult,
    batteryInverter: CapacityResult,
    pvEast: CapacityResult,
    pvWest: CapacityResult)

  /** The capacity results table, in the column order the results dict is built in. */
  function CapacityTable(caps: OptimisedCapacities, eastWest: bool): (t: seq<(string, CapacityResult)>)
    ensures |t| == if eastWest then 5 else 3
    ensures forall k :: 0 <= k < |t| ==> t[k].0 in ComponentNames
    ensures t[0] == ("pv", caps.pv) && t[1] == ("battery_capacity", caps.batteryCapacity)
      && t[2] == ("battery_inverter", caps.batteryInverter)
    ensures eastWest ==> t[3] == ("pv_east", caps.pvEast) && t[4] == ("pv_west", caps.pvWest)
  {
    [("pv", caps.pv), ("battery_capacity", caps.batteryCapacity), ("battery_inverter", caps.batteryInverter)]
    + (if eastWest then [("pv_east", caps.pvEast), ("pv_west", caps.pvWest)] else [])
  }

  /** One column of the cost results table. */
  datatype CostRow = CostRow(capex: real, annuity: real, fixedOpex: real, variableOpex: real, totalAnnualCost: real)

  /** A column whose total annual cost is its annuity plus fixed and variable opex. */
  predicate AnnualCostConsistent(row: CostRow)
  {
    row.totalAnnualCost == row.annuity + row.fixedOpex + row.variableOpex
  }

  /**
   * The cost column of one component: its specific costs times its total
   * optimised capacity; variable opex is not considered (multiplied by 0).
   */
  function ComponentCostRow(c: ComponentCosts, capacity: real): (row: CostRow)
    ensures row.capex == c.specificCapex * capacity
    ensures row.annuity == c.annuity * capacity && row.fixedOpex == c.fixedOpex * capacity
    ensures AnnualCostConsistent(row)
    ensures row.variableOpex == 0.0
  {
    var annuity := c.annuity * capacity;
    var fixedOpex := c.fixedOpex * capacity;
    var variableOpex := c.variableOpex * 0.0;
    CostRow(c.specificCapex * capacity, annuity, fixedOpex, variableOpex, annuity + fixedOpex + variableOpex)
  }

  /** The componentwise sum of cost columns: the table's 'total' column. */
  function SumRows(rows: seq<CostRow>): CostRow
  {
    if |rows| == 0 then CostRow(0.0, 0.0, 0.0, 0.0, 0.0)
    else
      var s := SumRows(rows[..|rows| - 1]);
      var r := rows[|rows| - 1];
      CostRow(s.capex + r.capex, s.annuity + r.annuity, s.fixedOpex + r.fixedOpex,
              s.variableOpex + r.variableOpex, s.totalAnnualCost + r.totalAnnualCost)
  }

  /** Summing columns whose annual cost is consistent gives a consistent total column. */
  lemma {:induction false} SumRowsConsistent(rows: seq<CostRow>)
    requires forall k :: 0 <= k < |rows| ==> AnnualCostConsistent(rows[k])
    ensures AnnualCostConsistent(SumRows(rows))
  {
    if |rows| > 0 {
      SumRowsConsistent(rows[..|rows| - 1]);
    }
  }

  /** The cost results table: one column per component with capacity results, and their total. */
  datatype CostTable = CostTable(components: seq<(string, CostRow)>, total: CostRow)

  /** The cost columns, in the capacity table's order. */
  function CostColumns(caps: seq<(string, CapacityResult)>, costs: map<string, ComponentCosts>): (cols: seq<(string, CostRow)>)
    requires forall k :: 0 <= k < |caps| ==> caps[k].0 in costs
    ensures |cols| == |caps|
    ensures forall k :: 0 <= k < |caps| ==>
      cols[k] == (caps[k].0, ComponentCostRow(costs[caps[k].0], caps[k].1.total))
  {
    seq(|caps|, k requires 0 <= k < |caps| => (caps[k].0, ComponentCostRow(costs[caps[k].0], caps[k].1.total)))
  }

  function Rows(cols: seq<(string, CostRow)>): (rows: seq<CostRow>)
    ensures |rows| == |cols| && forall k :: 0 <= k < |cols| ==> rows[k] == cols[k].1
  {
    seq(|cols|, k requires 0 <= k < |cols| => cols[k].1)
  }

  /**
   * The cost results table: every column's total annual cost is its annuity
   * plus fixed and variable opex, and so is the total column's.
   */
  function CostTableOf(caps: seq<(string, CapacityResult)>, costs: map<string, ComponentCosts>): (t: CostTable)
    requires forall k :: 0 <= k < |caps| ==> caps[k].0 in costs
    ensures |t.components| == |caps|
    ensures forall k :: 0 <= k < |caps| ==>
      t.components[k] == (caps[k].0, ComponentCostRow(costs[caps[k].0], caps[k].1.total))
    ensures forall k :: 0 <= k < |caps| ==> AnnualCostConsistent(t.components[k].1)
    ensures t.total == SumRows(Rows(t.components))
    ensures AnnualCostConsistent(t.total)
  {
    var cols := CostColumns(caps, costs);
    SumRowsConsistent(Rows(cols));
    CostTable(cols, SumRows(Rows(cols)))
  }

  /** The system's capital cost: each component's capital cost per unit times its total capacity, summed. */
  function CapitalCostSum(caps: seq<(string, CapacityResult)>, costs: map<string, ComponentCosts>): real
    requires forall k :: 0 <= k < |caps| ==> caps[k].0 in costs
  {
    if |caps| == 0 then 0.0
    else
      var last := caps[|caps| - 1];
      CapitalCostSum(caps[..|caps| - 1], costs) + costs[last.0].capitalCost * last.1.total
  }

  lemma Distribute(a: real, f: real, x: real)
    ensures a * x + f * x == (a + f) * x
  {
  }

  /**
   * The system's total annual cost equals the sum over components of capital
   * cost (annuity plus fixed opex) times capacity: variable opex adds nothing.
   */
  lemma {:induction false} TotalAnnualCostIsCapitalCost(caps: seq<(string, CapacityResult)>, costs: map<string, ComponentCosts>)
    requires forall k :: 0 <= k < |caps| ==> caps[k].0 in costs
    requires CapitalCostsConsistent(costs)
    ensures CostTableOf(caps, costs).total.totalAnnualCost == CapitalCostSum(caps, costs)
    ensures CostTableOf(caps, costs).total.variableOpex == 0.0
  {
    ColumnsAnnualCost(caps, costs);
  }

  /** The same over the summed cost columns, by induction on the components. */
  lemma {:induction false} ColumnsAnnualCost(caps: seq<(string, CapacityResult)>, costs: map<string, ComponentCosts>)
    requires forall k :: 0 <= k < |caps| ==> caps[k].0 in costs
    requires CapitalCostsConsistent(costs)
    ensures SumRows(Rows(CostColumns(caps, costs))).totalAnnualCost == CapitalCostSum(caps, costs)
    ensures SumRows(Rows(CostColumns(caps, costs))).variableOpex == 0.0
  {
    if |caps| > 0 {
      var rows := Rows(CostColumns(caps, costs));
      var init := caps[..|caps| - 1];
      ColumnsAnnualCost(init, costs);
      var initRows := Rows(CostColumns(init, costs));
      assert rows[..|caps| - 1] == initRows;
      var last := caps[|caps| - 1];
      var c := costs[last.0];
      var row := ComponentCostRow(c, last.1.total);
      assert rows[|caps| - 1] == row;
      Distribute(c.annuity, c.fixedOpex, last.1.total);
      assert row.totalAnnualCost == c.capitalCost * last.1.total;
    }
  }

  // ---------------------------------------------------------------------
  // Results: system KPIs
  // ---------------------------------------------------------------------

  /**
   * The flows the KPIs read, one value per time step: household and PUE
   * links, excess, PV generation, battery inverter, and the battery
   * inverter's flow on the peak-power bus.
   */
  datatype Flows = Flows(
    householdLink: seq<real>,
    pueLink: seq<real>,
    excess: seq<real>,
    pv: seq<real>,
    batteryInverter: seq<real>,
    peakBatteryInverter: seq<real>)

  /** The solved model has at least one time step on every flow it reports. */
  predicate WellFormedFlows(f: Flows)
  {
    |f.householdLink| > 0 && |f.pueLink| > 0 && |f.excess| > 0 && |f.pv| > 0
    && |f.batteryInverter| > 0 && |f.peakBatteryInverter| > 0
  }

  /** The system KPIs; the ratios are None where pandas would divide by zero. */
  datatype SystemResults = SystemResults(
    householdEnergyDelivered: real,
    pueEnergyDelivered: real,
    excessEnergy: real,
    pvPotentialGeneration: real,
    batteryThroughput: real,
    batteryInverterPeakPowerFlow: Option<real>,
    totalEnergyDelivered: real,
    capacityFactor: Option<real>,
    lcoe: Option<real>)

  /** The modelled duration in whole hours: the span of the flows' index rounded half to even. */
  function ModelDuration(spanSeconds: nat): (d: nat)
    ensures -1800 <= spanSeconds - d * 3600 <= 1800
    ensures spanSeconds - d * 3600 == 1800 || spanSeconds - d * 3600 == -1800 ==> d % 2 == 0
  {
    var q := spanSeconds / 3600;
    var rem := spanSeconds % 3600;
    if rem < 1800 then q
    else if rem > 1800 then q + 1
    else if q % 2 == 0 then q
    else q + 1
  }

  /** The energy of a flow over the modelled duration: its mean power times the duration. */
  function Energy(flow: seq<real>, dur: nat): (e: real)
    requires |flow| > 0
    ensures e * |flow| as real == Sum(flow) * dur as real
  {
    EnergyScalesTotal(flow, dur);
    Mean(flow) * dur as real
  }

  /** The energy of a flow is its total over the time steps, rescaled from the number of steps to the duration. */
  lemma EnergyScalesTotal(flow: seq<real>, dur: nat)
    requires |flow| > 0
    ensures Mean(flow) * dur as real * |flow| as real == Sum(flow) * dur as real
  {
    var n := |flow| as real;
    var s := Sum(flow);
    var d := dur as real;
    assert Mean(flow) == s / n;
    calc {
      Mean(flow) * d * n;
      (s / n) * d * n;
      { ProductOfQuotient(s, n); }
      s * d;
    }
  }

  /**
   * The delivered, excess and PV energies are the energies of their flows,
   * and the battery throughput is half the energy of the inverter's flow in
   * either direction.
   */
  predicate EnergiesOfFlows(r: SystemResults, f: Flows, d: nat)
    requires WellFormedFlows(f)
  {
    && r.householdEnergyDelivered == Energy(f.householdLink, d) && r.pueEnergyDelivered == Energy(f.pueLink, d)
    && r.excessEnergy == Energy(f.excess, d) && r.pvPotentialGeneration == Energy(f.pv, d)
    && r.batteryThroughput == Energy(Abs(f.batteryInverter), d) / 2.0
  }

  /** The system KPIs from the flows, the index's span and the system's total annual cost. */
  function SystemKpis(f: Flows, spanSeconds: nat, totalAnnualCost: real, peakPowerModel: bool): (r: SystemResults)
    requires WellFormedFlows(f)
    ensures EnergiesOfFlows(r, f, ModelDuration(spanSeconds))
    ensures r.totalEnergyDelivered == r.householdEnergyDelivered + r.pueEnergyDelivered
    ensures r.batteryThroughput >= 0.0
    ensures r.batteryInverterPeakPowerFlow.Some? <==> peakPowerModel
    ensures r.batteryInverterPeakPowerFlow.Some? ==>
      (forall k :: 0 <= k < |f.peakBatteryInverter| ==> f.peakBatteryInverter[k] <= r.batteryInverterPeakPowerFlow.value)
      && r.batteryInverterPeakPowerFlow.value in f.peakBatteryInverter
    ensures r.capacityFactor.Some? <==> r.pvPotentialGeneration != 0.0
    ensures r.capacityFactor.Some? ==> r.capacityFactor.value * r.pvPotentialGeneration == r.totalEnergyDelivered
    ensures r.lcoe.Some? <==> r.totalEnergyDelivered != 0.0
    ensures LcoeRecoversCost(r, totalAnnualCost, ModelDuration(spanSeconds))
  {
    var dur := ModelDuration(spanSeconds);
    ThroughputNonNegative(f.batteryInverter, dur);
    DerivedKpis(
      Energy(f.householdLink, dur), Energy(f.pueLink, dur), Energy(f.excess, dur), Energy(f.pv, dur),
      Energy(Abs(f.batteryInverter), dur) / 2.0,
      if peakPowerModel then Some(Max(f.peakBatteryInverter)) else None,
      dur, totalAnnualCost)
  }

  /** The LCOE, spread over the delivered energy of a year of 8760 hours, gives back the annual cost over the modelled duration. */
  predicate LcoeRecoversCost(r: SystemResults, totalAnnualCost: real, dur: nat)
  {
    r.lcoe.Some? ==> r.lcoe.value * r.totalEnergyDelivered * 8760.0 == totalAnnualCost * dur as real
  }

  /** The KPIs derived from the energies: total delivered energy, capacity factor and LCOE. */
  function DerivedKpis(household: real, pue: real, excess: real, pv: real, throughput: real,
                       peak: Option<real>, dur: nat, totalAnnualCost: real): (r: SystemResults)
    ensures r.householdEnergyDelivered == household && r.pueEnergyDelivered == pue
    ensures r.excessEnergy == excess && r.pvPotentialGeneration == pv
    ensures r.batteryThroughput == throughput && r.batteryInverterPeakPowerFlow == peak
    ensures r.totalEnergyDelivered == household + pue
    ensures r.capacityFactor.Some? <==> pv != 0.0
    ensures r.capacityFactor.Some? ==> r.capacityFactor.value * pv == r.totalEnergyDelivered
    ensures r.lcoe.Some? <==> r.totalEnergyDelivered != 0.0
    ensures LcoeRecoversCost(r, totalAnnualCost, dur)
  {
    var total := household + pue;
    LcoeRecoversAnnualCost(totalAnnualCost, total, dur as real);
    SystemResults(
      household, pue, excess, pv, throughput, peak, total,
      if pv != 0.0 then Some(total / pv) else None,
      if total != 0.0 then Some(totalAnnualCost / total * dur as real / 8760.0) else None)
  }

  lemma MeanNonNegative(s: seq<real>)
    requires |s| > 0 && forall k :: 0 <= k < |s| ==> s[k] >= 0.0
    ensures Mean(s) >= 0.0
  {
    SumNonNegative(s);
  }

  /** The battery throughput (half the energy through the inverter in either direction) is never negative. */
  lemma ThroughputNonNegative(flow: seq<real>, dur: nat)
    requires |flow| > 0
    ensures Energy(Abs(flow), dur) / 2.0 >= 0.0
  {
    MeanNonNegative(Abs(flow));
  }

  /** LCOE times the delivered energy over a year of 8760 hours gives back the annual cost over the modelled duration. */
  lemma LcoeRecoversAnnualCost(annual: real, total: real, d: real)
    ensures total != 0.0 ==> (annual / total * d / 8760.0) * total * 8760.0 == annual * d
  {
  }

  // ---------------------------------------------------------------------
  // The model object
  // ---------------------------------------------------------------------

  class OemofModel {
    const peakPowerModel: bool
    /** The model's time index: the resampled PUE load's index. */
    const index: seq<Timestamp>
    const pueLoad: seq<Option<real>>
    const pueLoadNominal: Option<real>
    const peakPower: seq<Option<real>>
    const peakPowerNominal: Option<real>
    const householdBaseload: seq<Option<real>>
    const householdBaseloadNominal: Option<real>
    const pueLoadExists: bool
    const householdBaseloadExists: bool
    const pvSouthExists: bool
    const pvEastWestExists: bool
    const pv: seq<real>
    const pvEast: seq<real>
    const pvWest: seq<real>
    const generalData: GeneralData
    const componentsData: map<string, ComponentData>
    const unsuppliedTotalDemand: real
    const unsuppliedPueDemand: real
    const unsuppliedHouseholdDemand: real
    var componentsSpecificCosts: map<string, ComponentCosts>
    var resultsComponentsCapacities: Option<seq<(string, CapacityResult)>>
    var resultsComponentsCosts: Option<CostTable>
    var resultsSystem: Option<SystemResults>

    /** Every component has cost data, and every capital cost is annuity plus fixed opex. */
    predicate Valid()
      reads this
    {
      componentsSpecificCosts.Keys == ComponentNames
      && CapitalCostsConsistent(componentsSpecificCosts)
      && |pueLoad| == |index| && |peakPower| == |index| && |householdBaseload| == |index| && |pv| == |index|
    }

    /**
     * Builds the model from inputs the preparation accepts: the normalised
     * profiles and their nominal values, the PV series on the model's index,
     * the component cost data and the three unsupplied-demand budgets. The
     * household budget is taken from the household load (see HouseholdBudget).
     */
    constructor (inp: LoadInputs, flags: Flags, data: SystemData, annuity: (real, real, real) -> real)
      requires WellFormedInputs(inp) && Prepare(inp, flags).Success?
      ensures Valid()
      ensures index == inp.index && peakPowerModel == flags.peakPowerModel
      ensures pueLoadExists == flags.pueLoadExists && householdBaseloadExists == flags.householdBaseloadExists
      ensures pvSouthExists == flags.pvSouthExists && pvEastWestExists == flags.pvEastWestExists
      ensures var p := Prepare(inp, flags).value;
        pueLoad == p.pue.factors && pueLoadNominal == p.pue.nominal
        && peakPower == p.peak.factors && peakPowerNominal == p.peak.nominal
        && householdBaseload == p.household.factors && householdBaseloadNominal == p.household.nominal
        && pv == p.pv && pvEast == p.pvEast && pvWest == p.pvWest
        && unsuppliedTotalDemand == Budget(p.totalLoad, data.generalData.unsuppliedTotalDemand)
        && unsuppliedPueDemand == Budget(inp.pueLoad, data.generalData.unsuppliedPueDemand)
        && unsuppliedHouseholdDemand == HouseholdBudget(p.householdAligned, data.generalData)
      ensures generalData == data.generalData && componentsData == ComponentsData(data)
      ensures forall c :: c in componentsSpecificCosts ==>
        componentsSpecificCosts[c] == SpecificCosts(componentsData[c], generalData.wacc, annuity)
      ensures resultsComponentsCapacities.None? && resultsComponentsCosts.None? && resultsSystem.None?
    {
      var p := Prepare(inp, flags).value;
      peakPowerModel := flags.peakPowerModel;
      index := inp.index;
      pueLoad := p.pue.factors;
      pueLoadNominal := p.pue.nominal;
      peakPower := p.peak.factors;
      peakPowerNominal := p.peak.nominal;
      householdBaseload := p.household.factors;
      householdBaseloadNominal := p.household.nominal;
      pueLoadExists := flags.pueLoadExists;
      householdBaseloadExists := flags.householdBaseloadExists;
      pvSouthExists := flags.pvSouthExists;
      pvEastWestExists := flags.pvEastWestExists;
      pv := p.pv;
      pvEast := p.pvEast;
      pvWest := p.pvWest;
      generalData := data.generalData;
      componentsData := ComponentsData(data);
      unsuppliedTotalDemand := Budget(p.totalLoad, data.generalData.unsuppliedTotalDemand);
      unsuppliedPueDemand := Budget(inp.pueLoad, data.generalData.unsuppliedPueDemand);
      unsuppliedHouseholdDemand := HouseholdBudget(p.householdAligned, data.generalData);
      resultsComponentsCapacities := None;
      resultsComponentsCosts := None;
      resultsSystem := None;
      new;
      componentsSpecificCosts := CalcComponentsCosts(annuity);
    }

    /**
     * The constructor with its exceptions: fails exactly where the
     * preparation fails, and otherwise returns a fresh, valid model.
     */
    static method Create(inp: LoadInputs, flags: Flags, data: SystemData, annuity: (real, real, real) -> real)
      returns (r: Result<OemofModel, InitError>)
      requires WellFormedInputs(inp)
      ensures r.Failure? <==> Prepare(inp, flags).Failure?
      ensures r.Failure? ==> r.error == Prepare(inp, flags).error
      ensures r.Success? ==> fresh(r.value) && r.value.Valid() && r.value.index == inp.index
    {
      var p := Prepare(inp, flags);
      if p.Failure? {
        return Failure(p.error);
      }
      var m := new OemofModel(inp, flags, data, annuity);
      return Success(m);
    }

    /**
     * The specific cost data of every component, keyed like the component
     * data: annuity from capex, lifetime and wacc, capital cost = annuity +
     * fixed opex, capex and opex carried over.
     */
    method CalcComponentsCosts(annuity: (real, real, real) -> real) returns (costs: map<string, ComponentCosts>)
      ensures costs.Keys == componentsData.Keys
      ensures forall c :: c in costs ==> costs[c] == SpecificCosts(componentsData[c], generalData.wacc, annuity)
      ensures CapitalCostsConsistent(costs)
    {
      costs := map[];
      var remaining := componentsData.Keys;
      while remaining != {}
        invariant remaining <= componentsData.Keys
        invariant costs.Keys == componentsData.Keys - remaining
        invariant forall c :: c in costs ==> costs[c] == SpecificCosts(componentsData[c], generalData.wacc, annuity)
        decreases |remaining|
      {
        var component :| component in remaining;
        costs := costs[component := SpecificCosts(componentsData[component], generalData.wacc, annuity)];
        remaining := remaining - {component};
      }
    }

    /**
     * Stores the capacity results, the cost table built from them and the
     * system KPIs computed from the flows, the flows' span and the table's
     * total annual cost. Nothing else changes.
     */
    method ExtractResults(caps: OptimisedCapacities, flows: Flows, spanSeconds: nat)
      requires Valid() && WellFormedFlows(flows)
      modifies this
      ensures Valid()
      ensures componentsSpecificCosts == old(componentsSpecificCosts)
      ensures resultsComponentsCapacities == Some(CapacityTable(caps, pvEastWestExists))
      ensures resultsComponentsCosts == Some(CostTableOf(CapacityTable(caps, pvEastWestExists), componentsSpecificCosts))
      ensures resultsSystem == Some(SystemKpis(flows, spanSeconds, resultsComponentsCosts.value.total.totalAnnualCost, peakPowerModel))
      ensures resultsComponentsCosts.value.total.totalAnnualCost
        == CapitalCostSum(CapacityTable(caps, pvEastWestExists), componentsSpecificCosts)
    {
      var table := CapacityTable(caps, pvEastWestExists);
      resultsComponentsCapacities := Some(table);
      var costs := CostTableOf(table, componentsSpecificCosts);
      TotalAnnualCostIsCapitalCost(table, componentsSpecificCosts);
      resultsComponentsCosts := Some(costs);
      resultsSystem := Some(SystemKpis(flows, spanSeconds, costs.total.totalAnnualCost, peakPowerModel));
    }
  }
}
