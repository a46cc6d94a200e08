# PUE load model — a Dafny model of its data pipeline

This project models the deterministic core of a load-modelling toolkit for
productive-use-of-electricity (PUE) appliances on a PV/battery/genset
mini-grid. It covers five pieces of the pipeline:

* **Workbook input** (`model/data_input.py`, module `DataInput`, class
  `InputData`):
  * every Excel table becomes a frame, optionally indexed, with a
    `value`-column dictionary beside it;
  * the appliance workbook becomes a dictionary of appliances, each with its
    weekly preferences and monthly variation;
  * the hourly resource table is built from per-resource hour×weekday tables
    and a week-indexed table.
* **RAMP control** (`model/ramp_control.py`, modules `RampWindows` and
  `RampControl`, class `RampControl`):
  * use cases are built in two ways. The new input format draws three
    jittered windows. The old format scans 24 hourly preference flags for
    runs of preferred hours.
  * appliances are grouped by user;
  * the daily profiles of the use cases are concatenated per appliance;
  * the switch-on events become per-second start-up bursts and a per-minute
    maximum of their total.
* **System model** (`model/oemof_model.py`, module `OemofModel`, class
  `OemofModel`):
  * the load profiles are normalised to a nominal value;
  * the PV series are aligned to the load index, with their error paths;
  * the unsupplied-demand budgets;
  * `calc_components_costs`;
  * the results arithmetic of `extract_results`: component cost rows, their
    totals, the modelled duration and the system KPIs.
* **High-resolution measurements** (`high_res_data_analysis/read_high_res_data.py`,
  module `ReadHighResData`):
  * EDR files are routed to phase channels by the three characters before
    their extension;
  * rows with a missing field are dropped;
  * current and power are corrected for the Rogowski coil factor, the
    frequency deviation is converted to Hz and each table is sorted by time;
  * for Pico logs, the instantaneous power of each sample is computed and
    aggregated per interval.
* **Min-max normalisation** (`helpers.py`, module `Helpers`).

`Series` holds the sum, maximum, minimum and mean of a column. `Wrappers`
holds `Option` and `Result`.

Reals stand for floats throughout. pandas frames are modelled as sequences
of rows or as maps from column names to sequences. Anything random, read
from disk or computed by a library is a parameter:
* RAMP's daily profile of an appliance in a use case;
* `economics.annuity`;
* the optimiser's capacities and flows;
* the per-interval RMS values.

Window 1's end in `add_use_case` (`model/ramp_control.py:48-49`) is drawn
from `randint(end - var, end - var)`, so it is always exactly
`end*60 - var*60`. The model keeps that behaviour (`RampWindows.DrawnFor`
with `exactEnd`). The other two windows draw their end from
`end ± var`.

## Model

| member | source | states |
|---|---|---|
| Helpers.MinMaxNorm | helpers.py:6-7 | Result has the column's length; an entry is undefined (0/0) exactly when the column's max equals its min |
| Helpers.NormInUnitInterval | helpers.py:6-7 | When max > min every normalised value is defined and lies in [0, 1] |
| Helpers.NormMapsExtremes | helpers.py:6-7 | The minimum maps to 0 and the maximum to 1 |
| Helpers.NormMonotone | helpers.py:6-7 | Normalisation preserves the order of the entries |
| Helpers.NormIdempotent | helpers.py:6-7 | Normalising an already normalised column changes nothing |
| ReadHighResData.PhaseTag | high_res_data_analysis/read_high_res_data.py:44 | The tag is `filename[-7:-4]` with Python slice semantics (shorter names give a tag of under 3 characters) |
| ReadHighResData.Classify | high_res_data_analysis/read_high_res_data.py:44-67 | A file is routed to a channel exactly when its tag is that channel's tag (`_L1`…`L7I`), otherwise it is invalid |
| ReadHighResData.ClassifyTagged | high_res_data_analysis/read_high_res_data.py:44-65 | Any name ending in a channel tag plus a 4-character extension is routed to that channel |
| ReadHighResData.BucketMembers | high_res_data_analysis/read_high_res_data.py:41-67 | A file is in a channel's list iff it was listed and classifies to that channel |
| ReadHighResData.EachFileRoutedOnce | high_res_data_analysis/read_high_res_data.py:41-67 | The seven channel lists and the invalid list together hold every file exactly once (sizes add up) |
| ReadHighResData.DispatchFiles | high_res_data_analysis/read_high_res_data.py:20-67 | The directory loop fills all seven channel lists and the invalid list, in directory order |
| ReadHighResData.ConvertCurrent | high_res_data_analysis/read_high_res_data.py:81-94 | Timestamp is seconds plus the ms offset; P, Q, I_eff and I_amp times the correction factor give back the raw values; THD is unchanged |
| ReadHighResData.FrequencyHz | high_res_data_analysis/read_high_res_data.py:117 | The frequency in Hz deviates from 50 by the recorded mHz / 1000 |
| ReadHighResData.ConvertVoltage | high_res_data_analysis/read_high_res_data.py:105-117 | Timestamp, frequency in Hz, and U_eff/U_amp/U_thd carried over |
| ReadHighResData.CleanCurrentsMembers | high_res_data_analysis/read_high_res_data.py:77-78 | A sample survives `dropna` iff it is the conversion of a raw row with no missing field |
| ReadHighResData.CleanVoltagesMembers | high_res_data_analysis/read_high_res_data.py:104-116 | A voltage sample survives `dropna` iff it is the conversion of a raw voltage row with no missing field |
| ReadHighResData.SortBy | high_res_data_analysis/read_high_res_data.py:87 | The table is sorted by time and is a permutation of its input |
| ReadHighResData.FirstEmpty | high_res_data_analysis/read_high_res_data.py:74-77 | Names a channel with no files exactly when one exists |
| ReadHighResData.EdrTables | high_res_data_analysis/read_high_res_data.py:69-123 | The result has current tables for L1, L2, L3, N and voltage tables for L1, L2, L3 |
| ReadHighResData.ReadEdrData | high_res_data_analysis/read_high_res_data.py:7-123 | Fails (pd.concat of no frames) iff some channel received no file, naming such a channel; otherwise returns the per-phase tables |
| ReadHighResData.InstantaneousPower | high_res_data_analysis/read_high_res_data.py:177-182 | Each phase's sample keeps I and U and gets P = U·I; N keeps only its current |
| ReadHighResData.AggregateInterval | high_res_data_analysis/read_high_res_data.py:186-199 | An interval with samples yields S = I_eff·U_eff, keeps the given RMS values, and its P times the sample count is minus the sum of the sample powers (the inverted mean); an empty interval gives pandas' undefined (NaN) row, modelled as None |
| ReadHighResData.DeliveredPowerNonNegative | high_res_data_analysis/read_high_res_data.py:189-195 | When every sample absorbs power (P ≤ 0) the inverted mean is non-negative |
| ReadHighResData.AggregatedPowerBetweenExtremes | high_res_data_analysis/read_high_res_data.py:189-195 | The aggregated (inverted) power lies between minus the interval's largest and minus its smallest sample power |
| OemofModel.Select | model/oemof_model.py:62-65 | `series[index]` succeeds iff every timestamp is present and then returns the values in index order |
| OemofModel.Align | model/oemof_model.py:46-56 | Assigning a series to the frame keeps its values at shared timestamps and leaves the others undefined |
| OemofModel.AlignAgreesWithSelect | model/oemof_model.py:54-65 | Where selection succeeds, alignment gives the same values |
| OemofModel.DefinedMembers | model/oemof_model.py:40-56 | Skipping undefined entries keeps exactly the defined values |
| OemofModel.Normalise | model/oemof_model.py:40-56 | The nominal value is undefined iff the column is all-NaN; otherwise it is one of the values and bounds all of them |
| OemofModel.NormaliseReproduces | model/oemof_model.py:40-56 | Nominal times capacity factor gives back each defined load value |
| OemofModel.NormalisedPeakIsOne | model/oemof_model.py:40-56 | With a positive nominal, every factor is at most 1 and some factor is exactly 1 |
| OemofModel.TotalLoad | model/oemof_model.py:114-119 | PUE only, household only, or their sum per timestamp; a KeyError exactly when the household series is used and lacks a load timestamp |
| OemofModel.Prepare | model/oemof_model.py:29-119 | The constructor's error order (PV, PV east, PV west, household labels) and, on success, the normalised columns, the aligned PV series and the total load |
| OemofModel.BudgetWithinDemand | model/oemof_model.py:121-127 | For a fraction in [0, 1] and a non-negative load, the unsupplied budget lies between 0 and the total energy |
| OemofModel.HouseholdBudgetAsWrittenExceedsDemand | model/oemof_model.py:129-130 | The household budget as written can exceed the household energy (PUE energy 10, household energy 0, fraction 0.5 gives 5) |
| OemofModel.HouseholdBudgetWithinDemand | model/oemof_model.py:129-130 | The corrected household budget lies between 0 and the household energy |
| OemofModel.ComponentsData | model/oemof_model.py:98-107 | The component dictionary has exactly the six components, each with its own table |
| OemofModel.SpecificCosts | model/oemof_model.py:150-162 | The annuity comes from capex, lifetime and wacc; capital cost = annuity + fixed opex; capex and the opex values are carried over |
| OemofModel.CapacityTable | model/oemof_model.py:509-534 | PV, battery capacity, battery inverter, plus PV east and west when modelled, each with its optimised capacities |
| OemofModel.ComponentCostRow | model/oemof_model.py:539-548 | Capex, annuity and fixed opex are the component's specific values times its total capacity; variable opex is 0; total annual cost is annuity + fixed opex + variable opex |
| OemofModel.SumRowsConsistent | model/oemof_model.py:554-558 | Summing consistent rows gives a consistent total column |
| OemofModel.CostTableOf | model/oemof_model.py:537-558 | One cost column per component, in the capacity table's order, each the component's cost row at its total capacity; the total column is the componentwise sum of the columns; each column and the total are consistent |
| OemofModel.TotalAnnualCostIsCapitalCost | model/oemof_model.py:537-558 | The system's total annual cost is the sum over components of capital cost × total capacity, and its variable opex is 0 |
| OemofModel.ColumnsAnnualCost | model/oemof_model.py:537-558 | The same for the sum of the cost columns, by induction over the components |
| OemofModel.ModelDuration | model/oemof_model.py:576 | The duration is the span in hours rounded to the nearest integer, ties to even |
| OemofModel.Energy | model/oemof_model.py:580-584 | A flow's energy (mean × duration) times the number of time steps is the flow's sum times the duration |
| OemofModel.EnergyScalesTotal | model/oemof_model.py:580-584 | Mean × duration × number of steps = sum × duration |
| OemofModel.SystemKpis | model/oemof_model.py:576-599 | Household, PUE, excess and PV energies are the Energy of their flows over the modelled duration (so each times the step count is the flow's sum × duration), and the battery throughput is half the Energy of the absolute inverter flow; total energy = household + PUE; battery throughput ≥ 0; the peak inverter flow is the maximum exactly when the peak model runs; capacity factor × PV potential = total energy; LCOE × total energy × 8760 = annual cost × duration; each undefined exactly at a zero divisor |
| OemofModel.LcoeRecoversAnnualCost | model/oemof_model.py:598-599 | The LCOE formula recovers the annual cost scaled to the modelled duration |
| OemofModel.DerivedKpis | model/oemof_model.py:590-599 | From the energies: total = household + PUE; capacity factor × PV = total and LCOE × total × 8760 = annual cost × duration, each undefined exactly at a zero divisor |
| OemofModel.OemofModel.constructor | model/oemof_model.py:14-137 | The stored columns, nominals, PV series and component costs are those of the inputs; the total and PUE budgets are fractions of the total and PUE load energies, and the household budget is the corrected one (a fraction of the household energy); results start empty |
| OemofModel.OemofModel.Create | model/oemof_model.py:14-130 | Fails iff the constructor raises, with the same error |
| OemofModel.OemofModel.CalcComponentsCosts | model/oemof_model.py:139-164 | One entry per component, each its specific costs; capital cost = annuity + fixed opex for all |
| OemofModel.OemofModel.ExtractResults | model/oemof_model.py:509-599 | Stores the capacity table, the cost table and the KPIs; total annual cost equals the capital-cost sum |
| DataInput.LastWinsLookup | model/data_input.py:76-111 | A dictionary filled in order holds a key iff some pair has it, with the value of the last such pair |
| DataInput.ToFrame | model/data_input.py:97-103 | Header row as columns, the rest as data; an `index` first column becomes the index |
| DataInput.ToFrameRoundTrip | model/data_input.py:97-103 | Turning the frame back into rows gives the table's cells back |
| DataInput.ValueDict | model/data_input.py:108-111 | A dictionary exists iff the only column is `value` |
| DataInput.ValueDictLookup | model/data_input.py:108-111 | The dictionary holds every row label, mapped to the value of its last row |
| DataInput.EntryOf | model/data_input.py:78-111 | A table's entry records its name, worksheet, column count, range, frame and dictionary |
| DataInput.AllTablesLookup | model/data_input.py:61-115 | The result holds a table name iff some sheet has such a table; a later table of the same name wins |
| DataInput.InputData.GetAllTables | model/data_input.py:61-115 | Returns and stores the tables dictionary; other fields unchanged |
| DataInput.ApplianceList | model/data_input.py:145-164 | Fails with NoApplianceColumn iff there is no `Appliance` column, with DuplicateAppliance iff two non-empty rows share an appliance, and succeeds otherwise; on success every non-empty row is an entry keyed by its appliance, and every key comes from such a row |
| DataInput.PueStep | model/data_input.py:139-176 | `general_input` changes nothing; `appliance_data` reads its tables as appliance lists; any other sheet succeeds iff it has a header row of at least 10 columns, an appliance list was read and names it, failing with EmptySheet iff it has no header row, ApplianceDataUnbound iff no list was read, NotListed iff the list lacks it and TooFewColumns otherwise; on success only that appliance's preferences and monthly variation are set |
| DataInput.SheetBeforeApplianceListFails | model/data_input.py:139-176 | An appliance sheet before `appliance_data` makes reading fail |
| DataInput.InputData.ReadPueInput | model/data_input.py:117-180 | Returns the fold over the sheets and stores the dictionary only on success |
| DataInput.HourlyValue | model/data_input.py:46-47 | The value is the resource table at (hour, weekday); a missing table or cell is an error |
| DataInput.WeekRow | model/data_input.py:50-52 | The week's row when exactly one row has that week; otherwise a missing or duplicate week error |
| DataInput.FirstFailingRow | model/data_input.py:39-54 | The first timestamp whose row cannot be filled, if any |
| DataInput.ZeroColumns | model/data_input.py:26-34 | One zero column of the timeseries' length per hourly id and weekly column, in first-insertion order |
| DataInput.FillHourly | model/data_input.py:46-47 | Sets row i of every hourly column, nothing else; fails on the first missing table |
| DataInput.FillWeekly | model/data_input.py:50-52 | Sets row i of every weekly column from the week's row, nothing else |
| DataInput.FillRow | model/data_input.py:39-54 | Row i of every column gets its cell value; fails iff the row has an error |
| DataInput.InputData.BuildResourceDf | model/data_input.py:19-59 | Fails at the first failing timestamp with its error; otherwise one column per resource, each with the timeseries' length and its cell values row by row |
| RampWindows.OpenRun | model/ramp_control.py:151-158 | The start of the run of preferred hours still open, which is maximal to the left |
| RampWindows.ClosedRunsAreRuns | model/ramp_control.py:151-161 | The closed runs are exactly the maximal runs of preferred hours closed by a non-preferred hour (every closed run is one, and every such run is among them), in order |
| RampWindows.ClosedRunsComplete | model/ramp_control.py:151-161 | Every maximal run of preferred hours closed by a non-preferred hour is among the closed runs |
| RampWindows.EmittedRunsOrdered | model/ramp_control.py:151-173 | Emitted windows are ordered, start at hour 1 or later and end by hour 23 |
| RampWindows.PreferredWindowsOrdered | model/ramp_control.py:141-173 | Windows fill the slots in order without gaps, do not overlap and lie within [60, 1440] minutes |
| RampWindows.MidnightStartSuppressesAll | model/ramp_control.py:152-161 | A run starting at hour 0 (a falsy start) leaves the appliance with no windows |
| RampWindows.LastHourRunNotEmitted | model/ramp_control.py:152-161 | A run starting at hour 23 is never emitted |
| RampWindows.ScanPreferredWindows | model/ramp_control.py:141-173 | The hour loop returns the preferred windows, or the "more than 3 windows" error |
| RampWindows.RandInt | model/ramp_control.py:45-49 | `randint` fails on an empty range and otherwise draws within it |
| RampWindows.DrawWindows | model/ramp_control.py:34-75 | Each given window's start lies within its variability, and window 1's end is exactly end - variability while the others' ends lie within theirs; the count is the number of windows given; fails exactly when a range is empty |
| RampControl.GroupByUserNames | model/ramp_control.py:77-116 | One user per distinct user name, and only those |
| RampControl.GroupByUserAppliances | model/ramp_control.py:77-116 | Each user holds exactly its own appliances, in dictionary order |
| RampControl.NewApplianceOf | model/ramp_control.py:29-112 | Builds an appliance from its data, with the drawn windows and func_time = usage hours × 60 × monthly factor and no window variability; fails exactly when the day or the month is missing or a window's draw range is empty, with the first such error |
| RampControl.NewUseCase | model/ramp_control.py:25-116 | Fails at the first appliance that fails; otherwise a use case of the appliances grouped by user |
| RampControl.RampControl.AddUseCase | model/ramp_control.py:13-120 | Stores the use case under its name and returns the appliance names; on failure nothing changes |
| RampControl.OldApplianceOf | model/ramp_control.py:138-214 | The old-format appliance: scanned windows, start-up and steady powers, preferred or possible usage time |
| RampControl.OldUseCase | model/ramp_control.py:134-218 | Fails with the first failing appliance's error; otherwise groups the appliances by user |
| RampControl.OldFailureStays | model/ramp_control.py:170 | Once an appliance raises, the whole call fails with that error |
| RampControl.RampControl.AddUseCaseOld | model/ramp_control.py:122-222 | Same as AddUseCase for the old format |
| RampControl.Dedup | model/ramp_control.py:227 | The columns are the appliance names once each |
| RampControl.ExtendByAppliances | model/ramp_control.py:237-249 | Each appliance's profile grows by its day (or 1440 zeros); an unknown appliance is a KeyError |
| RampControl.ExtendByUsers | model/ramp_control.py:235-249 | The same over all users of a use case |
| RampControl.ExtendByCases | model/ramp_control.py:229-249 | The same over all use cases in insertion order |
| RampControl.RampControl.RunUseCases | model/ramp_control.py:224-253 | Fails iff an appliance is unknown or a profile's length differs from the timeseries; otherwise one column per appliance holding its concatenated days |
| RampControl.CasesProfileLength | model/ramp_control.py:240-249 | Each occurrence of an appliance adds exactly 1440 minutes |
| RampControl.OneDayPerUseCase | model/ramp_control.py:229-249 | When an appliance occurs once per use case, day d of its profile is use case d's day |
| RampControl.StartUpEvents | model/ramp_control.py:265-271 | After cleaning 0.001 marks, a minute is a switch-on event iff it is non-zero and the previous minute is zero; events keep their value |
| RampControl.ExpandStartUps | model/ramp_control.py:285-303 | Each quiet minute becomes 60 zeros, each event a burst of the start-up peak of the start-up duration at an offset in [0, 60 - duration]; fails when the duration exceeds 60 |
| RampControl.ExpandColumn | model/ramp_control.py:280-303 | One appliance's start-up column expanded with its own peak and duration |
| RampControl.ExpandAll | model/ramp_control.py:280-303 | Every appliance expanded; fails iff some appliance fails |
| RampControl.RampControl.CalculatePeakPowerTimeseries | model/ramp_control.py:255-312 | Fails iff an appliance fails or the seconds index length differs; otherwise the per-second columns, their total and the per-minute maxima |
| RampControl.QuietMinuteHasNoPeak | model/ramp_control.py:288-310 | A minute without any switch-on event has a maximum peak of 0 |
| RampControl.SingleStartUpPeak | model/ramp_control.py:288-310 | A minute with exactly one switch-on event has the appliance's start-up peak as its maximum |

## Left out

- File and workbook I/O are not modelled: `load_workbook`, `pd.read_csv`, `os.listdir`, `to_csv`, the JSON helpers and the progress bars. A workbook is a sequence of sheets of cells, an EDR directory a list of file names, and a file's rows a function of its name.
- Timestamp parsing and calendar arithmetic are inputs. An EDR time is whole seconds plus a millisecond offset. A resource timestamp is given as (hour, weekday, ISO week).
- Resampling (`resample(freq)`, `resample('1h')`, `resample(agg_dur)`) is not modelled. The budgets take the already hourly series; the Pico aggregation takes one interval's samples.
- `np.sqrt` and `np.std` are not modelled: there is no square root over reals. The apparent power S and cos(phi) of the EDR currents, and the per-interval RMS values of the Pico data, are not computed; the RMS values are parameters.
- The outer join of currents and voltages per phase (`read_high_res_data.py:120`) is left out. The model returns the two sorted tables side by side.
- ReadHighResData.CleanCurrents: states only that dropping rows never lengthens the table; which rows survive is stated by CleanCurrentsMembers.
- Building, solving and reading the oemof energy system (`build_energysystem`, `solve`, `solph.views`) are not modelled. The optimised capacities and the flows are inputs to ExtractResults.
- `tariff_data` is not modelled. The `pv_south_exists` flag is only stored.
- `economics.annuity` is a function parameter, because its formula lives in a library.
- OemofModel.SystemKpis: requires every flow column to be non-empty, because the mean of an empty column is NaN in the source.
- RAMP itself is not modelled. `User`, `UseCase` and `add_appliance` are records. An appliance's daily profile is a function of (use case, appliance), and `calc_peak_time_range` has no counterpart.
- RampControl.OldApplianceOf: the old format passes no `num_windows`, so the appliance gets RAMP's default of 1 whatever the scan found. The model records that default and does not model RAMP's own handling of missing windows.
- `random.randint` is nondeterministic choice. RandInt and DrawWindows state the range of the draw, not its distribution.
- NaN end or variability fields of the new format are not modelled. A window is present iff its start is given.
- RampControl.RampControl.CalculatePeakPowerTimeseries: the seconds index is a count that must equal 60 × minutes. The minute-aligned, contiguous index that `resample('min')` relies on is assumed, not checked.
- `build_resource_df` reads `self.input_data_dict`, which no method of `InputData` sets. The model takes those tables as a parameter.
- The in-place `set_index` on the shared weekly-resources frame (`data_input.py:22`) is not modelled.
- Floating-point rounding, overflow and NaN propagation are not modelled: values are reals, and a 0/0 or an all-NaN column is an explicit `None`. A non-zero value divided by 0 (±inf in the source) is also `None`: the factors of Normalise, SystemKpis' capacity factor and its LCOE.
- OemofModel.OemofModel.constructor: stores the corrected household budget (a fraction of the household baseload's energy), not the PUE-based value `model/oemof_model.py:129-130` computes; HouseholdBudgetAsWritten models that value (see Findings).
- ReadHighResData.ReadEdrData: SortBy is a stable sort, so rows with equal timestamps keep their input order; the source's `sort_index` does not promise any order among equal timestamps.
- ReadHighResData.ConvertCurrent: a correction factor of 0 (numpy's division by zero) is excluded, for CleanCurrents, EdrTables and ReadEdrData too.
- RampWindows.DrawWindows: window hours and variabilities are integers (RampWindows.WindowSpec); the source reads them from the sheet as numbers that may be fractional or NaN.

## Findings

| source | as written | input that shows it | evidently intended | confidence | as-written member | corrected member |
|---|---|---|---|---|---|---|
| model/oemof_model.py:129-130 | `unsupplied_household_demand` is a fraction of the PUE load's energy | PUE load [10.0], household load [0.0], `unsupplied_household_demand` = 0.5: the budget is 5.0 while the household energy is 0.0 | a fraction of the household baseload's energy, like the two budgets above it | not executed | OemofModel.HouseholdBudgetAsWrittenExceedsDemand | OemofModel.HouseholdBudgetWithinDemand |
