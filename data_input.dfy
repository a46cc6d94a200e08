/**
 * The spreadsheet input layer (class InputData): turning the cell ranges of a
 * workbook's tables into frames and dictionaries, reading the PUE consumer
 * workbook into one entry per appliance, and building the hourly resource
 * frame from the hourly and weekly resource tables.
 */
module DataInput {
  import opened Wrappers

  /** A spreadsheet cell value; an empty cell (None, NaN in pandas) is Empty. */
  datatype Cell = Empty | Num(real) | Text(string)

  /** A row rowLabel: a position of pandas' default RangeIndex, or the value of an index column. */
  datatype Label = Row(pos: nat) | Named(key: Cell)

  /** A data frame: its column names, the name of its index, one rowLabel per row and the rows' cells. */
  datatype Frame = Frame(columns: seq<Cell>, indexName: Option<Cell>, index: seq<Label>, data: seq<seq<Cell>>)

  /** One rowLabel per row, every row as wide as the column list. */
  predicate WellFormedFrame(f: Frame)
  {
    |f.index| == |f.data| && forall k :: 0 <= k < |f.data| ==> |f.data[k]| == |f.columns|
  }

  // ---------------------------------------------------------------------
  // Dictionaries filled in order
  // ---------------------------------------------------------------------

  /** The dict built by assigning the pairs in order: a later key overwrites an earlier one. */
  function LastWins<K, V>(pairs: seq<(K, V)>): map<K, V>
  {
    if |pairs| == 0 then map[]
    else LastWins(pairs[..|pairs| - 1])[pairs[|pairs| - 1].0 := pairs[|pairs| - 1].1]
  }

  /**
   * A key is in the dict exactly when some pair carries it, and it maps to the
   * value of the last pair that carries it.
   */
  lemma {:induction false} LastWinsLookup<K, V>(pairs: seq<(K, V)>, key: K)
    ensures key in LastWins(pairs) <==> exists k :: 0 <= k < |pairs| && pairs[k].0 == key
    ensures key in LastWins(pairs) ==>
      exists k :: 0 <= k < |pairs| && pairs[k].0 == key && LastWins(pairs)[key] == pairs[k].1
        && forall j :: k < j < |pairs| ==> pairs[j].0 != key
  {
    if |pairs| > 0 {
      var init := pairs[..|pairs| - 1];
      var last := pairs[|pairs| - 1];
      LastWinsLookup(init, key);
      if last.0 == key {
        assert pairs[|pairs| - 1].0 == key;
      } else {
        if exists k :: 0 <= k < |init| && init[k].0 == key {
          var k :| 0 <= k < |init| && init[k].0 == key;
          assert pairs[k].0 == key;
        }
        if exists k :: 0 <= k < |pairs| && pairs[k].0 == key {
          var k :| 0 <= k < |pairs| && pairs[k].0 == key;
          assert init[k].0 == key;
        }
        if key in LastWins(pairs) {
          var k :| 0 <= k < |init| && init[k].0 == key && LastWins(init)[key] == init[k].1
            && forall j :: k < j < |init| ==> init[j].0 != key;
          assert pairs[k] == init[k];
          assert forall j :: k < j < |pairs| ==> pairs[j].0 != key by {
            forall j | k < j < |pairs| ensures pairs[j].0 != key {
              if j < |init| {
                assert pairs[j] == init[j];
              }
            }
          }
        }
      }
    }
  }

  /** LastWins extends by one assignment per pair. */
  lemma LastWinsSnoc<K, V>(pairs: seq<(K, V)>, p: (K, V))
    ensures LastWins(pairs + [p]) == LastWins(pairs)[p.0 := p.1]
  {
    assert (pairs + [p])[..|pairs|] == pairs;
  }

  // ---------------------------------------------------------------------
  // Tables of a workbook
  // ---------------------------------------------------------------------

  /** A cell range as read from the sheet: a header row and data rows, all equally wide, at least one column. */
  predicate Rectangular(rows: seq<seq<Cell>>)
  {
    |rows| > 0 && |rows[0]| > 0 && forall k :: 0 <= k < |rows| ==> |rows[k]| == |rows[0]|
  }

  /**
   * The frame of a table range: the first row names the columns and the
   * remaining rows are the data; a first column named 'index' becomes the
   * row index (and leaves the columns).
   */
  function ToFrame(rows: seq<seq<Cell>>): (f: Frame)
    requires Rectangular(rows)
    ensures WellFormedFrame(f)
    ensures |f.data| == |rows| - 1
    ensures f.indexName.Some? <==> rows[0][0] == Text("index")
  {
    var n := |rows| - 1;
    if rows[0][0] == Text("index") then
      Frame(rows[0][1..], Some(Text("index")),
            seq(n, k requires 0 <= k < n => Named(rows[k + 1][0])),
            seq(n, k requires 0 <= k < n => rows[k + 1][1..]))
    else
      Frame(rows[0], None,
            seq(n, k requires 0 <= k < n => Row(k)),
            seq(n, k requires 0 <= k < n => rows[k + 1]))
  }

  /** The cell range a frame came from: the index column (if any) put back in front, under its name. */
  function FromFrame(f: Frame): seq<seq<Cell>>
    requires WellFormedFrame(f)
  {
    [(if f.indexName.Some? then [f.indexName.value] else []) + f.columns]
    + seq(|f.data|, k requires 0 <= k < |f.data| =>
        (if f.index[k].Named? then [f.index[k].key] else []) + f.data[k])
  }

  /** Converting a table range to a frame loses nothing: the range can be rebuilt from the frame. */
  lemma ToFrameRoundTrip(rows: seq<seq<Cell>>)
    requires Rectangular(rows)
    ensures FromFrame(ToFrame(rows)) == rows
  {
    if rows[0][0] == Text("index") {
      IndexedRoundTrip(rows);
    } else {
      PlainRoundTrip(rows);
    }
  }

  lemma IndexedRoundTrip(rows: seq<seq<Cell>>)
    requires Rectangular(rows) && rows[0][0] == Text("index")
    ensures FromFrame(ToFrame(rows)) == rows
  {
    var f := ToFrame(rows);
    var back := FromFrame(f);
    assert |back| == |rows|;
    assert back[0] == [rows[0][0]] + rows[0][1..] == rows[0];
    forall k | 1 <= k < |rows| ensures back[k] == rows[k] {
      assert f.index[k - 1] == Named(rows[k][0]);
      assert back[k] == [rows[k][0]] + rows[k][1..];
    }
    assert forall k :: 0 <= k < |rows| ==> back[k] == rows[k];
  }

  lemma PlainRoundTrip(rows: seq<seq<Cell>>)
    requires Rectangular(rows) && rows[0][0] != Text("index")
    ensures FromFrame(ToFrame(rows)) == rows
  {
    var f := ToFrame(rows);
    var back := FromFrame(f);
    assert |back| == |rows|;
    assert back[0] == [] + rows[0];
    assert f == Frame(rows[0], None,
                      seq(|rows| - 1, k requires 0 <= k < |rows| - 1 => Row(k)),
                      seq(|rows| - 1, k requires 0 <= k < |rows| - 1 => rows[k + 1]));
    forall k | 1 <= k < |rows| ensures back[k] == rows[k] {
      assert !f.index[k - 1].Named? && f.data[k - 1] == rows[k];
      assert back[k] == [] + rows[k];
    }
    assert forall k :: 0 <= k < |rows| ==> back[k] == rows[k];
  }

  /** The (rowLabel, value) pairs of a single-column frame, in row order. */
  function ValuePairs(f: Frame): seq<(Label, Cell)>
    requires WellFormedFrame(f) && |f.columns| == 1
  {
    seq(|f.data|, k requires 0 <= k < |f.data| => (f.index[k], f.data[k][0]))
  }

  /** `df['value'].to_dict()`, present only for a frame whose single column is named 'value'. */
  function ValueDict(f: Frame): (d: Option<map<Label, Cell>>)
    requires WellFormedFrame(f)
    ensures d.Some? <==> f.columns == [Text("value")]
  {
    if f.columns == [Text("value")] then Some(LastWins(ValuePairs(f))) else None
  }

  /** The value dict maps every row rowLabel, and only those, to the value of the last row with that rowLabel. */
  lemma ValueDictLookup(f: Frame, rowLabel: Label)
    requires WellFormedFrame(f) && f.columns == [Text("value")]
    ensures rowLabel in ValueDict(f).value <==> rowLabel in f.index
    ensures rowLabel in ValueDict(f).value ==>
      exists k :: 0 <= k < |f.data| && f.index[k] == rowLabel && ValueDict(f).value[rowLabel] == f.data[k][0]
        && forall j :: k < j < |f.data| ==> f.index[j] != rowLabel
  {
    var pairs := ValuePairs(f);
    LastWinsLookup(pairs, rowLabel);
    if rowLabel in f.index {
      var k :| 0 <= k < |f.index| && f.index[k] == rowLabel;
      assert pairs[k].0 == rowLabel;
    }
    if rowLabel in ValueDict(f).value {
      var k :| 0 <= k < |pairs| && pairs[k].0 == rowLabel && LastWins(pairs)[rowLabel] == pairs[k].1
        && forall j :: k < j < |pairs| ==> pairs[j].0 != rowLabel;
      assert f.index[k] == rowLabel && ValueDict(f).value[rowLabel] == f.data[k][0];
      assert forall j :: k < j < |f.data| ==> f.index[j] != rowLabel by {
        forall j | k < j < |f.data| ensures f.index[j] != rowLabel {
          assert pairs[j].0 == f.index[j];
        }
      }
    }
  }

  /** A table of a worksheet: its name, its range reference, its declared columns and the cells of its range. */
  datatype RawTable = RawTable(name: string, ref: string, tableColumns: seq<string>, cells: seq<seq<Cell>>)

  /** A worksheet: its name, its tables and all its values row by row. */
  datatype Sheet = Sheet(name: string, tables: seq<RawTable>, values: seq<seq<Cell>>)

  /** Every table range is rectangular, and so is every sheet's block of values. */
  predicate WellFormedWorkbook(wb: seq<Sheet>)
  {
    (forall s :: 0 <= s < |wb| ==> forall t :: 0 <= t < |wb[s].tables| ==> Rectangular(wb[s].tables[t].cells))
    && (forall s :: 0 <= s < |wb| ==> forall k :: 0 <= k < |wb[s].values| ==> |wb[s].values[k]| == |wb[s].values[0]|)
  }

  /** The dictionary entry of one table. */
  datatype TableEntry = TableEntry(
    tableName: string,
    worksheet: string,
    numCols: nat,
    tableRange: string,
    df: Frame,
    dct: Option<map<Label, Cell>>)

  function EntryOf(sheet: string, t: RawTable): (e: TableEntry)
    requires Rectangular(t.cells)
    ensures e.tableName == t.name && e.worksheet == sheet && e.numCols == |t.tableColumns| && e.tableRange == t.ref
    ensures e.df == ToFrame(t.cells) && e.dct == ValueDict(ToFrame(t.cells))
  {
    var df := ToFrame(t.cells);
    TableEntry(t.name, sheet, |t.tableColumns|, t.ref, df, ValueDict(df))
  }

  /** The tables of one sheet, keyed by name, in the sheet's order. */
  function SheetEntries(s: Sheet): seq<(string, TableEntry)>
    requires forall t :: 0 <= t < |s.tables| ==> Rectangular(s.tables[t].cells)
  {
    seq(|s.tables|, t requires 0 <= t < |s.tables| => (s.tables[t].name, EntryOf(s.name, s.tables[t])))
  }

  /** All tables of the workbook in visiting order: sheet by sheet, table by table. */
  function Entries(wb: seq<Sheet>): seq<(string, TableEntry)>
    requires WellFormedWorkbook(wb)
  {
    if |wb| == 0 then []
    else
      assert WellFormedWorkbook(wb[..|wb| - 1]);
      Entries(wb[..|wb| - 1]) + SheetEntries(wb[|wb| - 1])
  }

  /** The tables dictionary of a workbook: every table keyed by name, a later table overwriting an earlier one. */
  function AllTables(wb: seq<Sheet>): map<string, TableEntry>
    requires WellFormedWorkbook(wb)
  {
    LastWins(Entries(wb))
  }

  /**
   * Every table name of the workbook is a key, and its entry describes the
   * last table of that name in visiting order.
   */
  lemma AllTablesLookup(wb: seq<Sheet>, name: string)
    requires WellFormedWorkbook(wb)
    ensures name in AllTables(wb) <==> exists k :: 0 <= k < |Entries(wb)| && Entries(wb)[k].0 == name
    ensures name in AllTables(wb) ==>
      exists k :: 0 <= k < |Entries(wb)| && Entries(wb)[k].0 == name && AllTables(wb)[name] == Entries(wb)[k].1
        && AllTables(wb)[name].tableName == name
        && forall j :: k < j < |Entries(wb)| ==> Entries(wb)[j].0 != name
  {
    LastWinsLookup(Entries(wb), name);
    if name in AllTables(wb) {
      var es := Entries(wb);
      var k :| 0 <= k < |es| && es[k].0 == name && LastWins(es)[name] == es[k].1
        && forall j :: k < j < |es| ==> es[j].0 != name;
      EntriesKeyedByName(wb, k);
    }
  }

  /** Every entry is keyed by its own table name. */
  lemma {:induction false} EntriesKeyedByName(wb: seq<Sheet>, k: int)
    requires WellFormedWorkbook(wb) && 0 <= k < |Entries(wb)|
    ensures Entries(wb)[k].1.tableName == Entries(wb)[k].0
  {
    if |wb| > 0 {
      var init := wb[..|wb| - 1];
      assert WellFormedWorkbook(init);
      if k < |Entries(init)| {
        EntriesKeyedByName(init, k);
      }
    }
  }

  // ---------------------------------------------------------------------
  // The PUE consumer workbook
  // ---------------------------------------------------------------------

  /** The data of one appliance: its row of the appliance list, and the slices of its own sheet. */
  datatype ApplianceEntry = ApplianceEntry(
    properties: map<Cell, Cell>,
    weeklyPreferences: Option<Frame>,
    monthlyVariation: Option<Frame>)

  type PueDict = map<Cell, ApplianceEntry>

  /** The exceptions reading the PUE workbook raises. */
  datatype PueError =
    | NoApplianceColumn            // KeyError: the appliance list has no 'Appliance' column
    | DuplicateAppliance           // ValueError: to_dict('index') on a non-unique index
    | ApplianceDataUnbound         // UnboundLocalError: no appliance list read yet
    | EmptySheet(sheet: string)    // IndexError: a sheet without a header row
    | TooFewColumns(sheet: string) // IndexError: a sheet narrower than the slices it is cut into
    | NotListed(sheet: string)     // UserWarning: the sheet names no listed appliance

  /** The position of the first column with a given name. */
  function ColumnOf(columns: seq<Cell>, name: Cell): (p: nat)
    requires name in columns
    ensures p < |columns| && columns[p] == name && name !in columns[..p]
  {
    if columns[0] == name then 0 else 1 + ColumnOf(columns[1..], name)
  }

  predicate AllEmpty(row: seq<Cell>)
  {
    forall c :: 0 <= c < |row| ==> row[c] == Empty
  }

  /** The data rows of the appliance list that are not entirely empty, in order (dropna(how='all')). */
  function KeptRows(rows: seq<seq<Cell>>): (kept: seq<seq<Cell>>)
    ensures |kept| <= |rows|
    ensures forall r :: r in kept <==> r in rows && !AllEmpty(r)
  {
    if |rows| == 0 then []
    else KeptRows(rows[..|rows| - 1]) + (if AllEmpty(rows[|rows| - 1]) then [] else [rows[|rows| - 1]])
  }

  /** A row of the appliance list as a dict from column name to cell. */
  function RowDict(columns: seq<Cell>, row: seq<Cell>): map<Cell, Cell>
    requires |row| == |columns|
  {
    LastWins(seq(|row|, c requires 0 <= c < |row| => (columns[c], row[c])))
  }

  /** No two of the rows have the same cell in column a. */
  predicate DistinctAt(rows: seq<seq<Cell>>, a: nat)
  {
    forall i, j :: 0 <= i < j < |rows| && a < |rows[i]| && a < |rows[j]| ==> rows[i][a] != rows[j][a]
  }

  /**
   * The appliance list: rows keyed by their 'Appliance' cell (the column
   * stays among the properties), all-empty rows dropped; a missing column
   * or a repeated appliance is an error.
   */
  function ApplianceList(rows: seq<seq<Cell>>): (r: Result<PueDict, PueError>)
    requires Rectangular(rows)
    ensures r == Failure(NoApplianceColumn) <==> Text("Appliance") !in rows[0]
    ensures r == Failure(DuplicateAppliance) <==>
      Text("Appliance") in rows[0] && !DistinctAt(KeptRows(rows[1..]), ColumnOf(rows[0], Text("Appliance")))
    ensures r.Success? <==>
      Text("Appliance") in rows[0] && DistinctAt(KeptRows(rows[1..]), ColumnOf(rows[0], Text("Appliance")))
    ensures r.Success? ==> Text("Appliance") in rows[0]
    ensures r.Success? ==>
      var a := ColumnOf(rows[0], Text("Appliance"));
      forall row :: row in rows[1..] && !AllEmpty(row) ==>
        row[a] in r.value && r.value[row[a]] == ApplianceEntry(RowDict(rows[0], row), None, None)
    ensures r.Success? ==>
      var a := ColumnOf(rows[0], Text("Appliance"));
      forall key :: key in r.value ==> exists row :: row in rows[1..] && !AllEmpty(row) && row[a] == key
  {
    if Text("Appliance") !in rows[0] then Failure(NoApplianceColumn)
    else
      var a := ColumnOf(rows[0], Text("Appliance"));
      var kept := KeptRows(rows[1..]);
      assert forall k :: 0 <= k < |kept| ==> kept[k] in rows[1..];
      if !DistinctAt(kept, a) then Failure(DuplicateAppliance)
      else
        var pairs := seq(|kept|, k requires 0 <= k < |kept| => (kept[k][a], ApplianceEntry(RowDict(rows[0], kept[k]), None, None)));
        ApplianceListFacts(rows, a, kept, pairs);
        Success(LastWins(pairs))
  }

  lemma ApplianceListFacts(rows: seq<seq<Cell>>, a: nat, kept: seq<seq<Cell>>, pairs: seq<(Cell, ApplianceEntry)>)
    requires Rectangular(rows) && a < |rows[0]|
    requires kept == KeptRows(rows[1..])
    requires forall k :: 0 <= k < |kept| ==> kept[k] in rows[1..]
    requires DistinctAt(kept, a)
    requires |pairs| == |kept|
    requires forall k :: 0 <= k < |kept| ==> pairs[k] == (kept[k][a], ApplianceEntry(RowDict(rows[0], kept[k]), None, None))
    ensures forall row :: row in rows[1..] && !AllEmpty(row) ==>
      row[a] in LastWins(pairs) && LastWins(pairs)[row[a]] == ApplianceEntry(RowDict(rows[0], row), None, None)
    ensures forall key :: key in LastWins(pairs) ==> exists row :: row in rows[1..] && !AllEmpty(row) && row[a] == key
  {
    forall row | row in rows[1..] && !AllEmpty(row)
      ensures row[a] in LastWins(pairs) && LastWins(pairs)[row[a]] == ApplianceEntry(RowDict(rows[0], row), None, None)
    {
      assert row in kept;
      var i :| 0 <= i < |kept| && kept[i] == row;
      LastWinsLookup(pairs, row[a]);
      assert pairs[i].0 == row[a];
      var k :| 0 <= k < |pairs| && pairs[k].0 == row[a] && LastWins(pairs)[row[a]] == pairs[k].1;
      assert kept[k][a] == kept[i][a];
      assert k == i;
    }
    forall key | key in LastWins(pairs)
      ensures exists row :: row in rows[1..] && !AllEmpty(row) && row[a] == key
    {
      LastWinsLookup(pairs, key);
      var k :| 0 <= k < |pairs| && pairs[k].0 == key;
      assert kept[k] in kept;
    }
  }

  /** The appliance-list sheet: every table replaces the dict read so far; the first failing table's error. */
  function ApplianceTables(state: Option<PueDict>, tables: seq<RawTable>): (r: Result<Option<PueDict>, PueError>)
    requires forall t :: 0 <= t < |tables| ==> Rectangular(tables[t].cells)
    ensures |tables| == 0 ==> r == Success(state)
    ensures r.Success? && |tables| > 0 ==> r.value.Some? && ApplianceList(tables[|tables| - 1].cells) == Success(r.value.value)
  {
    if |tables| == 0 then Success(state)
    else
      var before := ApplianceTables(state, tables[..|tables| - 1]);
      if before.Failure? then before
      else
        var list := ApplianceList(tables[|tables| - 1].cells);
        if list.Failure? then Failure(list.error) else Success(Some(list.value))
  }

  /** Columns 0-7 of an appliance sheet, indexed by column 0. */
  function WeeklyPreferences(values: seq<seq<Cell>>): (f: Frame)
    requires |values| > 0 && |values[0]| > 0
    requires forall k :: 0 <= k < |values| ==> |values[k]| == |values[0]|
    ensures WellFormedFrame(f) && |f.data| == |values| - 1
    ensures |f.columns| == (if |values[0]| < 8 then |values[0]| else 8) - 1
  {
    var w := if |values[0]| < 8 then |values[0]| else 8;
    var n := |values| - 1;
    Frame(values[0][1..w], Some(values[0][0]),
          seq(n, k requires 0 <= k < n => Named(values[k + 1][0])),
          seq(n, k requires 0 <= k < n => values[k + 1][1..w]))
  }

  /** Rows 0-11 and columns 9-11 of an appliance sheet, indexed by column 9. */
  function MonthlyVariation(values: seq<seq<Cell>>): (f: Frame)
    requires |values| > 0 && |values[0]| >= 10
    requires forall k :: 0 <= k < |values| ==> |values[k]| == |values[0]|
    ensures WellFormedFrame(f) && |f.data| <= 12 && |f.columns| <= 2
  {
    var w := if |values[0]| < 12 then |values[0]| else 12;
    var n := if |values| - 1 < 12 then |values| - 1 else 12;
    Frame(values[0][10..w], Some(values[0][9]),
          seq(n, k requires 0 <= k < n => Named(values[k + 1][9])),
          seq(n, k requires 0 <= k < n => values[k + 1][10..w]))
  }

  /**
   * One sheet of the PUE workbook: 'general_input' is skipped, 'appliance_data'
   * (re)reads the appliance list, and any other sheet attaches its weekly
   * preferences and monthly variation to the appliance it is named after.
   */
  function PueStep(state: Option<PueDict>, s: Sheet): (r: Result<Option<PueDict>, PueError>)
    requires forall t :: 0 <= t < |s.tables| ==> Rectangular(s.tables[t].cells)
    requires forall k :: 0 <= k < |s.values| ==> |s.values[k]| == |s.values[0]|
    ensures s.name == "general_input" ==> r == Success(state)
    ensures s.name == "appliance_data" ==> r == ApplianceTables(state, s.tables)
    ensures s.name != "general_input" && s.name != "appliance_data" ==>
      (r.Success? <==> |s.values| > 0 && |s.values[0]| >= 10 && state.Some? && Text(s.name) in state.value)
    ensures s.name != "general_input" && s.name != "appliance_data" ==>
      (r == Failure(EmptySheet(s.name)) <==> |s.values| == 0)
    ensures s.name != "general_input" && s.name != "appliance_data" ==>
      (r == Failure(ApplianceDataUnbound) <==> |s.values| > 0 && |s.values[0]| > 0 && state.None?)
    ensures s.name != "general_input" && s.name != "appliance_data" ==>
      (r == Failure(NotListed(s.name)) <==>
        |s.values| > 0 && |s.values[0]| > 0 && state.Some? && Text(s.name) !in state.value)
    ensures s.name != "general_input" && s.name != "appliance_data" && r.Success? ==>
      |s.values| > 0 && |s.values[0]| >= 10 && state.Some? && Text(s.name) in state.value && r.value.Some?
      && r.value.value.Keys == state.value.Keys
      && r.value.value[Text(s.name)] == state.value[Text(s.name)].(
           weeklyPreferences := Some(WeeklyPreferences(s.values)),
           monthlyVariation := Some(MonthlyVariation(s.values)))
      && forall key :: key in state.value && key != Text(s.name) ==> r.value.value[key] == state.value[key]
  {
    if s.name == "general_input" then Success(state)
    else if s.name == "appliance_data" then ApplianceTables(state, s.tables)
    else if |s.values| == 0 then Failure(EmptySheet(s.name))
    else if |s.values[0]| == 0 then Failure(TooFewColumns(s.name))
    else if state.None? then Failure(ApplianceDataUnbound)
    else if Text(s.name) !in state.value then Failure(NotListed(s.name))
    else if |s.values[0]| < 10 then Failure(TooFewColumns(s.name))
    else
      var d := state.value;
      var entry := d[Text(s.name)];
      Success(Some(d[Text(s.name) := entry.(
        weeklyPreferences := Some(WeeklyPreferences(s.values)),
        monthlyVariation := Some(MonthlyVariation(s.values)))]))
  }

  /** The dict after the given sheets (None while no appliance list has been read), or the first error. */
  function PueFold(wb: seq<Sheet>): Result<Option<PueDict>, PueError>
    requires WellFormedWorkbook(wb)
  {
    if |wb| == 0 then Success(None)
    else
      assert WellFormedWorkbook(wb[..|wb| - 1]);
      var before := PueFold(wb[..|wb| - 1]);
      if before.Failure? then before else PueStep(before.value, wb[|wb| - 1])
  }

  /** The result of reading the PUE workbook: the dict after the last sheet; unbound if never read. */
  function PueInput(wb: seq<Sheet>): Result<PueDict, PueError>
    requires WellFormedWorkbook(wb)
  {
    var r := PueFold(wb);
    if r.Failure? then Failure(r.error)
    else if r.value.None? then Failure(ApplianceDataUnbound)
    else Success(r.value.value)
  }

  /** A workbook whose first sheet is neither skipped nor the appliance list fails: no appliance list is bound yet. */
  lemma SheetBeforeApplianceListFails(wb: seq<Sheet>)
    requires WellFormedWorkbook(wb) && |wb| > 0
    requires wb[0].name != "general_input" && wb[0].name != "appliance_data"
    ensures PueInput(wb).Failure?
  {
    assert WellFormedWorkbook(wb[..1]);
    assert wb[..1][..0] == [];
    assert PueFold(wb[..1]) == PueStep(None, wb[0]);
    PueFoldKeepsFailure(wb, 1);
  }

  // ---------------------------------------------------------------------
  // The hourly resource frame
  // ---------------------------------------------------------------------

  /** A timestamp of the model's index, decoded: hour of day, day of week (Monday = 0), ISO week. */
  datatype Stamp = Stamp(hour: nat, weekday: nat, isoWeek: int)

  /**
   * The resource tables: the hourly resource ids (the first column of the
   * hourly resource list, in row order), each hourly resource's table by
   * [hour][weekday], and the weekly table (its first column, the week
   * number, made its index; its other columns, one per weekly resource).
   */
  datatype ResourceTables = ResourceTables(
    hourlyIds: seq<Cell>,
    hourly: map<Cell, seq<seq<real>>>,
    weeklyColumns: seq<Cell>,
    weeks: seq<int>,
    weekly: seq<seq<real>>)

  /** One row per week rowLabel, one value per weekly column, and distinct weekly column names. */
  predicate WellFormedTables(t: ResourceTables)
  {
    |t.weekly| == |t.weeks|
    && (forall p :: 0 <= p < |t.weekly| ==> |t.weekly[p]| == |t.weeklyColumns|)
    && (forall i, j :: 0 <= i < j < |t.weeklyColumns| ==> t.weeklyColumns[i] != t.weeklyColumns[j])
  }

  /** The lookup errors building the resource frame raises. */
  datatype ResourceError =
    | MissingTable(id: Cell)                           // KeyError: no table for an hourly resource
    | OutOfRange(id: Cell, hour: nat, weekday: nat)    // IndexError: the table is too small
    | MissingWeek(week: int)                           // KeyError: the week is not in the weekly table
    | DuplicateWeek(week: int)                         // the week labels more than one row

  /** An hourly resource's value at a timestamp: its table's entry at [hour][weekday]. */
  function HourlyValue(t: ResourceTables, id: Cell, s: Stamp): (r: Result<real, ResourceError>)
    ensures r.Success? <==> id in t.hourly && s.hour < |t.hourly[id]| && s.weekday < |t.hourly[id][s.hour]|
    ensures r.Success? ==> r.value == t.hourly[id][s.hour][s.weekday]
    ensures r == Failure(MissingTable(id)) <==> id !in t.hourly
  {
    if id !in t.hourly then Failure(MissingTable(id))
    else if s.hour < |t.hourly[id]| && s.weekday < |t.hourly[id][s.hour]| then Success(t.hourly[id][s.hour][s.weekday])
    else Failure(OutOfRange(id, s.hour, s.weekday))
  }

  /** The positions of the rows labelled with a given week, in order. */
  function WeekRows(weeks: seq<int>, w: int): (ps: seq<nat>)
    ensures forall k :: 0 <= k < |ps| ==> ps[k] < |weeks| && weeks[ps[k]] == w
    ensures forall p :: 0 <= p < |weeks| && weeks[p] == w ==> p in ps
    ensures forall i, j :: 0 <= i < j < |ps| ==> ps[i] < ps[j]
  {
    if |weeks| == 0 then []
    else WeekRows(weeks[..|weeks| - 1], w) + (if weeks[|weeks| - 1] == w then [|weeks| - 1] else [])
  }

  /** `.loc[week]`: the one row labelled with the week; none is a KeyError, several cannot be stored in one cell. */
  function WeekRow(weeks: seq<int>, w: int): (r: Result<nat, ResourceError>)
    ensures r == Failure(MissingWeek(w)) <==> w !in weeks
    ensures r.Success? ==> (r.value < |weeks| && weeks[r.value] == w
      && forall p :: 0 <= p < |weeks| && weeks[p] == w ==> p == r.value)
    ensures r.Failure? ==> r.error == MissingWeek(w) || r.error == DuplicateWeek(w)
  {
    var ps := WeekRows(weeks, w);
    WeekRowsFacts(weeks, w, ps);
    if |ps| == 0 then Failure(MissingWeek(w))
    else if |ps| > 1 then Failure(DuplicateWeek(w))
    else Success(ps[0])
  }

  lemma WeekRowsFacts(weeks: seq<int>, w: int, ps: seq<nat>)
    requires ps == WeekRows(weeks, w)
    ensures |ps| == 0 <==> w !in weeks
    ensures |ps| == 1 ==> ps[0] < |weeks| && weeks[ps[0]] == w
    ensures |ps| == 1 ==> forall p :: 0 <= p < |weeks| && weeks[p] == w ==> p == ps[0]
  {
    WeekRowsEmpty(weeks, w, ps);
    if |ps| == 1 {
      WeekRowsSingle(weeks, w, ps);
    }
  }

  lemma WeekRowsEmpty(weeks: seq<int>, w: int, ps: seq<nat>)
    requires forall k :: 0 <= k < |ps| ==> ps[k] < |weeks| && weeks[ps[k]] == w
    requires forall p :: 0 <= p < |weeks| && weeks[p] == w ==> p in ps
    ensures |ps| == 0 <==> w !in weeks
  {
    if w in weeks {
      var p :| 0 <= p < |weeks| && weeks[p] == w;
      assert p in ps;
    }
    if |ps| > 0 {
      assert weeks[ps[0]] == w;
    }
  }

  lemma WeekRowsSingle(weeks: seq<int>, w: int, ps: seq<nat>)
    requires |ps| == 1
    requires forall p :: 0 <= p < |weeks| && weeks[p] == w ==> p in ps
    ensures forall p :: 0 <= p < |weeks| && weeks[p] == w ==> p == ps[0]
  {
    assert ps == [ps[0]];
  }

  /** The first failing hourly lookup among the given ids, in order. */
  function HourlyError(t: ResourceTables, ids: seq<Cell>, s: Stamp): (e: Option<ResourceError>)
    ensures e.None? <==> forall k :: 0 <= k < |ids| ==> HourlyValue(t, ids[k], s).Success?
  {
    if |ids| == 0 then None
    else
      var before := HourlyError(t, ids[..|ids| - 1], s);
      if before.Some? then before
      else
        var v := HourlyValue(t, ids[|ids| - 1], s);
        if v.Failure? then Some(v.error) else None
  }

  /** The first failing lookup of a row: hourly resources first, then the week (looked up for each weekly column). */
  function RowError(t: ResourceTables, s: Stamp): (e: Option<ResourceError>)
  {
    var h := HourlyError(t, t.hourlyIds, s);
    if h.Some? then h
    else if |t.weeklyColumns| > 0 && WeekRow(t.weeks, s.isoWeek).Failure? then Some(WeekRow(t.weeks, s.isoWeek).error)
    else None
  }

  /** The columns of the frame in creation order: hourly ids, then weekly columns, each name once. */
  function ColumnOrder(names: seq<Cell>): (order: seq<Cell>)
    ensures forall c :: c in order <==> c in names
    ensures forall i, j :: 0 <= i < j < |order| ==> order[i] != order[j]
  {
    if |names| == 0 then []
    else
      var before := ColumnOrder(names[..|names| - 1]);
      var last := names[|names| - 1];
      if last in before then before else before + [last]
  }

  /** A resource's value at a row whose lookups succeed: the weekly value where the name is a weekly column, else the hourly one. */
  function CellValue(t: ResourceTables, c: Cell, s: Stamp): real
    requires WellFormedTables(t)
    requires RowError(t, s).None?
    requires c in t.hourlyIds || c in t.weeklyColumns
  {
    if c in t.weeklyColumns then
      var j := ColumnOf(t.weeklyColumns, c);
      t.weekly[WeekRow(t.weeks, s.isoWeek).value][j]
    else
      HourlyValue(t, c, s).value
  }

  /** The resource frame: its columns in creation order and each column's values by row position. */
  datatype ResourceFrame = ResourceFrame(columns: seq<Cell>, data: map<Cell, seq<real>>)

  /** The first row whose lookups fail, if any. */
  function FirstFailingRow(t: ResourceTables, ts: seq<Stamp>): (i: Option<nat>)
    ensures i.None? <==> forall k :: 0 <= k < |ts| ==> RowError(t, ts[k]).None?
    ensures i.Some? ==> (i.value < |ts| && RowError(t, ts[i.value]).Some?
      && forall k :: 0 <= k < i.value ==> RowError(t, ts[k]).None?)
  {
    if |ts| == 0 then None
    else if RowError(t, ts[0]).Some? then Some(0)
    else
      var rest := FirstFailingRow(t, ts[1..]);
      if rest.None? then None else Some(rest.value + 1)
  }

  function Zeros(n: nat): (z: seq<real>)
    ensures |z| == n && forall k :: 0 <= k < n ==> z[k] == 0.0
  {
    seq(n, k => 0.0)
  }

  // ---------------------------------------------------------------------
  // The input object
  // ---------------------------------------------------------------------

  class InputData {
    var resourceDf: Option<ResourceFrame>
    var pueInputDict: Option<PueDict>
    var tablesDict: Option<map<string, TableEntry>>

    constructor ()
      ensures resourceDf.None? && pueInputDict.None? && tablesDict.None?
    {
      resourceDf := None;
      pueInputDict := None;
      tablesDict := None;
    }

    /**
     * Reads every table of the workbook, sheet by sheet, into the tables
     * dictionary and stores it.
     */
    method GetAllTables(wb: seq<Sheet>) returns (tables: map<string, TableEntry>)
      requires WellFormedWorkbook(wb)
      modifies this
      ensures tables == AllTables(wb)
      ensures tablesDict == Some(tables)
      ensures resourceDf == old(resourceDf) && pueInputDict == old(pueInputDict)
    {
      tables := map[];
      var i := 0;
      while i < |wb|
        invariant 0 <= i <= |wb|
        invariant WellFormedWorkbook(wb[..i])
        invariant tables == LastWins(Entries(wb[..i]))
        invariant resourceDf == old(resourceDf) && pueInputDict == old(pueInputDict)
      {
        var sheet := wb[i];
        assert wb[..i + 1][..i] == wb[..i];
        assert wb[..i + 1][i] == sheet;
        assert WellFormedWorkbook(wb[..i + 1]);
        tables := AddSheetTables(tables, Entries(wb[..i]), sheet);
        assert Entries(wb[..i + 1]) == Entries(wb[..i]) + SheetEntries(sheet);
        i := i + 1;
      }
      assert wb[..i] == wb;
      tablesDict := Some(tables);
    }

    /**
     * Reads the PUE consumer workbook sheet by sheet and stores the resulting
     * dict; on an error nothing is stored.
     */
    method ReadPueInput(wb: seq<Sheet>) returns (r: Result<PueDict, PueError>)
      requires WellFormedWorkbook(wb)
      modifies this
      ensures r == PueInput(wb)
      ensures r.Success? ==> pueInputDict == Some(r.value)
      ensures r.Failure? ==> pueInputDict == old(pueInputDict)
      ensures resourceDf == old(resourceDf) && tablesDict == old(tablesDict)
    {
      var state: Option<PueDict> := None;
      var i := 0;
      while i < |wb|
        invariant 0 <= i <= |wb|
        invariant WellFormedWorkbook(wb[..i])
        invariant PueFold(wb[..i]) == Success(state)
      {
        assert wb[..i + 1][..i] == wb[..i];
        assert WellFormedWorkbook(wb[..i + 1]);
        var step := PueStep(state, wb[i]);
        if step.Failure? {
          assert PueFold(wb[..i + 1]) == step;
          PueFoldKeepsFailure(wb, i + 1);
          return Failure(step.error);
        }
        state := step.value;
        i := i + 1;
      }
      assert wb[..i] == wb;
      if state.None? {
        return Failure(ApplianceDataUnbound);
      }
      pueInputDict := state;
      return Success(state.value);
    }

    /**
     * Builds the resource frame over the given timestamps: one zero column
     * per hourly resource id and per weekly column, then row by row the
     * hourly values from [hour][weekday] and the weekly values from the
     * timestamp's ISO week. The first failing lookup is returned instead.
     */
    method BuildResourceDf(t: ResourceTables, ts: seq<Stamp>) returns (r: Result<ResourceFrame, ResourceError>)
      requires WellFormedTables(t)
      ensures r.Failure? <==> FirstFailingRow(t, ts).Some?
      ensures r.Failure? ==> r.error == RowError(t, ts[FirstFailingRow(t, ts).value]).value
      ensures r.Success? ==> r.value.columns == ColumnOrder(t.hourlyIds + t.weeklyColumns)
      ensures r.Success? ==> forall c :: c in r.value.data <==> c in r.value.columns
      ensures r.Success? ==> forall c :: c in r.value.data ==> |r.value.data[c]| == |ts|
      ensures r.Success? ==> forall c, i :: c in r.value.data && 0 <= i < |ts| ==>
        r.value.data[c][i] == CellValue(t, c, ts[i])
    {
      var n := |ts|;
      var names := t.hourlyIds + t.weeklyColumns;
      var cols, order := ZeroColumns(names, n);
      var i := 0;
      while i < n
        invariant 0 <= i <= n
        invariant forall c :: c in cols <==> c in names
        invariant forall c :: c in cols ==> |cols[c]| == n
        invariant forall k :: 0 <= k < i ==> RowError(t, ts[k]).None?
        invariant forall c, k :: c in cols && 0 <= k < i ==> cols[c][k] == CellValue(t, c, ts[k])
      {
        var filled := FillRow(t, ts[i], i, n, cols);
        if filled.Failure? {
          FirstFailingRowAt(t, ts, i);
          return Failure(filled.error);
        }
        RowFilled(t, ts, i, n, cols, filled.value);
        cols := filled.value;
        i := i + 1;
      }
      FirstFailingRowNone(t, ts);
      r := Success(ResourceFrame(order, cols));
    }
  }

  /** Adds the tables of one sheet, in order, to the tables dictionary read so far. */
  method AddSheetTables(tables: map<string, TableEntry>, ghost prefix: seq<(string, TableEntry)>, sheet: Sheet)
    returns (out: map<string, TableEntry>)
    requires forall t :: 0 <= t < |sheet.tables| ==> Rectangular(sheet.tables[t].cells)
    requires tables == LastWins(prefix)
    ensures out == LastWins(prefix + SheetEntries(sheet))
  {
    out := tables;
    var j := 0;
    assert prefix + SheetEntries(sheet)[..0] == prefix;
    while j < |sheet.tables|
      invariant 0 <= j <= |sheet.tables|
      invariant out == LastWins(prefix + SheetEntries(sheet)[..j])
    {
      var tbl := sheet.tables[j];
      var entry := EntryOf(sheet.name, tbl);
      LastWinsSnoc(prefix + SheetEntries(sheet)[..j], (tbl.name, entry));
      assert prefix + SheetEntries(sheet)[..j + 1] == prefix + SheetEntries(sheet)[..j] + [(tbl.name, entry)];
      out := out[tbl.name := entry];
      j := j + 1;
    }
    assert SheetEntries(sheet)[..j] == SheetEntries(sheet);
  }

  /** One zero column per name, and the names in first-creation order. */
  method ZeroColumns(names: seq<Cell>, n: nat) returns (cols: map<Cell, seq<real>>, order: seq<Cell>)
    ensures forall c :: c in cols <==> c in names
    ensures forall c :: c in cols ==> cols[c] == Zeros(n)
    ensures order == ColumnOrder(names)
  {
    cols := map[];
    order := [];
    var j := 0;
    while j < |names|
      invariant 0 <= j <= |names|
      invariant forall c :: c in cols <==> c in names[..j]
      invariant forall c :: c in cols ==> cols[c] == Zeros(n)
      invariant order == ColumnOrder(names[..j])
    {
      ColumnOrderStep(names, j);
      if names[j] !in cols {
        order := order + [names[j]];
      }
      cols := cols[names[j] := Zeros(n)];
      j := j + 1;
    }
    assert names[..j] == names;
  }

  /** One more name: it joins the order unless already there. */
  lemma ColumnOrderStep(names: seq<Cell>, j: nat)
    requires j < |names|
    ensures forall c :: c in names[..j + 1] <==> c in names[..j] || c == names[j]
    ensures ColumnOrder(names[..j + 1]) ==
      if names[j] in names[..j] then ColumnOrder(names[..j]) else ColumnOrder(names[..j]) + [names[j]]
  {
    assert names[..j + 1][..j] == names[..j];
    assert names[..j + 1] == names[..j] + [names[j]];
  }

  /** Columns of equal length n whose rows other than i are unchanged. */
  predicate SameOutsideRow(before: map<Cell, seq<real>>, after: map<Cell, seq<real>>, i: nat, n: nat)
  {
    after.Keys == before.Keys
    && (forall c :: c in after ==> |after[c]| == n)
    && (forall c, k :: c in after && 0 <= k < n && k != i && |before[c]| == n ==> after[c][k] == before[c][k])
  }

  /** Writes row i of every hourly resource column, stopping at the first failing lookup. */
  method FillHourly(t: ResourceTables, s: Stamp, i: nat, n: nat, cols: map<Cell, seq<real>>)
    returns (r: Result<map<Cell, seq<real>>, ResourceError>)
    requires i < n
    requires forall c :: c in t.hourlyIds ==> c in cols
    requires forall c :: c in cols ==> |cols[c]| == n
    ensures r.Failure? <==> HourlyError(t, t.hourlyIds, s).Some?
    ensures r.Failure? ==> r.error == HourlyError(t, t.hourlyIds, s).value
    ensures r.Success? ==> SameOutsideRow(cols, r.value, i, n)
    ensures r.Success? ==> forall c :: c in cols && c !in t.hourlyIds ==> r.value[c] == cols[c]
    ensures r.Success? ==> forall k :: 0 <= k < |t.hourlyIds| ==>
      r.value[t.hourlyIds[k]][i] == HourlyValue(t, t.hourlyIds[k], s).value
  {
    var out := cols;
    var h := 0;
    while h < |t.hourlyIds|
      invariant 0 <= h <= |t.hourlyIds|
      invariant SameOutsideRow(cols, out, i, n)
      invariant forall c :: c in cols && c !in t.hourlyIds ==> out[c] == cols[c]
      invariant HourlyError(t, t.hourlyIds[..h], s).None?
      invariant forall k :: 0 <= k < h ==> out[t.hourlyIds[k]][i] == HourlyValue(t, t.hourlyIds[k], s).value
    {
      var id := t.hourlyIds[h];
      var v := HourlyValue(t, id, s);
      assert t.hourlyIds[..h + 1][..h] == t.hourlyIds[..h];
      if v.Failure? {
        assert HourlyError(t, t.hourlyIds[..h + 1], s) == Some(v.error);
        HourlyErrorExtends(t, t.hourlyIds, h + 1, s);
        return Failure(v.error);
      }
      out := out[id := out[id][i := v.value]];
      h := h + 1;
    }
    assert t.hourlyIds[..h] == t.hourlyIds;
    return Success(out);
  }

  /** Writes row i of every weekly resource column from the week's row, failing when the week's lookup fails. */
  method FillWeekly(t: ResourceTables, s: Stamp, i: nat, n: nat, cols: map<Cell, seq<real>>)
    returns (r: Result<map<Cell, seq<real>>, ResourceError>)
    requires WellFormedTables(t) && i < n
    requires forall c :: c in t.weeklyColumns ==> c in cols
    requires forall c :: c in cols ==> |cols[c]| == n
    ensures r.Failure? <==> |t.weeklyColumns| > 0 && WeekRow(t.weeks, s.isoWeek).Failure?
    ensures r.Failure? ==> r.error == WeekRow(t.weeks, s.isoWeek).error
    ensures r.Success? ==> SameOutsideRow(cols, r.value, i, n)
    ensures r.Success? ==> forall c :: c in cols && c !in t.weeklyColumns ==> r.value[c] == cols[c]
    ensures r.Success? ==> forall k :: 0 <= k < |t.weeklyColumns| ==>
      WeekRow(t.weeks, s.isoWeek).Success? && r.value[t.weeklyColumns[k]][i] == t.weekly[WeekRow(t.weeks, s.isoWeek).value][k]
  {
    var out := cols;
    var w := 0;
    while w < |t.weeklyColumns|
      invariant 0 <= w <= |t.weeklyColumns|
      invariant SameOutsideRow(cols, out, i, n)
      invariant forall c :: c in cols && c !in t.weeklyColumns ==> out[c] == cols[c]
      invariant w > 0 ==> WeekRow(t.weeks, s.isoWeek).Success?
      invariant forall k :: 0 <= k < w ==> out[t.weeklyColumns[k]][i] == t.weekly[WeekRow(t.weeks, s.isoWeek).value][k]
    {
      var c := t.weeklyColumns[w];
      var p := WeekRow(t.weeks, s.isoWeek);
      if p.Failure? {
        return Failure(p.error);
      }
      assert forall k :: 0 <= k < w ==> t.weeklyColumns[k] != c;
      out := out[c := out[c][i := t.weekly[p.value][w]]];
      w := w + 1;
    }
    return Success(out);
  }

  /** Writes row i of the frame: the hourly resources first, then the weekly ones. */
  method FillRow(t: ResourceTables, s: Stamp, i: nat, n: nat, cols: map<Cell, seq<real>>)
    returns (r: Result<map<Cell, seq<real>>, ResourceError>)
    requires WellFormedTables(t) && i < n
    requires forall c :: c in cols <==> c in t.hourlyIds + t.weeklyColumns
    requires forall c :: c in cols ==> |cols[c]| == n
    ensures r.Failure? <==> RowError(t, s).Some?
    ensures r.Failure? ==> r.error == RowError(t, s).value
    ensures r.Success? ==> SameOutsideRow(cols, r.value, i, n)
    ensures r.Success? ==> forall c :: c in r.value ==> r.value[c][i] == CellValue(t, c, s)
  {
    var hourly := FillHourly(t, s, i, n, cols);
    if hourly.Failure? {
      return Failure(hourly.error);
    }
    var weekly := FillWeekly(t, s, i, n, hourly.value);
    if weekly.Failure? {
      return Failure(weekly.error);
    }
    var out := weekly.value;
    assert RowError(t, s).None?;
    forall c | c in out ensures out[c][i] == CellValue(t, c, s) {
      if c in t.weeklyColumns {
        var j := ColumnOf(t.weeklyColumns, c);
        assert out[t.weeklyColumns[j]][i] == t.weekly[WeekRow(t.weeks, s.isoWeek).value][j];
      } else {
        var k :| 0 <= k < |t.hourlyIds| && t.hourlyIds[k] == c;
        assert out[c] == hourly.value[c];
      }
    }
    return Success(out);
  }

  /** Once an earlier sheet fails, reading the whole workbook fails with that error. */
  lemma {:induction false} PueFoldKeepsFailure(wb: seq<Sheet>, i: nat)
    requires WellFormedWorkbook(wb) && 0 < i <= |wb|
    requires assert WellFormedWorkbook(wb[..i]); PueFold(wb[..i]).Failure?
    ensures PueInput(wb) == Failure((assert WellFormedWorkbook(wb[..i]); PueFold(wb[..i]).error))
    decreases |wb| - i
  {
    assert WellFormedWorkbook(wb[..i]);
    if i == |wb| {
      assert wb[..i] == wb;
    } else {
      assert wb[..i + 1][..i] == wb[..i];
      assert WellFormedWorkbook(wb[..i + 1]);
      PueFoldKeepsFailure(wb, i + 1);
    }
  }

  /** A failing hourly lookup among the first ids is the first error of the whole list. */
  lemma {:induction false} HourlyErrorExtends(t: ResourceTables, ids: seq<Cell>, h: nat, s: Stamp)
    requires 0 < h <= |ids|
    requires HourlyError(t, ids[..h], s).Some?
    ensures HourlyError(t, ids, s) == HourlyError(t, ids[..h], s)
    decreases |ids| - h
  {
    if h == |ids| {
      assert ids[..h] == ids;
    } else {
      assert ids[..h + 1][..h] == ids[..h];
      HourlyErrorExtends(t, ids, h + 1, s);
    }
  }

  /** A failing row after successful ones is the first failing row. */
  /** Filling row i keeps the rows above it and completes row i. */
  lemma RowFilled(t: ResourceTables, ts: seq<Stamp>, i: nat, n: nat, before: map<Cell, seq<real>>, after: map<Cell, seq<real>>)
    requires WellFormedTables(t) && i < n <= |ts|
    requires forall k :: 0 <= k < i + 1 ==> RowError(t, ts[k]).None?
    requires forall c :: c in before <==> c in t.hourlyIds + t.weeklyColumns
    requires forall c :: c in before ==> |before[c]| == n
    requires forall c, k :: c in before && 0 <= k < i ==> before[c][k] == CellValue(t, c, ts[k])
    requires SameOutsideRow(before, after, i, n)
    requires forall c :: c in after ==> after[c][i] == CellValue(t, c, ts[i])
    ensures forall c, k :: c in after && 0 <= k < i + 1 ==> after[c][k] == CellValue(t, c, ts[k])
  {
    forall c, k | c in after && 0 <= k < i + 1 ensures after[c][k] == CellValue(t, c, ts[k]) {
      if k < i {
        assert after[c][k] == before[c][k];
      }
    }
  }

  lemma FirstFailingRowAt(t: ResourceTables, ts: seq<Stamp>, i: nat)
    requires i < |ts| && RowError(t, ts[i]).Some?
    requires forall k :: 0 <= k < i ==> RowError(t, ts[k]).None?
    ensures FirstFailingRow(t, ts) == Some(i)
  {
  }

  lemma FirstFailingRowNone(t: ResourceTables, ts: seq<Stamp>)
    requires forall k :: 0 <= k < |ts| ==> RowError(t, ts[k]).None?
    ensures FirstFailingRow(t, ts).None?
  {
  }
}
