/**
 * load_employees and get_employees (app.py): the allocation dataset grouped
 * per employee, with CPC columns, the roster views and the FTE column of the
 * selected period.
 */
module LoadEmployees {
  import opened Wrappers
  import opened PyNum
  import opened Grouping
  import opened Allocation
  import Seqs

  /** A row of grouped_df: the key fields, the summed figures, the id and CPC_M1..CPC_QTR. */
  datatype GroupedEmployee = GroupedEmployee(
    key: EmployeeKey, totals: Measures, id: string,
    cpcM1: Num, cpcM2: Num, cpcM3: Num, cpcQtr: Num)

  /** A row once every column from TotalFTECapped_M1 on, except id, is dropped. */
  datatype EmployeeView = EmployeeView(key: EmployeeKey, alloc: Quad, id: string)

  /** The three frames load_employees returns: grouped_df, filtered_df, without_ctc. */
  datatype Views = Views(grouped: seq<GroupedEmployee>, filtered: seq<EmployeeView>, withoutCtc: seq<EmployeeView>)

  /** A file row takes part in the grouping: its BillableYN maps to a billable text. */
  predicate Grouped(row: RawRow)
  {
    MappedKey(row).Some?
  }

  /** The grouping row of a file row: its mapped key cells and its twelve figures. */
  function LoadRowOf(row: RawRow): Row
    requires Grouped(row)
  {
    Row(KeyCells(MappedKey(row).value), ToVec(row.measures))
  }

  /**
   * The rows as load_employees groups them: the file rows whose BillableYN
   * is Y or N, in file order, each with its mapped key; the others are
   * dropped (LoadRowsContents, LoadRowsKeys).
   */
  function LoadRows(rows: seq<RawRow>): (r: seq<Row>)
    ensures Width(r, 12) && |r| <= |rows|
    ensures forall i :: 0 <= i < |r| ==> r[i].key == KeyCells(KeyOfCells(r[i].key))
  {
    if rows == [] then []
    else
      var rest := LoadRows(rows[1..]);
      match MappedKey(rows[0])
      case None => rest
      case Some(k0) =>
        var r := [LoadRowOf(rows[0])] + rest;
        assert forall i :: 0 < i < |r| ==> r[i] == rest[i - 1];
        r
  }

  /** One file row more: the grouping rows and the kept file rows each gain that row in front, or neither does. */
  lemma LoadRowsContentsCons(rows: seq<RawRow>)
    requires rows != []
    ensures Grouped(rows[0]) ==> LoadRows(rows) == [LoadRowOf(rows[0])] + LoadRows(rows[1..])
    ensures Grouped(rows[0]) ==> Seqs.Filter(rows, Grouped) == [rows[0]] + Seqs.Filter(rows[1..], Grouped)
    ensures !Grouped(rows[0]) ==> LoadRows(rows) == LoadRows(rows[1..]) && Seqs.Filter(rows, Grouped) == Seqs.Filter(rows[1..], Grouped)
  {
  }

  /** The grouping rows are the kept file rows, one for one and in file order, each with its key and figures. */
  lemma {:induction false} LoadRowsContents(rows: seq<RawRow>)
    ensures |LoadRows(rows)| == |Seqs.Filter(rows, Grouped)|
    ensures forall i :: 0 <= i < |LoadRows(rows)| ==> LoadRows(rows)[i] == LoadRowOf(Seqs.Filter(rows, Grouped)[i])
  {
    if rows != [] {
      LoadRowsContents(rows[1..]);
      LoadRowsContentsCons(rows);
      if Grouped(rows[0]) {
        var r := LoadRows(rows);
        var all := Seqs.Filter(rows, Grouped);
        var rest := LoadRows(rows[1..]);
        var kept := Seqs.Filter(rows[1..], Grouped);
        forall i | 0 < i < |r| ensures r[i] == LoadRowOf(all[i]) {
          assert r[i] == rest[i - 1] && all[i] == kept[i - 1];
        }
      }
    }
  }

  /** Some file row maps to the employee key k. */
  predicate MapsTo(rows: seq<RawRow>, k: EmployeeKey)
  {
    exists j :: 0 <= j < |rows| && MappedKey(rows[j]) == Some(k)
  }

  /** Some row of a non-empty table maps to k iff its first row or a later one does. */
  lemma MapsToCons(rows: seq<RawRow>, k: EmployeeKey)
    requires rows != []
    ensures MapsTo(rows, k) <==> MappedKey(rows[0]) == Some(k) || MapsTo(rows[1..], k)
  {
    if MapsTo(rows[1..], k) {
      var j :| 0 <= j < |rows[1..]| && MappedKey(rows[1..][j]) == Some(k);
      assert rows[j + 1] == rows[1..][j];
    }
    if MapsTo(rows, k) {
      var j :| 0 <= j < |rows| && MappedKey(rows[j]) == Some(k);
      if j > 0 {
        assert rows[1..][j - 1] == rows[j];
      }
    }
  }

  /** The grouped keys of a non-empty table: its first row's mapped key, if any, and those of the rest. */
  lemma LoadRowsKeysCons(rows: seq<RawRow>)
    requires rows != []
    ensures KeysOf(LoadRows(rows)) ==
      (if Grouped(rows[0]) then {KeyCells(MappedKey(rows[0]).value)} else {}) + KeysOf(LoadRows(rows[1..]))
  {
    if Grouped(rows[0]) {
      KeysPrepend(LoadRowOf(rows[0]), LoadRows(rows[1..]));
    }
  }

  /** An employee key is grouped iff some file row maps to it. */
  lemma {:induction false} LoadRowsKey(rows: seq<RawRow>, k: EmployeeKey)
    ensures KeyCells(k) in KeysOf(LoadRows(rows)) <==> MapsTo(rows, k)
  {
    if rows != [] {
      LoadRowsKey(rows[1..], k);
      LoadRowsKeysCons(rows);
      MapsToCons(rows, k);
    }
  }

  /** The grouped keys are exactly the keys file rows map to. */
  lemma LoadRowsKeys(rows: seq<RawRow>)
    ensures forall k :: KeyCells(k) in KeysOf(LoadRows(rows)) <==> MapsTo(rows, k)
  {
    forall k ensures KeyCells(k) in KeysOf(LoadRows(rows)) <==> MapsTo(rows, k) {
      LoadRowsKey(rows, k);
    }
  }

  /** CPC_Mi = TotalCost_Mi / TotalFTECapped_Mi, unguarded. */
  function MonthCpc(t: Measures, p: Period): (c: Num)
    ensures c.Fin? <==> t.fte.At(p) != 0.0
    ensures c.Fin? ==> c.v * t.fte.At(p) == t.cost.At(p)
  {
    Div(t.cost.At(p), t.fte.At(p))
  }

  /** CPC_QTR = TotalCost_QTR / TotalFTECapped_QTR / 3: a monthly-equivalent rate, unguarded. */
  function QuarterCpc(t: Measures): (c: Num)
    ensures c.Fin? <==> t.fte.qtr != 0.0
    ensures c.Fin? ==> c.v * 3.0 * t.fte.qtr == t.cost.qtr
  {
    DivBy(Div(t.cost.qtr, t.fte.qtr), 3.0)
  }

  function GroupedOf(g: Group): (e: GroupedEmployee)
    requires |g.totals| == 12
    ensures e.id == Id(e.key) && e.cpcQtr == QuarterCpc(e.totals)
  {
    var k := KeyOfCells(g.key);
    var t := FromVec(g.totals);
    GroupedEmployee(k, t, Id(k), MonthCpc(t, M1), MonthCpc(t, M2), MonthCpc(t, M3), QuarterCpc(t))
  }

  function ViewOf(e: GroupedEmployee): EmployeeView
  {
    EmployeeView(e.key, e.totals.alloc, e.id)
  }

  function ViewsOf(grouped: seq<GroupedEmployee>): (vs: seq<EmployeeView>)
    ensures |vs| == |grouped| && forall i :: 0 <= i < |vs| ==> vs[i] == ViewOf(grouped[i])
  {
    seq(|grouped|, i requires 0 <= i < |grouped| => ViewOf(grouped[i]))
  }

  /** The grouping tuples and summed columns of grouped_df. */
  function GroupsOf(grouped: seq<GroupedEmployee>): (gs: seq<Group>)
    ensures |gs| == |grouped|
    ensures forall i :: 0 <= i < |gs| ==> gs[i] == Group(KeyCells(grouped[i].key), ToVec(grouped[i].totals))
  {
    seq(|grouped|, i requires 0 <= i < |grouped| => Group(KeyCells(grouped[i].key), ToVec(grouped[i].totals)))
  }

  /** The customer filter: PrismCustomerGroup.isin(customer_list) when the list is non-empty. */
  function CustomerFilter(vs: seq<EmployeeView>, customerList: seq<string>): seq<EmployeeView>
  {
    if customerList == [] then vs else Seqs.Filter(vs, (v: EmployeeView) => v.key.customerGroup in customerList)
  }

  /**
   * What load_employees returns on a dataset with all its columns: grouped_df
   * is the sorted groupby-sum of the rows with their ids and CPCs, without_ctc
   * its projection and filtered_df that projection restricted to the customers.
   */
  predicate IsLoadResult(v: Views, ds: Dataset, customerList: seq<string>)
  {
    && IsGrouping(GroupsOf(v.grouped), LoadRows(ds.rows), 12)
    && (forall i :: 0 <= i < |v.grouped| ==>
          && v.grouped[i].id == Id(v.grouped[i].key)
          && v.grouped[i].cpcM1 == MonthCpc(v.grouped[i].totals, M1)
          && v.grouped[i].cpcM2 == MonthCpc(v.grouped[i].totals, M2)
          && v.grouped[i].cpcM3 == MonthCpc(v.grouped[i].totals, M3)
          && v.grouped[i].cpcQtr == QuarterCpc(v.grouped[i].totals))
    && v.withoutCtc == ViewsOf(v.grouped)
    && v.filtered == CustomerFilter(v.withoutCtc, customerList)
  }

  lemma ToFromVec(v: Vec)
    requires |v| == 12
    ensures ToVec(FromVec(v)) == v
  {
  }

  method Aggregate(ds: Dataset) returns (grouped: seq<GroupedEmployee>)
    ensures IsGrouping(GroupsOf(grouped), LoadRows(ds.rows), 12)
    ensures forall i :: 0 <= i < |grouped| ==> grouped[i] == GroupedOf(GroupsOf(grouped)[i])
  {
    var rows := LoadRows(ds.rows);
    var groups := GroupBy(rows, 12);
    grouped := seq(|groups|, i requires 0 <= i < |groups| => GroupedOf(groups[i]));
    forall i | 0 <= i < |groups| ensures GroupsOf(grouped)[i] == groups[i] {
      assert groups[i].key in KeysOf(rows);
      var j :| 0 <= j < |rows| && rows[j].key == groups[i].key;
      ToFromVec(groups[i].totals);
    }
    assert GroupsOf(grouped) == groups;
  }

  /**
   * load_employees(customer_list) with the no-filter branch copying
   * grouped_df (what the code evidently intends). None stands for the three
   * empty frames returned when a required column is missing.
   */
  method LoadEmployees(ds: Dataset, customerList: seq<string>) returns (views: Option<Views>)
    ensures views.None? <==> MissingColumns(ds) != []
    ensures views.Some? ==> IsLoadResult(views.value, ds, customerList)
  {
    if MissingColumns(ds) != [] {
      return None;
    }
    var grouped := Aggregate(ds);
    var all := ViewsOf(grouped);
    views := Some(Views(grouped, CustomerFilter(all, customerList), all));
  }

  /** A pandas frame, only as far as its column names go; the same object can be reached through two names. */
  class Frame {
    var columns: seq<string>

    constructor (cols: seq<string>)
      ensures columns == cols
    {
      columns := cols;
    }

    /** drop(columns=cols, inplace=True); false stands for the KeyError raised when one is absent. */
    method DropInPlace(cols: seq<string>) returns (ok: bool)
      modifies this
      ensures ok <==> forall c :: c in cols ==> c in old(columns)
      ensures columns == if ok then Seqs.Filter(old(columns), c => c !in cols) else old(columns)
    {
      ok := forall c :: c in cols ==> c in columns;
      if ok {
        columns := Seqs.Filter(columns, c => c !in cols);
      }
    }
  }

  /** The columns of grouped_df once id and the CPCs are added. */
  const GroupedColumns: seq<string> := RequiredColumns + ["id", "CPC_M1", "CPC_M2", "CPC_M3", "CPC_QTR"]

  /** columns[get_loc('TotalFTECapped_M1'):] without 'id'. */
  const DroppedColumns: seq<string> := Seqs.Filter(GroupedColumns[15..], c => c != "id")

  /**
   * load_employees as written: with no customer list filtered_df IS
   * grouped_df, so the in-place drop removes the columns from grouped_df and
   * the second drop raises; the except clause then returns three empty frames.
   */
  method LoadEmployeesAsWritten(ds: Dataset, customerList: seq<string>) returns (views: Option<Views>)
    ensures views.None? <==> MissingColumns(ds) != [] || customerList == []
    ensures views.Some? ==> IsLoadResult(views.value, ds, customerList)
  {
    if MissingColumns(ds) != [] {
      return None;
    }
    var grouped := Aggregate(ds);
    var groupedFrame := new Frame(GroupedColumns);
    var filteredFrame := groupedFrame;
    if customerList != [] {
      filteredFrame := new Frame(groupedFrame.columns);
    }
    assert "TotalFTECapped_M1" in DroppedColumns;
    var dropped := filteredFrame.DropInPlace(DroppedColumns);
    assert dropped;
    var secondDrop := forall c :: c in DroppedColumns ==> c in groupedFrame.columns;
    if !secondDrop {
      return None;
    }
    assert customerList != [];
    var all := ViewsOf(grouped);
    views := Some(Views(grouped, CustomerFilter(all, customerList), all));
  }

  /** A row of /api/employees: the key fields, the selected period's FTE as 'FTE', and the id. */
  datatype RosterRow = RosterRow(key: EmployeeKey, fte: real, id: string)

  /**
   * The period whose AllocationFTECapped column becomes FTE: the quarter when
   * no month is given or the month is "Quarter" (the default branch), or "QTR"
   * (the month branch, which names the same column). None stands for a month
   * with no such column, where indexing 'FTE' raises (HTTP 500).
   */
  function SelectedPeriod(month: Option<string>): (p: Option<Period>)
    ensures p == Some(QTR) <==> month == None || month == Some("Quarter") || month == Some("QTR")
    ensures p == Some(M1) <==> month == Some("M1")
    ensures p == Some(M2) <==> month == Some("M2")
    ensures p == Some(M3) <==> month == Some("M3")
    ensures p.None? <==> month.Some? && month.value !in {"Quarter", "M1", "M2", "M3", "QTR"}
  {
    match month
    case None => Some(QTR)
    case Some(m) =>
      if m == "Quarter" then Some(QTR)
      else if m == "QTR" then Some(QTR)
      else if m == "M1" then Some(M1)
      else if m == "M2" then Some(M2)
      else if m == "M3" then Some(M3)
      else None
  }

  /** Whether a row survives the location filter: no location or "All" keeps every row. */
  predicate KeepsLocation(location: Option<string>, v: EmployeeView)
  {
    location == None || location == Some("All") || v.key.location == location.value
  }

  function SelectFte(vs: seq<EmployeeView>, p: Period): (rs: seq<RosterRow>)
    ensures |rs| == |vs|
    ensures forall i :: 0 <= i < |rs| ==>
      rs[i].key == vs[i].key && rs[i].id == vs[i].id && rs[i].fte == Round2(vs[i].alloc.At(p))
  {
    seq(|vs|, i requires 0 <= i < |vs| => RosterRow(vs[i].key, Round2(vs[i].alloc.At(p)), vs[i].id))
  }

  /**
   * get_employees over filtered_df (None: the empty frame load_employees
   * returns on failure, on which dropping the FTE columns raises).
   */
  function GetEmployees(view: Option<seq<EmployeeView>>, month: Option<string>, location: Option<string>)
    : (r: Option<seq<RosterRow>>)
    ensures r.Some? <==> view.Some? && SelectedPeriod(month).Some?
    ensures r.Some? ==>
      r.value == SelectFte(Seqs.Filter(view.value, v => KeepsLocation(location, v)), SelectedPeriod(month).value)
  {
    if view.None? then None
    else match SelectedPeriod(month)
      case None => None
      case Some(p) => Some(SelectFte(Seqs.Filter(view.value, v => KeepsLocation(location, v)), p))
  }

  /**
   * Every returned row comes from a row of the view at that location, with
   * FTE the selected allocation rounded to cents; every row at that location
   * is returned; with no location or "All" nothing is dropped.
   */
  lemma {:induction false} GetEmployeesRows(view: seq<EmployeeView>, month: Option<string>, location: Option<string>)
    requires SelectedPeriod(month).Some?
    ensures
      var p := SelectedPeriod(month).value;
      var rows := GetEmployees(Some(view), month, location).value;
      && (forall i :: 0 <= i < |rows| ==>
            exists v :: v in view && KeepsLocation(location, v) && rows[i] == RosterRow(v.key, Round2(v.alloc.At(p)), v.id))
      && (forall v :: v in view && KeepsLocation(location, v) ==>
            RosterRow(v.key, Round2(v.alloc.At(p)), v.id) in rows)
      && (location == None || location == Some("All") ==> rows == SelectFte(view, p))
  {
    var p := SelectedPeriod(month).value;
    var keep := v => KeepsLocation(location, v);
    var kept := Seqs.Filter(view, keep);
    var rows := SelectFte(kept, p);
    assert GetEmployees(Some(view), month, location).value == rows;
    forall i | 0 <= i < |rows|
      ensures exists v :: v in view && KeepsLocation(location, v) && rows[i] == RosterRow(v.key, Round2(v.alloc.At(p)), v.id)
    {
      var v := kept[i];
      assert v in kept;
      assert v in view && KeepsLocation(location, v);
      assert rows[i] == RosterRow(v.key, Round2(v.alloc.At(p)), v.id);
    }
    forall v | v in view && KeepsLocation(location, v) ensures RosterRow(v.key, Round2(v.alloc.At(p)), v.id) in rows {
      var i :| 0 <= i < |kept| && kept[i] == v;
      assert rows[i] == RosterRow(v.key, Round2(v.alloc.At(p)), v.id);
    }
    if location == None || location == Some("All") {
      Seqs.FilterAllTrue(view, keep);
    }
  }
}
