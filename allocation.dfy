/**
 * The raw allocation dataset (one line per employee and allocation) and the
 * per-employee identity both aggregation paths of app.py group it by.
 */
module Allocation {
  import opened Wrappers
  import opened PyText
  import opened Grouping
  import Seqs

  /** The reporting periods of a quarter: its three months and the quarter as a whole. */
  datatype Period = M1 | M2 | M3 | QTR

  /** One numeric figure per period. */
  datatype Quad = Quad(m1: real, m2: real, m3: real, qtr: real)
  {
    function At(p: Period): real
    {
      match p
      case M1 => m1
      case M2 => m2
      case M3 => m3
      case QTR => qtr
    }
  }

  /** The twelve numeric columns: AllocationFTECapped_*, TotalFTECapped_* and TotalCost_*. */
  datatype Measures = Measures(alloc: Quad, fte: Quad, cost: Quad)

  function QuadToVec(q: Quad): (v: Vec)
    ensures |v| == 4
  {
    [q.m1, q.m2, q.m3, q.qtr]
  }

  function ToVec(m: Measures): (v: Vec)
    ensures |v| == 12
  {
    QuadToVec(m.alloc) + QuadToVec(m.fte) + QuadToVec(m.cost)
  }

  function FromVec(v: Vec): Measures
    requires |v| == 12
  {
    Measures(Quad(v[0], v[1], v[2], v[3]), Quad(v[4], v[5], v[6], v[7]), Quad(v[8], v[9], v[10], v[11]))
  }

  lemma FromToVec(m: Measures)
    ensures FromVec(ToVec(m)) == m
  {
  }

  /**
   * One line of the raw dataset. The values of a column are read only when
   * the dataset has that column.
   */
  datatype RawRow = RawRow(
    employeeCode: int,
    employeeName: string,
    band: string,
    offshoreOnsite: string,
    finalBU: string,
    finalCustomer: string,
    prismCustomerGroup: string,
    projectRole: string,
    subPractice: string,
    practice: string,
    billableYN: string,
    measures: Measures)

  /** A table: the names of its columns and its rows. */
  datatype Dataset = Dataset(columns: seq<string>, rows: seq<RawRow>)

  /** The eleven columns that identify an employee, in grouping order. */
  const KeyColumns: seq<string> := [
    "EmployeeCode", "EmployeeName", "Band", "Offshore_Onsite", "FinalBU", "FinalCustomer",
    "PrismCustomerGroup", "ProjectRole", "Sub-Practice", "Practice", "BillableYN"]

  /** The twelve numeric columns, in the order the dataset lists them. */
  const MeasureColumns: seq<string> := [
    "AllocationFTECapped_M1", "AllocationFTECapped_M2", "AllocationFTECapped_M3", "AllocationFTECapped_QTR",
    "TotalFTECapped_M1", "TotalFTECapped_M2", "TotalFTECapped_M3", "TotalFTECapped_QTR",
    "TotalCost_M1", "TotalCost_M2", "TotalCost_M3", "TotalCost_QTR"]

  /** The 23 columns both aggregation paths select. */
  const RequiredColumns: seq<string> := KeyColumns + MeasureColumns

  /** The required columns the dataset lacks, in the order they are required. */
  function MissingColumns(ds: Dataset): (missing: seq<string>)
    ensures forall c :: c in missing <==> c in RequiredColumns && c !in ds.columns
    ensures Seqs.IsSubseq(missing, RequiredColumns)
    ensures forall c :: multiset(missing)[c] == if c !in ds.columns then multiset(RequiredColumns)[c] else 0
  {
    var absent := (c: string) => c !in ds.columns;
    Seqs.FilterOrder(RequiredColumns, absent);
    Seqs.Filter(RequiredColumns, absent)
  }

  /** An employee's identity: the eleven key fields, the billable flag in its grouped string form. */
  datatype EmployeeKey = EmployeeKey(
    code: int,
    name: string,
    band: string,
    location: string,
    bu: string,
    customer: string,
    customerGroup: string,
    role: string,
    subPractice: string,
    practice: string,
    billable: string)

  /** The key as the tuple of grouping columns. */
  function KeyCells(k: EmployeeKey): (cells: Key)
    ensures |cells| == 11
  {
    [IntCell(k.code), StrCell(k.name), StrCell(k.band), StrCell(k.location), StrCell(k.bu),
     StrCell(k.customer), StrCell(k.customerGroup), StrCell(k.role), StrCell(k.subPractice),
     StrCell(k.practice), StrCell(k.billable)]
  }

  function CellText(c: Cell): string
  {
    match c
    case IntCell(i) => IntToString(i)
    case StrCell(s) => s
  }

  /** The text of the i-th key column. */
  function CellAt(k: Key, i: nat): string
  {
    if i < |k| then CellText(k[i]) else ""
  }

  /** The i-th numeric column. */
  function TotalAt(v: Vec, i: nat): real
  {
    if i < |v| then v[i] else 0.0
  }

  /** Reads a grouping tuple back as a key; the tuple of a key reads back as that key. */
  function KeyOfCells(cells: Key): (k: EmployeeKey)
    ensures forall k' :: cells == KeyCells(k') ==> k == k'
  {
    if |cells| == 11 && cells[0].IntCell? then
      EmployeeKey(cells[0].i, CellText(cells[1]), CellText(cells[2]), CellText(cells[3]),
        CellText(cells[4]), CellText(cells[5]), CellText(cells[6]), CellText(cells[7]),
        CellText(cells[8]), CellText(cells[9]), CellText(cells[10]))
    else EmployeeKey(0, "", "", "", "", "", "", "", "", "", "")
  }

  /**
   * The row id: the string forms of the eleven key fields joined with no
   * delimiter (app.py, astype(str) then ''.join).
   */
  function Id(k: EmployeeKey): (id: string)
    ensures id == Join(Texts(KeyCells(k), CellText), "")
    ensures IntToString(k.code) <= id
    ensures |id| >= |k.billable| && id[|id| - |k.billable|..] == k.billable
  {
    var id := IntToString(k.code) + (k.name + (k.band + (k.location + (k.bu + (k.customer + (k.customerGroup
        + (k.role + (k.subPractice + (k.practice + k.billable)))))))));
    IdJoin(k);
    id
  }

  /** ''.join over the str() of the eleven key cells is their plain concatenation. */
  lemma IdJoin(k: EmployeeKey)
    ensures Join(Texts(KeyCells(k), CellText), "") ==
      IntToString(k.code) + (k.name + (k.band + (k.location + (k.bu + (k.customer + (k.customerGroup
      + (k.role + (k.subPractice + (k.practice + k.billable)))))))))
  {
    var t10 := [k.billable];
    assert Join(t10, "") == k.billable;
    var t9 := [k.practice] + t10;
    var t8 := [k.subPractice] + t9;
    var t7 := [k.role] + t8;
    var t6 := [k.customerGroup] + t7;
    var t5 := [k.customer] + t6;
    var t4 := [k.bu] + t5;
    var t3 := [k.location] + t4;
    var t2 := [k.band] + t3;
    var t1 := [k.name] + t2;
    var ts := [IntToString(k.code)] + t1;
    assert Texts(KeyCells(k), CellText) == ts;
    JoinStep(k.practice, t10);
    JoinStep(k.subPractice, t9);
    JoinStep(k.role, t8);
    JoinStep(k.customerGroup, t7);
    JoinStep(k.customer, t6);
    JoinStep(k.bu, t5);
    JoinStep(k.location, t4);
    JoinStep(k.band, t3);
    JoinStep(k.name, t2);
    JoinStep(IntToString(k.code), t1);
  }

  /**
   * With no delimiter, keys that differ only in where one field ends and the
   * next begins share an id.
   */
  lemma IdCollision(k: EmployeeKey)
    requires |k.name| >= 1
    ensures var k' := k.(name := k.name[..|k.name| - 1], band := [k.name[|k.name| - 1]] + k.band);
            k' != k && Id(k') == Id(k)
  {
    var k' := k.(name := k.name[..|k.name| - 1], band := [k.name[|k.name| - 1]] + k.band);
    assert k'.name + k'.band == k.name + k.band;
    assert |k'.name| != |k.name|;
  }

  /** The key as calculate_gm_impact groups by it: BillableYN exactly as stored. */
  function RawKey(r: RawRow): (k: EmployeeKey)
    ensures k.code == r.employeeCode && k.band == r.band && k.location == r.offshoreOnsite
    ensures k.billable == r.billableYN && k.customerGroup == r.prismCustomerGroup
  {
    EmployeeKey(r.employeeCode, r.employeeName, r.band, r.offshoreOnsite, r.finalBU, r.finalCustomer,
      r.prismCustomerGroup, r.projectRole, r.subPractice, r.practice, r.billableYN)
  }

  /**
   * BillableYN as load_employees maps it: 'Y' to True, 'N' to False; any
   * other value maps to NaN, and groupby drops rows with a NaN key.
   * Some(b) holds str() of the boolean.
   */
  function BillableText(yn: string): (r: Option<string>)
    ensures r == Some("True") <==> yn == "Y"
    ensures r == Some("False") <==> yn == "N"
    ensures r.None? <==> yn != "Y" && yn != "N"
  {
    if yn == "Y" then Some("True") else if yn == "N" then Some("False") else None
  }

  /** The key as load_employees groups by it, or None when the row is dropped. */
  function MappedKey(r: RawRow): (k: Option<EmployeeKey>)
    ensures k.Some? <==> BillableText(r.billableYN).Some?
    ensures k.Some? ==> k.value == RawKey(r).(billable := BillableText(r.billableYN).value)
  {
    match BillableText(r.billableYN)
    case None => None
    case Some(b) => Some(RawKey(r).(billable := b))
  }
}
