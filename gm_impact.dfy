/**
 * POST /api/gm-impact: the cost impact of one roster change, its FTE change
 * times a cost per capita (CPC). An existing employee's CPC comes from the
 * employee's own quarter totals; a new hire's from the average of the band
 * and location the hire joins.
 */
module GmImpact {
  import opened Wrappers
  import opened PyText
  import opened PyNum
  import opened Grouping
  import opened Allocation
  import opened PyDict
  import LoadEmployees

  /** One employee of the impact path: the eleven key columns, with BillableYN as in the file. */
  datatype ImpactEmployee = ImpactEmployee(key: EmployeeKey, totals: Measures, cpcQtr: real)

  function ImpactRows(rows: seq<RawRow>): (r: seq<Row>)
    ensures |r| == |rows| && Width(r, 12)
  {
    seq(|rows|, i requires 0 <= i < |rows| => Row(KeyCells(RawKey(rows[i])), ToVec(rows[i].measures)))
  }

  /** CPC_QTR of the impact path: a zero FTE total is replaced by 1 before dividing. */
  function ImpactCpc(t: Measures): (c: real)
    ensures t.fte.qtr != 0.0 ==> c * 3.0 * t.fte.qtr == t.cost.qtr
    ensures t.fte.qtr == 0.0 ==> c * 3.0 == t.cost.qtr
  {
    t.cost.qtr / (if t.fte.qtr == 0.0 then 1.0 else t.fte.qtr) / 3.0
  }

  /**
   * Where the quarter FTE is not zero both paths charge the same CPC; where it
   * is zero the roster path has no finite CPC while this one charges a third
   * of the whole quarter cost.
   */
  lemma ImpactCpcAgainstLoadCpc(t: Measures)
    ensures t.fte.qtr != 0.0 ==> LoadEmployees.QuarterCpc(t) == Fin(ImpactCpc(t))
    ensures t.fte.qtr == 0.0 ==> !LoadEmployees.QuarterCpc(t).Fin? && ImpactCpc(t) * 3.0 == t.cost.qtr
  {
    if t.fte.qtr != 0.0 {
      var q := LoadEmployees.QuarterCpc(t);
      assert q.v * 3.0 * t.fte.qtr == ImpactCpc(t) * 3.0 * t.fte.qtr;
    }
  }

  function ImpactOf(g: Group): ImpactEmployee
    requires |g.totals| == 12
  {
    var t := FromVec(g.totals);
    ImpactEmployee(KeyOfCells(g.key), t, ImpactCpc(t))
  }

  /** The per-employee table: the rows grouped on the eleven key columns, with CPC_QTR. */
  function ImpactEmployees(rows: seq<RawRow>): seq<ImpactEmployee>
  {
    var gs := GroupedSpec(ImpactRows(rows), 12);
    seq(|gs|, i requires 0 <= i < |gs| => ImpactOf(gs[i]))
  }

  // ---------------------------------------------------------------- lookups

  function EmployeeEntries(es: seq<ImpactEmployee>): (entries: seq<(string, real)>)
    ensures |entries| == |es|
  {
    seq(|es|, i requires 0 <= i < |es| => (IntToString(es[i].key.code), es[i].cpcQtr))
  }

  /** employee_cpc_lookup: the code's text to CPC_QTR, assigned row by row. */
  method BuildEmployeeLookup(es: seq<ImpactEmployee>) returns (lookup: Dict)
    ensures lookup == FoldPut(EmployeeEntries(es))
  {
    lookup := [];
    for i := 0 to |es|
      invariant lookup == FoldPut(EmployeeEntries(es[..i]))
    {
      assert EmployeeEntries(es[..i + 1])[..i] == EmployeeEntries(es[..i]);
      lookup := Put(lookup, IntToString(es[i].key.code), es[i].cpcQtr);
    }
    assert es[..|es|] == es;
  }

  /**
   * The employee lookup holds exactly the codes of the table, written as
   * str(int) writes them, each with the CPC of the last row carrying it.
   */
  lemma EmployeeLookupGet(es: seq<ImpactEmployee>, s: string)
    ensures Get(FoldPut(EmployeeEntries(es)), s).Some? <==>
      exists i :: 0 <= i < |es| && IntToString(es[i].key.code) == s
    ensures Get(FoldPut(EmployeeEntries(es)), s).Some? ==>
      exists i :: 0 <= i < |es| && IntToString(es[i].key.code) == s
        && Get(FoldPut(EmployeeEntries(es)), s).value == es[i].cpcQtr
        && forall j :: i < j < |es| ==> es[j].key.code != es[i].key.code
  {
    var entries := EmployeeEntries(es);
    GetFoldPut(entries, s);
    assert forall i :: 0 <= i < |es| ==> entries[i] == (IntToString(es[i].key.code), es[i].cpcQtr);
  }

  function BandRows(es: seq<ImpactEmployee>): (r: seq<Row>)
    ensures |r| == |es| && Width(r, 2)
  {
    seq(|es|, i requires 0 <= i < |es| =>
      Row([StrCell(es[i].key.band), StrCell(es[i].key.location)], [es[i].totals.cost.qtr, es[i].totals.fte.qtr]))
  }

  /** The text key of a band and location, f"{band}_{location}". */
  function BandKey(band: string, location: string): string
  {
    band + "_" + location
  }

  /** A band and location's CPC: their cost over their FTE over three months, or 0 without FTE. */
  function BandAvg(cost: real, fte: real): (a: real)
    ensures fte > 0.0 ==> a * 3.0 * fte == cost
    ensures fte <= 0.0 ==> a == 0.0
  {
    if fte > 0.0 then cost / fte / 3.0 else 0.0
  }

  function BandEntry(g: Group): (string, real)
  {
    (BandKey(CellAt(g.key, 0), CellAt(g.key, 1)), BandAvg(TotalAt(g.totals, 0), TotalAt(g.totals, 1)))
  }

  function BandEntries(gs: seq<Group>): (entries: seq<(string, real)>)
    ensures |entries| == |gs|
  {
    seq(|gs|, i requires 0 <= i < |gs| => BandEntry(gs[i]))
  }

  /** band_location_cpc_lookup: one assignment per band and location group, in group order. */
  method BuildBandLookup(gs: seq<Group>) returns (lookup: Dict)
    ensures lookup == FoldPut(BandEntries(gs))
  {
    lookup := [];
    for i := 0 to |gs|
      invariant lookup == FoldPut(BandEntries(gs[..i]))
    {
      assert BandEntries(gs[..i + 1])[..i] == BandEntries(gs[..i]);
      var band := CellAt(gs[i].key, 0);
      var location := CellAt(gs[i].key, 1);
      var avg := BandAvg(TotalAt(gs[i].totals, 0), TotalAt(gs[i].totals, 1));
      lookup := Put(lookup, BandKey(band, location), avg);
    }
    assert gs[..|gs|] == gs;
  }

  /** The band lookup of a table: its rows grouped on band and location. */
  function BandLookup(es: seq<ImpactEmployee>): (d: Dict)
    ensures Unique(d)
  {
    FoldPut(BandEntries(GroupedSpec(BandRows(es), 2)))
  }

  /** The summed quarter cost and FTE of the employees of one band and location. */
  function BandTotals(es: seq<ImpactEmployee>, band: string, location: string): (t: Vec)
    ensures |t| == 2
  {
    GroupTotal(BandRows(es), [StrCell(band), StrCell(location)], 2)
  }

  predicate SpellsBand(es: seq<ImpactEmployee>, i: int, s: string)
  {
    0 <= i < |es| && BandKey(es[i].key.band, es[i].key.location) == s
  }

  /** v is the average CPC of the band and location of employee i, over all their employees. */
  predicate IsBandAvg(es: seq<ImpactEmployee>, i: int, v: real)
    requires 0 <= i < |es|
  {
    var t := BandTotals(es, es[i].key.band, es[i].key.location);
    v == BandAvg(t[0], t[1])
  }

  lemma BandEntriesSound(es: seq<ImpactEmployee>, gs: seq<Group>, s: string, v: real)
    requires IsGrouping(gs, BandRows(es), 2)
    requires LastValue(BandEntries(gs), s) == Some(v)
    ensures exists i :: SpellsBand(es, i, s) && IsBandAvg(es, i, v)
  {
    var rows := BandRows(es);
    var entries := BandEntries(gs);
    var g :| 0 <= g < |gs| && entries[g] == (s, v);
    assert entries[g] == BandEntry(gs[g]);
    assert gs[g].key in GroupKeys(gs);
    var i :| 0 <= i < |rows| && rows[i].key == gs[g].key;
    assert rows[i].key == [StrCell(es[i].key.band), StrCell(es[i].key.location)];
    assert gs[g].totals == BandTotals(es, es[i].key.band, es[i].key.location);
    assert SpellsBand(es, i, s);
  }

  lemma BandEntriesComplete(es: seq<ImpactEmployee>, gs: seq<Group>, i: int, s: string)
    requires IsGrouping(gs, BandRows(es), 2)
    requires SpellsBand(es, i, s)
    ensures LastValue(BandEntries(gs), s).Some?
  {
    var rows := BandRows(es);
    assert rows[i].key == [StrCell(es[i].key.band), StrCell(es[i].key.location)];
    assert rows[i].key in KeysOf(rows);
    var g :| 0 <= g < |gs| && gs[g].key == rows[i].key;
    assert BandEntries(gs)[g] == BandEntry(gs[g]);
  }

  /**
   * A text key is in the band lookup exactly when some employee's band and
   * location spell it, and its value is the average CPC of one such band and
   * location over all their employees.
   */
  lemma BandLookupGet(es: seq<ImpactEmployee>, s: string)
    ensures Get(BandLookup(es), s).Some? <==> exists i :: SpellsBand(es, i, s)
    ensures Get(BandLookup(es), s).Some? ==>
      exists i :: SpellsBand(es, i, s) && IsBandAvg(es, i, Get(BandLookup(es), s).value)
  {
    var gs := GroupedSpec(BandRows(es), 2);
    GroupedSpecIsGrouping(BandRows(es), 2);
    GetFoldPut(BandEntries(gs), s);
    if Get(BandLookup(es), s).Some? {
      BandEntriesSound(es, gs, s, Get(BandLookup(es), s).value);
    }
    if exists i :: SpellsBand(es, i, s) {
      var i :| SpellsBand(es, i, s);
      BandEntriesComplete(es, gs, i, s);
    }
  }

  // ------------------------------------------------------------ resolution

  /** How the CPC was found; its text is the response's calculationMethod. */
  datatype LookupMethod =
    | BandLocationAvg(key: string)
    | FallbackAvg
    | NoMethod
    | EmployeeSpecific(code: string)
    | DirectLookup(code: string)
    | NotFound
    | ConversionError

  function MethodText(m: LookupMethod): string
  {
    match m
    case BandLocationAvg(k) => "band_location_avg (" + k + ")"
    case FallbackAvg => "fallback_avg"
    case NoMethod => ""
    case EmployeeSpecific(c) => "employee_specific (" + c + ")"
    case DirectLookup(c) => "direct_lookup (" + c + ")"
    case NotFound => "not_found"
    case ConversionError => "conversion_error"
  }

  /** The calculationMethod text tells which path was taken and with which key. */
  lemma MethodTextInjective(a: LookupMethod, b: LookupMethod)
    requires MethodText(a) == MethodText(b)
    ensures a == b
  {
    var t := MethodText(a);
    if t != [] {
      assert t[0] == MethodText(b)[0];
      match a
      case BandLocationAvg(k) =>
        assert t[19..|t| - 1] == k;
        assert b.BandLocationAvg? && t[19..|t| - 1] == b.key;
      case EmployeeSpecific(c) =>
        assert t[19..|t| - 1] == c;
        assert b.EmployeeSpecific? && t[19..|t| - 1] == b.code;
      case DirectLookup(c) =>
        assert t[15..|t| - 1] == c;
        assert b.DirectLookup? && t[15..|t| - 1] == b.code;
      case _ =>
    }
  }

  datatype Resolution = Resolution(cpc: real, how: LookupMethod)

  /** A new hire: the band and location average, else the mean over all of them, else 0. */
  function NewHireCpc(band: string, location: string, bandLookup: Dict): (r: Resolution)
    ensures r.how.BandLocationAvg? <==> HasKey(bandLookup, BandKey(band, location))
    ensures r.how.BandLocationAvg? ==>
      r.how.key == BandKey(band, location) && Get(bandLookup, BandKey(band, location)) == Some(r.cpc)
    ensures r.how == FallbackAvg <==> !HasKey(bandLookup, BandKey(band, location)) && bandLookup != []
    ensures r.how == FallbackAvg ==> r.cpc * |bandLookup| as real == SumValues(bandLookup)
    ensures r.how == NoMethod <==> bandLookup == []
    ensures r.how == NoMethod ==> r.cpc == 0.0
  {
    var key := BandKey(band, location);
    match Get(bandLookup, key)
    case Some(c) => Resolution(c, BandLocationAvg(key))
    case None =>
      if bandLookup != [] then Resolution(SumValues(bandLookup) / |bandLookup| as real, FallbackAvg)
      else Resolution(0.0, NoMethod)
  }

  /** The fallback average lies within any bounds of the band and location averages. */
  lemma FallbackWithinBounds(band: string, location: string, bandLookup: Dict, lo: real, hi: real)
    requires forall i :: 0 <= i < |bandLookup| ==> lo <= bandLookup[i].1 <= hi
    requires NewHireCpc(band, location, bandLookup).how == FallbackAvg
    ensures lo <= NewHireCpc(band, location, bandLookup).cpc <= hi
  {
    var n := |bandLookup| as real;
    var c := NewHireCpc(band, location, bandLookup).cpc;
    SumValuesBounds(bandLookup, lo, hi);
    assert lo * n <= c * n <= hi * n;
  }

  /** grouped_df.loc[EmployeeCode == code].iloc[0]: the first row of the table with that code. */
  function FirstCpcWithCode(es: seq<ImpactEmployee>, code: int): (r: Option<real>)
    ensures r.None? <==> forall i :: 0 <= i < |es| ==> es[i].key.code != code
    ensures r.Some? ==>
      exists i :: 0 <= i < |es| && es[i].key.code == code && es[i].cpcQtr == r.value
        && forall j :: 0 <= j < i ==> es[j].key.code != code
  {
    if es == [] then None
    else if es[0].key.code == code then Some(es[0].cpcQtr)
    else
      var r := FirstCpcWithCode(es[1..], code);
      assert forall i :: 0 < i < |es| ==> es[i] == es[1..][i - 1];
      r
  }

  /** An existing employee: the lookup by code text, else by integer code, else 0. */
  function ExistingCpc(code: string, employeeLookup: Dict, es: seq<ImpactEmployee>): (r: Resolution)
    ensures r.how.EmployeeSpecific? <==> HasKey(employeeLookup, code)
    ensures r.how.EmployeeSpecific? ==> r.how.code == code && Get(employeeLookup, code) == Some(r.cpc)
    ensures r.how == ConversionError <==> !HasKey(employeeLookup, code) && ParseInt(code).None?
    ensures r.how.DirectLookup? <==>
      !HasKey(employeeLookup, code) && ParseInt(code).Some? && FirstCpcWithCode(es, ParseInt(code).value).Some?
    ensures r.how.DirectLookup? ==> r.how.code == code && FirstCpcWithCode(es, ParseInt(code).value) == Some(r.cpc)
    ensures r.how == NotFound <==>
      !HasKey(employeeLookup, code) && ParseInt(code).Some? && FirstCpcWithCode(es, ParseInt(code).value).None?
    ensures r.how == NotFound || r.how == ConversionError ==> r.cpc == 0.0
  {
    match Get(employeeLookup, code)
    case Some(c) => Resolution(c, EmployeeSpecific(code))
    case None =>
      match ParseInt(code)
      case None => Resolution(0.0, ConversionError)
      case Some(n) =>
        match FirstCpcWithCode(es, n)
        case Some(c) => Resolution(c, DirectLookup(code))
        case None => Resolution(0.0, NotFound)
  }

  /**
   * Which path an employee code takes: the code as str(int) writes it finds
   * the employee's own CPC; a code int() reads but that is written otherwise
   * ("007", " 7") is found only by the direct lookup; a code of nobody gives
   * not_found; text int() refuses gives conversion_error.
   */
  predicate HasCodeText(es: seq<ImpactEmployee>, code: string)
  {
    exists i :: 0 <= i < |es| && IntToString(es[i].key.code) == code
  }

  predicate HasCode(es: seq<ImpactEmployee>, n: int)
  {
    exists i :: 0 <= i < |es| && es[i].key.code == n
  }

  lemma ExistingCpcPaths(code: string, es: seq<ImpactEmployee>)
    ensures var r := ExistingCpc(code, FoldPut(EmployeeEntries(es)), es);
      && (r.how == EmployeeSpecific(code) <==> HasCodeText(es, code))
      && (r.how == DirectLookup(code) <==>
            ParseInt(code).Some? && code != IntToString(ParseInt(code).value) && HasCode(es, ParseInt(code).value))
      && (r.how == NotFound <==> ParseInt(code).Some? && !HasCode(es, ParseInt(code).value))
      && (r.how == ConversionError <==> ParseInt(code).None?)
  {
    var lookup := FoldPut(EmployeeEntries(es));
    var r := ExistingCpc(code, lookup, es);
    EmployeeLookupGet(es, code);
    if HasCodeText(es, code) {
      var i :| 0 <= i < |es| && IntToString(es[i].key.code) == code;
      ParseIntOfIntToString(es[i].key.code);
      assert HasCode(es, ParseInt(code).value);
    } else {
      assert Get(lookup, code).None?;
      match ParseInt(code)
      case None =>
      case Some(n) =>
        if HasCode(es, n) {
          var i :| 0 <= i < |es| && es[i].key.code == n;
          assert IntToString(n) != code;
        }
    }
  }

  /** The fields of gmData the handler reads; an absent field takes the default shown by AbsentGmData. */
  datatype GmRequest = GmRequest(isNewHire: bool, band: string, location: string, employeeCode: string, fteChange: real)

  /** gmData missing from the entry: every field at its default. */
  const AbsentGmData := GmRequest(false, "", "", "", 0.0)

  /** The CPC of the change and how it was found: by band and location for a new hire, else by employee code. */
  function Resolve(g: GmRequest, employeeLookup: Dict, bandLookup: Dict, es: seq<ImpactEmployee>): (r: Resolution)
    ensures g.isNewHire <==> r.how.BandLocationAvg? || r.how == FallbackAvg || r.how == NoMethod
    ensures r.how.BandLocationAvg? ==>
      r.how.key == BandKey(g.band, g.location) && Get(bandLookup, r.how.key) == Some(r.cpc)
    ensures r.how.EmployeeSpecific? ==>
      r.how.code == g.employeeCode && Get(employeeLookup, g.employeeCode) == Some(r.cpc)
    ensures r.how.DirectLookup? ==> r.how.code == g.employeeCode
    ensures r.how == NoMethod || r.how == NotFound || r.how == ConversionError ==> r.cpc == 0.0
  {
    if g.isNewHire then NewHireCpc(g.band, g.location, bandLookup) else ExistingCpc(g.employeeCode, employeeLookup, es)
  }

  /** The gmImpact object written into the latest entry. */
  datatype GmImpactResult = GmImpactResult(cpcUsed: real, fteChange: real, costImpact: real, calculationMethod: string)

  /**
   * The impact of a change: its FTE change times the resolved CPC, each shown
   * to the cent; the product is rounded once, from the unrounded factors.
   */
  function ImpactOfChange(fteChange: real, c: Resolution): (r: GmImpactResult)
    ensures r.cpcUsed == Round2(c.cpc) && r.fteChange == Round2(fteChange)
    ensures r.costImpact == Round2(fteChange * c.cpc)
    ensures -0.005 <= r.cpcUsed - c.cpc <= 0.005
    ensures -0.005 <= r.fteChange - fteChange <= 0.005
    ensures -0.005 <= r.costImpact - fteChange * c.cpc <= 0.005
    ensures r.calculationMethod == MethodText(c.how)
    ensures fteChange * c.cpc >= 0.0 ==> r.costImpact >= 0.0
    ensures fteChange * c.cpc <= 0.0 ==> r.costImpact <= 0.0
  {
    var impact := fteChange * c.cpc;
    Round2Sign(impact);
    GmImpactResult(Round2(c.cpc), Round2(fteChange), Round2(impact), MethodText(c.how))
  }

  /** An entry without gmData is an existing employee with code "": a conversion error and no impact. */
  lemma AbsentGmDataImpact(es: seq<ImpactEmployee>, bandLookup: Dict)
    ensures var c := Resolve(AbsentGmData, FoldPut(EmployeeEntries(es)), bandLookup, es);
      ImpactOfChange(AbsentGmData.fteChange, c) == GmImpactResult(0.0, 0.0, 0.0, "conversion_error")
  {
    ExistingCpcPaths("", es);
    assert ParseInt("").None?;
    Round2OfCents(0);
  }

  // --------------------------------------------------------------- handler

  datatype GmField = NoGmData | NullGmData | GmData(request: GmRequest)

  /** The request's latestEntry key: missing, JSON null, or an object with its gmData. */
  datatype LatestEntry = NoEntry | NullEntry | Entry(gmData: GmField)

  /** The JSON object posted: latestEntry, auditLog (entries of any type L) and how many other keys. */
  datatype ImpactBody<L> = ImpactBody(latestEntry: LatestEntry, auditLog: Option<seq<L>>, otherKeys: nat)

  /** No body, or an empty object. */
  predicate NoData<L>(body: Option<ImpactBody<L>>)
  {
    body.None? || (body.value.latestEntry.NoEntry? && body.value.auditLog.None? && body.value.otherKeys == 0)
  }

  /** DataFrame.empty: no rows or no columns. */
  predicate EmptyFrame(ds: Dataset)
  {
    ds.rows == [] || ds.columns == []
  }

  /** The entry or its gmData is null, and reading a field of it fails. */
  predicate NullAccess(e: LatestEntry)
  {
    e.NullEntry? || e == Entry(NullGmData)
  }

  function RequestOf(e: LatestEntry): Option<GmRequest>
  {
    match e
    case Entry(GmData(g)) => Some(g)
    case Entry(NoGmData) => Some(AbsentGmData)
    case _ => None
  }

  const NoneGetError := "'NoneType' object has no attribute 'get'"

  datatype ImpactResponse<L> =
    | ImpactFailure(status: nat, error: string)
    | ImpactSuccess(auditLog: seq<L>, employeeCpcCount: nat, bandLocationCpcCount: nat)

  /** The employee table and both lookups, built as the handler builds them. */
  method BuildLookups(rows: seq<RawRow>) returns (es: seq<ImpactEmployee>, employeeLookup: Dict, bandLookup: Dict)
    ensures es == ImpactEmployees(rows)
    ensures employeeLookup == FoldPut(EmployeeEntries(es))
    ensures bandLookup == BandLookup(es)
  {
    var groups := GroupBy(ImpactRows(rows), 12);
    es := seq(|groups|, i requires 0 <= i < |groups| => ImpactOf(groups[i]));
    employeeLookup := BuildEmployeeLookup(es);
    var bandGroups := GroupBy(BandRows(es), 2);
    bandLookup := BuildBandLookup(bandGroups);
  }

  /** What a request that passed the checks gets back, with the lookups of the dataset. */
  function Outcome<L>(body: ImpactBody<L>, es: seq<ImpactEmployee>, employeeLookup: Dict, bandLookup: Dict)
    : (out: (ImpactResponse<L>, Option<GmImpactResult>))
    ensures out.0.ImpactFailure? <==> NullAccess(body.latestEntry)
    ensures out.0.ImpactFailure? ==> out.0 == ImpactFailure(500, NoneGetError) && out.1.None?
    ensures out.0.ImpactSuccess? ==>
      out.0.auditLog == body.auditLog.GetOr([])
      && out.0.employeeCpcCount == |employeeLookup| && out.0.bandLocationCpcCount == |bandLookup|
    ensures out.1.Some? <==> body.latestEntry.Entry? && body.latestEntry.gmData != NullGmData
    ensures out.1.Some? ==> out.1 == Some(ImpactOfChange(RequestOf(body.latestEntry).value.fteChange,
      Resolve(RequestOf(body.latestEntry).value, employeeLookup, bandLookup, es)))
  {
    if NullAccess(body.latestEntry) then (ImpactFailure(500, NoneGetError), None)
    else
      var response := ImpactSuccess(body.auditLog.GetOr([]), |employeeLookup|, |bandLookup|);
      match RequestOf(body.latestEntry)
      case None => (response, None)
      case Some(g) => (response, Some(ImpactOfChange(g.fteChange, Resolve(g, employeeLookup, bandLookup, es))))
  }

  /**
   * The handler: the response, and the gmImpact it writes into the posted
   * latestEntry (which the response does not carry: it returns the posted
   * audit log as it came).
   */
  method CalculateGmImpact<L>(body: Option<ImpactBody<L>>, ds: Dataset)
    returns (response: ImpactResponse<L>, impact: Option<GmImpactResult>)
    ensures response.ImpactFailure? ==> impact.None?
    ensures NoData(body) ==> response == ImpactFailure(400, "No data provided")
    ensures !NoData(body) && EmptyFrame(ds) ==> response == ImpactFailure(500, "No data available in CSV file")
    ensures !NoData(body) && !EmptyFrame(ds) && MissingColumns(ds) != [] ==>
      response == ImpactFailure(500, "Missing required columns: " + ListRepr(MissingColumns(ds)))
    ensures !NoData(body) && !EmptyFrame(ds) && MissingColumns(ds) == [] ==>
      var es := ImpactEmployees(ds.rows);
      (response, impact) == Outcome(body.value, es, FoldPut(EmployeeEntries(es)), BandLookup(es))
  {
    impact := None;
    if NoData(body) {
      response := ImpactFailure(400, "No data provided");
      return;
    }
    if EmptyFrame(ds) {
      response := ImpactFailure(500, "No data available in CSV file");
      return;
    }
    var missing := MissingColumns(ds);
    if missing != [] {
      response := ImpactFailure(500, "Missing required columns: " + ListRepr(missing));
      return;
    }
    var es, employeeLookup, bandLookup := BuildLookups(ds.rows);
    var entry := body.value.latestEntry;
    if NullAccess(entry) {
      response := ImpactFailure(500, NoneGetError);
      return;
    }
    var request := RequestOf(entry);
    if request.Some? {
      impact := Some(ImpactOfChange(request.value.fteChange, Resolve(request.value, employeeLookup, bandLookup, es)));
    }
    response := ImpactSuccess(body.value.auditLog.GetOr([]), |employeeLookup|, |bandLookup|);
  }
}
