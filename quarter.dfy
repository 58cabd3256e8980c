/**
 * get_quarter_months (app.py): the calendar months of a fiscal quarter
 * written like "Q1FY2026". The fiscal year FYn runs from April of n-1 to
 * March of n.
 */
module Quarter {
  import opened Wrappers
  import opened PyText

  /** What makes get_quarter_months raise: int() of the year, the quarter table, datetime's year range. */
  datatype QuarterError = YearNotInteger | UnknownQuarter | YearOutOfRange

  /** The quarter table's keys: "Q1".."Q4" as 1..4. */
  function QuarterNumber(q: string): (n: Option<nat>)
    ensures n.Some? ==> 1 <= n.value <= 4
    ensures n.Some? <==> q in {"Q1", "Q2", "Q3", "Q4"}
  {
    if q == "Q1" then Some(1) else if q == "Q2" then Some(2)
    else if q == "Q3" then Some(3) else if q == "Q4" then Some(4) else None
  }

  /** The first calendar month of fiscal quarter n. */
  function FirstMonth(n: nat): (m: nat)
    requires 1 <= n <= 4
    ensures 1 <= m <= 10 && (m - 1) % 3 == 0
  {
    if n == 4 then 1 else 3 * n + 1
  }

  /** Q1-Q3 fall in calendar year fy - 1, Q4 in fy. */
  function CalendarYear(n: nat, fy: int): int
    requires 1 <= n <= 4
  {
    if n == 4 then fy else fy - 1
  }

  /** strftime("%b"): English month abbreviations. */
  function MonthAbbrev(m: nat): (s: string)
    requires 1 <= m <= 12
    ensures |s| == 3 && ' ' !in s
  {
    ["Jan", "Feb", "Mar", "Apr", "May", "Jun", "Jul", "Aug", "Sep", "Oct", "Nov", "Dec"][m - 1]
  }

  /** strftime("%y"): the year modulo 100 as two digits. */
  function TwoDigitYear(year: int): (s: string)
    ensures |s| == 2 && AllDigits(s)
  {
    var yy := year % 100;
    [DigitChar(yy / 10), DigitChar(yy % 10)]
  }

  /** strftime("%b %y") of the first day of a month. */
  function MonthLabel(year: int, month: nat): (s: string)
    requires 1 <= month <= 12
    ensures |s| == 6 && s[3] == ' '
    ensures s[..3] == MonthAbbrev(month) && s[4..] == TwoDigitYear(year)
  {
    MonthAbbrev(month) + " " + TwoDigitYear(year)
  }

  /** The key M1, M2, M3 for the i-th month (0-based) of a quarter. */
  function MonthKey(i: nat): string
    requires i < 3
  {
    ["M1", "M2", "M3"][i]
  }

  /** A month counted from year 0: consecutive months have consecutive numbers. */
  function MonthNumber(year: int, month: nat): int
  {
    year * 12 + month - 1
  }

  /**
   * get_quarter_months(fq): the quarter is fq[:2], the fiscal year int(fq[4:]).
   * The characters fq[2:4] are never looked at.
   */
  function QuarterMonths(fq: string): (r: Result<map<string, string>, QuarterError>)
    ensures r.Ok? <==>
      && ParseInt(Drop(fq, 4)).Some?
      && QuarterNumber(Take(fq, 2)).Some?
      && 1 <= CalendarYear(QuarterNumber(Take(fq, 2)).value, ParseInt(Drop(fq, 4)).value) <= 9999
    ensures r == Err(YearNotInteger) <==> ParseInt(Drop(fq, 4)).None?
    ensures r == Err(UnknownQuarter) <==> ParseInt(Drop(fq, 4)).Some? && QuarterNumber(Take(fq, 2)).None?
    ensures r.Ok? ==> r.value.Keys == {"M1", "M2", "M3", "QTR"} && r.value["QTR"] == fq
  {
    var quarter := Take(fq, 2);
    match ParseInt(Drop(fq, 4))
    case None => Err(YearNotInteger)
    case Some(fy) =>
      match QuarterNumber(quarter)
      case None => Err(UnknownQuarter)
      case Some(n) =>
        var year := CalendarYear(n, fy);
        if !(1 <= year <= 9999) then Err(YearOutOfRange)
        else
          var first := FirstMonth(n);
          Ok(map[
            "M1" := MonthLabel(year, first),
            "M2" := MonthLabel(year, first + 1),
            "M3" := MonthLabel(year, first + 2),
            "QTR" := fq])
  }

  /**
   * The i-th month of quarter Qn of fiscal year fy is month 3(n-1)+i of the
   * run of twelve consecutive calendar months that starts in April of fy - 1.
   */
  lemma {:induction false} QuarterMonthsCalendar(fq: string, i: nat)
    requires QuarterMonths(fq).Ok? && i < 3
    ensures
      var n := QuarterNumber(Take(fq, 2)).value;
      var fy := ParseInt(Drop(fq, 4)).value;
      exists year: int, month: nat ::
        && 1 <= month <= 12
        && QuarterMonths(fq).value[MonthKey(i)] == MonthLabel(year, month)
        && MonthNumber(year, month) == MonthNumber(fy - 1, 4) + 3 * (n - 1) + i
  {
    var n := QuarterNumber(Take(fq, 2)).value;
    var fy := ParseInt(Drop(fq, 4)).value;
    var year, month := CalendarYear(n, fy), FirstMonth(n) + i;
    assert QuarterMonths(fq).value[MonthKey(i)] == MonthLabel(year, month);
    assert MonthNumber(year, month) == MonthNumber(fy - 1, 4) + 3 * (n - 1) + i;
  }

  lemma ParseYear2026()
    ensures ParseInt("2026") == Some(2026)
  {
    assert NatToString(2) == "2";
    assert NatToString(20) == "20";
    assert NatToString(202) == "202";
    assert NatToString(2026) == "2026";
    ParseIntOfIntToString(2026);
  }

  /** "Q1FY2026" gives Apr 25, May 25, Jun 25 (the example in the docstring). */
  lemma Q1FY2026Months()
    ensures QuarterMonths("Q1FY2026") == Ok(map["M1" := "Apr 25", "M2" := "May 25", "M3" := "Jun 25", "QTR" := "Q1FY2026"])
  {
    assert Take("Q1FY2026", 2) == "Q1";
    assert Drop("Q1FY2026", 4) == "2026";
    ParseYear2026();
    assert QuarterNumber("Q1") == Some(1);
    assert CalendarYear(1, 2026) == 2025 && FirstMonth(1) == 4;
    assert TwoDigitYear(2025) == "25";
    assert MonthAbbrev(4) == "Apr" && MonthAbbrev(5) == "May" && MonthAbbrev(6) == "Jun";
    assert MonthLabel(2025, 4) == "Apr 25";
    assert MonthLabel(2025, 5) == "May 25";
    assert MonthLabel(2025, 6) == "Jun 25";
  }

  /** Q4FY2026 is January to March 2026. */
  lemma Q4FY2026Months()
    ensures QuarterMonths("Q4FY2026") == Ok(map["M1" := "Jan 26", "M2" := "Feb 26", "M3" := "Mar 26", "QTR" := "Q4FY2026"])
  {
    assert Take("Q4FY2026", 2) == "Q4";
    assert Drop("Q4FY2026", 4) == "2026";
    ParseYear2026();
    assert QuarterNumber("Q4") == Some(4);
    assert CalendarYear(4, 2026) == 2026 && FirstMonth(4) == 1;
    assert TwoDigitYear(2026) == "26";
    assert MonthAbbrev(1) == "Jan" && MonthAbbrev(2) == "Feb" && MonthAbbrev(3) == "Mar";
    assert MonthLabel(2026, 1) == "Jan 26";
    assert MonthLabel(2026, 2) == "Feb 26";
    assert MonthLabel(2026, 3) == "Mar 26";
  }

  /** Python's label.split(' ')[0]: the text before the first space. */
  function FirstToken(s: string): (t: string)
    ensures t <= s && ' ' !in t
  {
    if s == [] || s[0] == ' ' then [] else [s[0]] + FirstToken(s[1..])
  }

  /** The first token of a month label is the month abbreviation. */
  lemma FirstTokenOfLabel(year: int, month: nat)
    requires 1 <= month <= 12
    ensures FirstToken(MonthLabel(year, month)) == MonthAbbrev(month)
  {
    var a := MonthAbbrev(month);
    var l := MonthLabel(year, month);
    assert l[0] == a[0] && l[1] == a[1] && l[2] == a[2] && l[3] == ' ';
    assert FirstToken(l[3..]) == [];
    assert FirstToken(l[2..]) == [a[2]] by { assert l[2..][1..] == l[3..]; }
    assert FirstToken(l[1..]) == [a[1], a[2]] by { assert l[1..][1..] == l[2..]; }
    assert FirstToken(l) == [a[0], a[1], a[2]] by { assert l[1..] == l[1..]; }
    assert a == [a[0], a[1], a[2]];
  }
}
