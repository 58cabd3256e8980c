/**
 * GET /api/gm-details: for the portfolio's customers, each revenue row of the
 * current quarter with its plan GM%, the allocation cost of its month and its
 * other direct costs. The tables are joined as pandas' left merge joins them.
 */
module GmDetails {
  import opened Wrappers
  import opened PyNum
  import opened PyText
  import opened Grouping
  import opened Allocation
  import opened Quarter
  import Seqs

  /** The latest quarter the application reports on. */
  const MaxQuarter: string := "Q1FY2026"

  /** The portfolio's customer groups. */
  const PortfolioCustomers: seq<string> := ["Sony", "Aquent"]

  /** prism.csv, with Title read as the customer. */
  datatype RevenueRow = RevenueRow(quarter: string, customer: string, month: string, totalRevenue: real)

  /** plan.csv: the Prism column is the customer the plan is joined on. */
  datatype PlanRow = PlanRow(quarter: string, bu: string, prism: string, planRevenue: real, planCost: real, rac: real)

  /** odc.csv: a business unit's rate of other direct costs. */
  datatype OdcRow = OdcRow(bu: string, rate: real)

  /** The allocation cost columns of a row of the allocation file. */
  datatype CostRow = CostRow(finalBU: string, customerGroup: string, m1: real, m2: real, m3: real)

  // ------------------------------------------------------------ left merge

  /** The right rows whose key is k, in their order. */
  function Matching<B(==,!new), K(==)>(right: seq<B>, kr: B -> K, k: K): (ms: seq<B>)
    ensures forall b :: b in ms <==> b in right && kr(b) == k
    ensures Seqs.NoDup(right) ==> Seqs.NoDup(ms)
    ensures (forall i, j :: 0 <= i < j < |right| ==> kr(right[i]) != kr(right[j])) ==> |ms| <= 1
  {
    var p := (b: B) => kr(b) == k;
    var ms := Seqs.Filter(right, p);
    assert Seqs.NoDup(right) ==> Seqs.NoDup(ms) by {
      if Seqs.NoDup(right) {
        Seqs.FilterKeepsNoDup(right, p);
      }
    }
    assert (forall i, j :: 0 <= i < j < |right| ==> kr(right[i]) != kr(right[j])) ==> |ms| <= 1 by {
      if forall i, j :: 0 <= i < j < |right| ==> kr(right[i]) != kr(right[j]) {
        Seqs.FilterAtMostOne(right, p);
      }
    }
    ms
  }

  function JoinOne<A, B(==,!new), K(==)>(a: A, right: seq<B>, kl: A -> K, kr: B -> K): (out: seq<(A, Option<B>)>)
    ensures |out| >= 1
    ensures |Matching(right, kr, kl(a))| <= 1 ==> |out| == 1
    ensures forall j :: 0 <= j < |out| ==> out[j].0 == a
  {
    var ms := Matching(right, kr, kl(a));
    if ms == [] then [(a, None)] else seq(|ms|, i requires 0 <= i < |ms| => (a, Some(ms[i])))
  }

  /**
   * pd.merge(left, right, how='left'): in the order of the left rows, each
   * left row once per matching right row, or once with nothing.
   */
  function LeftJoin<A, B(==,!new), K(==)>(left: seq<A>, right: seq<B>, kl: A -> K, kr: B -> K)
    : (out: seq<(A, Option<B>)>)
    ensures |out| >= |left|
    ensures forall j :: 0 <= j < |out| ==> exists i :: 0 <= i < |left| && out[j].0 == left[i]
    ensures forall j :: 0 <= j < |out| && out[j].1.Some? ==>
      out[j].1.value in right && kr(out[j].1.value) == kl(out[j].0)
    ensures forall j :: 0 <= j < |out| && out[j].1.None? ==> Matching(right, kr, kl(out[j].0)) == []
  {
    if left == [] then []
    else
      var head := JoinOne(left[0], right, kl, kr);
      var rest := LeftJoin(left[1..], right, kl, kr);
      assert forall j :: |head| <= j < |head + rest| ==> (head + rest)[j] == rest[j - |head|];
      assert forall i :: 0 <= i < |left[1..]| ==> left[1..][i] == left[i + 1];
      head + rest
  }

  /** The merge of a non-empty left side: the first row's pairs, then the merge of the rest. */
  lemma LeftJoinCons<A, B(!new), K>(left: seq<A>, right: seq<B>, kl: A -> K, kr: B -> K)
    requires left != []
    ensures LeftJoin(left, right, kl, kr) == JoinOne(left[0], right, kl, kr) + LeftJoin(left[1..], right, kl, kr)
  {
  }

  /** A row with at most one match is paired once. */
  lemma JoinOneSingle<A, B(!new), K>(a: A, right: seq<B>, kl: A -> K, kr: B -> K)
    requires |Matching(right, kr, kl(a))| <= 1
    ensures |JoinOne(a, right, kl, kr)| == 1 && JoinOne(a, right, kl, kr)[0].0 == a
  {
  }

  /** One pair for a in front of pairs whose first components are rest: the first components are [a] + rest. */
  lemma PairsKeepFirsts<A, B>(joined: seq<(A, B)>, head: seq<(A, B)>, pairs: seq<(A, B)>, all: seq<A>, rest: seq<A>)
    requires joined == head + pairs && |head| == 1 && all != [] && rest == all[1..] && head[0].0 == all[0]
    requires |pairs| == |rest| && forall i :: 0 <= i < |rest| ==> pairs[i].0 == rest[i]
    ensures |joined| == |all|
    ensures forall i :: 0 <= i < |all| ==> joined[i].0 == all[i]
  {
    forall i | 0 < i < |all| ensures joined[i].0 == all[i] {
      assert joined[i] == pairs[i - 1] && all[i] == rest[i - 1];
    }
  }

  /** At most one match for every row: so for every row after the first. */
  lemma AtMostOneTail<A, B(!new), K>(left: seq<A>, right: seq<B>, kl: A -> K, kr: B -> K)
    requires left != []
    requires forall i :: 0 <= i < |left| ==> |Matching(right, kr, kl(left[i]))| <= 1
    ensures forall i :: 0 <= i < |left[1..]| ==> |Matching(right, kr, kl(left[1..][i]))| <= 1
  {
    assert forall i :: 0 <= i < |left[1..]| ==> left[1..][i] == left[i + 1];
  }

  /** Where every left row matches at most one right row, the merge keeps the left rows one for one. */
  lemma {:induction false} LeftJoinAtMostOne<A, B(!new), K>(left: seq<A>, right: seq<B>, kl: A -> K, kr: B -> K)
    requires forall i :: 0 <= i < |left| ==> |Matching(right, kr, kl(left[i]))| <= 1
    ensures |LeftJoin(left, right, kl, kr)| == |left|
    ensures forall i :: 0 <= i < |left| ==> LeftJoin(left, right, kl, kr)[i].0 == left[i]
  {
    if left != [] {
      var out := LeftJoin(left, right, kl, kr);
      var head := JoinOne(left[0], right, kl, kr);
      var rest := LeftJoin(left[1..], right, kl, kr);
      LeftJoinCons(left, right, kl, kr);
      AtMostOneTail(left, right, kl, kr);
      LeftJoinAtMostOne(left[1..], right, kl, kr);
      JoinOneSingle(left[0], right, kl, kr);
      PairsKeepFirsts(out, head, rest, left, left[1..]);
    }
  }

  /**
   * The merge misses nothing: each left row is paired with every right row
   * of its key, or with nothing when no right row has its key.
   */
  lemma {:induction false} LeftJoinComplete<A, B(!new), K>(left: seq<A>, right: seq<B>, kl: A -> K, kr: B -> K)
    ensures forall a, b :: a in left && b in right && kr(b) == kl(a) ==> (a, Some(b)) in LeftJoin(left, right, kl, kr)
    ensures forall a :: a in left && (forall b :: b in right ==> kr(b) != kl(a)) ==> (a, None) in LeftJoin(left, right, kl, kr)
  {
    var out := LeftJoin(left, right, kl, kr);
    if left != [] {
      var head := JoinOne(left[0], right, kl, kr);
      var rest := LeftJoin(left[1..], right, kl, kr);
      assert out == head + rest;
      LeftJoinComplete(left[1..], right, kl, kr);
      var ms := Matching(right, kr, kl(left[0]));
      assert left == [left[0]] + left[1..];
      forall a, b | a in left && b in right && kr(b) == kl(a) ensures (a, Some(b)) in out {
        if a == left[0] {
          assert b in ms;
          var m :| 0 <= m < |ms| && ms[m] == b;
          assert head[m] == (a, Some(b));
        } else {
          assert a in left[1..];
        }
      }
      forall a | a in left && (forall b :: b in right ==> kr(b) != kl(a)) ensures (a, None) in out {
        if a == left[0] {
          assert ms == [];
          assert head[0] == (a, None);
        } else {
          assert a in left[1..];
        }
      }
    }
  }

  /** Some output row of a merge carries the left row a. */
  ghost predicate Carries<A, B>(out: seq<(A, Option<B>)>, a: A)
  {
    exists j :: 0 <= j < |out| && out[j].0 == a
  }

  /** Every left row is in the output of the merge. */
  lemma {:induction false} LeftJoinKeepsLeft<A, B(!new), K>(left: seq<A>, right: seq<B>, kl: A -> K, kr: B -> K)
    ensures forall a :: a in left ==> Carries(LeftJoin(left, right, kl, kr), a)
  {
    if left != [] {
      var out := LeftJoin(left, right, kl, kr);
      var head := JoinOne(left[0], right, kl, kr);
      var rest := LeftJoin(left[1..], right, kl, kr);
      assert out == head + rest;
      LeftJoinKeepsLeft(left[1..], right, kl, kr);
      forall a | a in left ensures Carries(out, a) {
        if a == left[0] {
          assert out[0] == head[0];
        } else {
          assert a in left[1..] by {
            var i :| 0 <= i < |left| && left[i] == a;
            assert left[1..][i - 1] == a;
          }
          var j :| 0 <= j < |rest| && rest[j].0 == a;
          assert out[|head| + j] == rest[j];
        }
      }
    }
  }

  // ------------------------------------------------------------------ plan

  /** The quarter code rows are selected by: max_quarter[:2]. */
  function QuarterCode(): string
  {
    Take(MaxQuarter, 2)
  }

  /**
   * PlanGM% = (PlanRevenue - PlanCost) / PlanRevenue, with 0/0 read as 0;
   * a cost against no revenue stays infinite.
   */
  function PlanGmPercent(revenue: real, cost: real): (r: Num)
    ensures revenue != 0.0 ==> r.Fin? && r.v * revenue == revenue - cost
    ensures revenue == 0.0 && cost == 0.0 ==> r == Fin(0.0)
    ensures revenue == 0.0 && cost < 0.0 ==> r == PosInf
    ensures revenue == 0.0 && cost > 0.0 ==> r == NegInf
  {
    var q := Div(revenue - cost, revenue);
    if q == NaN then Fin(0.0) else q
  }

  /** One row of the plan grouped by business unit and customer. */
  datatype PlanGm = PlanGm(bu: string, customer: string, planRevenue: real, planGm: Num)

  /** The grouping key of a business unit and a customer. */
  function PairKey(bu: string, customer: string): Key
  {
    [StrCell(bu), StrCell(customer)]
  }

  /** Every row's key is a business unit and a customer. */
  predicate PairKeyed(rows: seq<Row>)
  {
    forall i :: 0 <= i < |rows| ==> rows[i].key == PairKey(CellAt(rows[i].key, 0), CellAt(rows[i].key, 1))
  }

  /** A plan line as a grouping row: keyed on BU and Prism, with PlanRevenue and PlanCost. */
  function PlanCells(p: PlanRow): Row
  {
    Row(PairKey(p.bu, p.prism), [p.planRevenue, p.planCost])
  }

  /** The plan lines of the current quarter, as rows to group. */
  function PlanRows(plan: seq<PlanRow>): (rows: seq<Row>)
    ensures Width(rows, 2) && PairKeyed(rows)
    ensures forall i :: 0 <= i < |rows| ==>
      exists p :: p in plan && p.quarter == QuarterCode() && rows[i] == PlanCells(p)
    ensures forall p :: p in plan && p.quarter == QuarterCode() ==> PlanCells(p) in rows
  {
    var current := Seqs.Filter(plan, (p: PlanRow) => p.quarter == QuarterCode());
    var rows := seq(|current|, i requires 0 <= i < |current| => PlanCells(current[i]));
    assert forall i :: 0 <= i < |rows| ==> current[i] in current;
    assert forall p :: p in plan && p.quarter == QuarterCode() ==> PlanCells(p) in rows by {
      forall p | p in plan && p.quarter == QuarterCode() ensures PlanCells(p) in rows {
        var i :| 0 <= i < |current| && current[i] == p;
        assert rows[i] == PlanCells(p);
      }
    }
    rows
  }

  /**
   * groupby().sum() over rows keyed on business unit and customer: each group
   * holds its key's totals, every key of the rows has a group, and no two
   * groups share business unit and customer.
   */
  lemma {:induction false} PairGroups(rows: seq<Row>, w: nat)
    requires Width(rows, w) && PairKeyed(rows)
    ensures forall i :: 0 <= i < |GroupedSpec(rows, w)| ==>
      var g := GroupedSpec(rows, w)[i];
      && g.key in KeysOf(rows) && g.key == PairKey(CellAt(g.key, 0), CellAt(g.key, 1))
      && g.totals == GroupTotal(rows, g.key, w)
    ensures forall k :: k in KeysOf(rows) ==>
      exists i :: 0 <= i < |GroupedSpec(rows, w)| && GroupedSpec(rows, w)[i].key == k
    ensures DistinctPairs(GroupedSpec(rows, w))
  {
    var gs := GroupedSpec(rows, w);
    GroupedSpecIsGrouping(rows, w);
    forall i | 0 <= i < |gs| ensures gs[i].key in KeysOf(rows) {
      assert gs[i].key in GroupKeys(gs);
    }
    forall k | k in KeysOf(rows) ensures exists i :: 0 <= i < |gs| && gs[i].key == k {
      assert k in GroupKeys(gs);
    }
    forall a, b | 0 <= a < b < |gs|
      ensures (CellAt(gs[a].key, 0), CellAt(gs[a].key, 1)) != (CellAt(gs[b].key, 0), CellAt(gs[b].key, 1))
    {
      assert gs[a].key in KeysOf(rows) && gs[b].key in KeysOf(rows);
      assert KeyLess(gs[a].key, gs[b].key);
      KeyLessIrreflexive(gs[a].key);
    }
  }

  function PlanGmOf(g: Group): PlanGm
  {
    var revenue := TotalAt(g.totals, 0);
    PlanGm(CellAt(g.key, 0), CellAt(g.key, 1), revenue, PlanGmPercent(revenue, TotalAt(g.totals, 1)))
  }

  /** The current quarter's plan summed per business unit and customer, with its GM%. */
  function PlanGms(plan: seq<PlanRow>): (gms: seq<PlanGm>)
    ensures |gms| == |GroupedSpec(PlanRows(plan), 2)|
  {
    var gs := GroupedSpec(PlanRows(plan), 2);
    seq(|gs|, i requires 0 <= i < |gs| => PlanGmOf(gs[i]))
  }

  /**
   * The grouped plan has one row per business unit and customer of the
   * current quarter's plan lines, holding that pair's PlanRevenue total and
   * the GM% of its PlanRevenue and PlanCost totals.
   */
  lemma {:induction false} PlanGmsGrouped(plan: seq<PlanRow>)
    ensures var gms := PlanGms(plan);
      forall i :: 0 <= i < |gms| ==>
        var k := PairKey(gms[i].bu, gms[i].customer);
        && k in KeysOf(PlanRows(plan))
        && gms[i].planRevenue == GroupTotal(PlanRows(plan), k, 2)[0]
        && gms[i].planGm == PlanGmPercent(GroupTotal(PlanRows(plan), k, 2)[0], GroupTotal(PlanRows(plan), k, 2)[1])
    ensures var gms := PlanGms(plan);
      forall p :: p in plan && p.quarter == QuarterCode() ==>
        exists i :: 0 <= i < |gms| && gms[i].bu == p.bu && gms[i].customer == p.prism
    ensures var gms := PlanGms(plan);
      forall i, j :: 0 <= i < j < |gms| ==> (gms[i].bu, gms[i].customer) != (gms[j].bu, gms[j].customer)
  {
    PlanGmsTotals(plan);
    PlanGmsCover(plan);
    PlanGmsUnique(plan);
  }

  /** Each grouped plan row is the group of its own key: its gms[i] is PlanGmOf of that group. */
  lemma PlanGmsKeys(plan: seq<PlanRow>)
    ensures var gs := GroupedSpec(PlanRows(plan), 2); var gms := PlanGms(plan);
      forall i :: 0 <= i < |gms| ==>
        gms[i] == PlanGmOf(gs[i]) && PairKey(gms[i].bu, gms[i].customer) == gs[i].key
  {
    var rows := PlanRows(plan);
    var gs := GroupedSpec(rows, 2);
    var gms := PlanGms(plan);
    PairGroups(rows, 2);
    assert forall i :: 0 <= i < |gms| ==> gms[i] == PlanGmOf(gs[i]);
  }

  /** The totals part of PlanGmsGrouped. */
  lemma PlanGmsTotals(plan: seq<PlanRow>)
    ensures var gms := PlanGms(plan);
      forall i :: 0 <= i < |gms| ==>
        var k := PairKey(gms[i].bu, gms[i].customer);
        && k in KeysOf(PlanRows(plan))
        && gms[i].planRevenue == GroupTotal(PlanRows(plan), k, 2)[0]
        && gms[i].planGm == PlanGmPercent(GroupTotal(PlanRows(plan), k, 2)[0], GroupTotal(PlanRows(plan), k, 2)[1])
  {
    PairGroups(PlanRows(plan), 2);
    PlanGmsKeys(plan);
  }

  /** The coverage part of PlanGmsGrouped. */
  lemma PlanGmsCover(plan: seq<PlanRow>)
    ensures var gms := PlanGms(plan);
      forall p :: p in plan && p.quarter == QuarterCode() ==>
        exists i :: 0 <= i < |gms| && gms[i].bu == p.bu && gms[i].customer == p.prism
  {
    var rows := PlanRows(plan);
    var gs := GroupedSpec(rows, 2);
    var gms := PlanGms(plan);
    PairGroups(rows, 2);
    PlanGmsKeys(plan);
    forall p | p in plan && p.quarter == QuarterCode()
      ensures exists i :: 0 <= i < |gms| && gms[i].bu == p.bu && gms[i].customer == p.prism
    {
      var r :| 0 <= r < |rows| && rows[r] == PlanCells(p);
      assert PairKey(p.bu, p.prism) in KeysOf(rows);
      var i :| 0 <= i < |gs| && gs[i].key == PairKey(p.bu, p.prism);
      assert gms[i].bu == p.bu && gms[i].customer == p.prism;
    }
  }

  /** The distinctness part of PlanGmsGrouped. */
  lemma PlanGmsUnique(plan: seq<PlanRow>)
    ensures var gms := PlanGms(plan);
      forall i, j :: 0 <= i < j < |gms| ==> (gms[i].bu, gms[i].customer) != (gms[j].bu, gms[j].customer)
  {
    PairGroups(PlanRows(plan), 2);
    PlanGmsKeys(plan);
  }

  // ------------------------------------------------------ allocation cost

  /** The quarter's month labels, get_quarter_months(max_quarter). */
  function MaxQuarterMonths(): (m: map<string, string>)
    ensures m.Keys == {"M1", "M2", "M3", "QTR"}
  {
    Q1FY2026Months();
    QuarterMonths(MaxQuarter).value
  }

  /** The join key of the i-th month: the first word of its label. */
  function MonthName(i: nat): string
    requires i < 3
  {
    FirstToken(MaxQuarterMonths()[MonthKey(i)])
  }

  /** The month join keys of the latest quarter are the abbreviations Apr, May and Jun. */
  lemma MonthNames()
    ensures MonthName(0) == "Apr" && MonthName(1) == "May" && MonthName(2) == "Jun"
  {
    Q1FY2026Months();
    assert MonthKey(0) == "M1" && MonthKey(1) == "M2" && MonthKey(2) == "M3";
    assert MaxQuarterMonths()["M1"] == "Apr 25" == MonthLabel(2025, 4);
    assert MaxQuarterMonths()["M2"] == "May 25" == MonthLabel(2025, 5);
    assert MaxQuarterMonths()["M3"] == "Jun 25" == MonthLabel(2025, 6);
    FirstTokenOfLabel(2025, 4);
    FirstTokenOfLabel(2025, 5);
    FirstTokenOfLabel(2025, 6);
  }

  /** The allocation lines as rows to group: keyed on FinalBU and PrismCustomerGroup, with the three month costs. */
  function CostRows(cost: seq<CostRow>): (rows: seq<Row>)
    ensures |rows| == |cost| && Width(rows, 3) && PairKeyed(rows)
    ensures forall i :: 0 <= i < |rows| ==>
      rows[i].key == PairKey(cost[i].finalBU, cost[i].customerGroup) && rows[i].values == [cost[i].m1, cost[i].m2, cost[i].m3]
  {
    seq(|cost|, i requires 0 <= i < |cost| =>
      Row(PairKey(cost[i].finalBU, cost[i].customerGroup), [cost[i].m1, cost[i].m2, cost[i].m3]))
  }

  /** One melted row: a business unit and customer's allocation cost in one month. */
  datatype AllocationRow = AllocationRow(bu: string, customer: string, month: string, allocationCost: real)

  /** The melted rows of one month: one per group, in group order. */
  function MeltMonth(gs: seq<Group>, i: nat): (rows: seq<AllocationRow>)
    requires i < 3
    ensures |rows| == |gs|
    ensures forall g :: 0 <= g < |gs| ==>
      rows[g] == AllocationRow(CellAt(gs[g].key, 0), CellAt(gs[g].key, 1), MonthName(i), TotalAt(gs[g].totals, i))
  {
    seq(|gs|, g requires 0 <= g < |gs| =>
      AllocationRow(CellAt(gs[g].key, 0), CellAt(gs[g].key, 1), MonthName(i), TotalAt(gs[g].totals, i)))
  }

  /** melt: first every group's M1 cost, then every group's M2, then M3. */
  function Melt(gs: seq<Group>): (rows: seq<AllocationRow>)
    ensures |rows| == 3 * |gs|
  {
    MeltMonth(gs, 0) + MeltMonth(gs, 1) + MeltMonth(gs, 2)
  }

  function AllocationKey(r: AllocationRow): (Option<string>, string, string)
  {
    (Some(r.bu), r.customer, r.month)
  }

  /** No two groups have the same business unit and customer texts. */
  predicate DistinctPairs(gs: seq<Group>)
  {
    forall a, b :: 0 <= a < b < |gs| ==>
      (CellAt(gs[a].key, 0), CellAt(gs[a].key, 1)) != (CellAt(gs[b].key, 0), CellAt(gs[b].key, 1))
  }

  /** Each group of the cost grouping is a distinct pair of business unit and customer. */
  lemma CostGroupsDistinct(cost: seq<CostRow>)
    ensures DistinctPairs(GroupedSpec(CostRows(cost), 3))
  {
    PairGroups(CostRows(cost), 3);
  }

  /**
   * A melted row holds, for some month of the quarter, the total of that
   * month's AllocationCost over the allocation lines of its business unit and
   * customer.
   */
  lemma {:induction false} MeltedCost(cost: seq<CostRow>, a: AllocationRow)
    requires a in Melt(GroupedSpec(CostRows(cost), 3))
    ensures PairKey(a.bu, a.customer) in KeysOf(CostRows(cost))
    ensures exists m :: (0 <= m < 3 && a.month == MonthName(m)
      && a.allocationCost == GroupTotal(CostRows(cost), PairKey(a.bu, a.customer), 3)[m])
  {
    var rows := CostRows(cost);
    var gs := GroupedSpec(rows, 3);
    PairGroups(rows, 3);
    var x :| 0 <= x < |Melt(gs)| && Melt(gs)[x] == a;
    var m, g := MeltAt(gs, x);
    assert a == MeltMonth(gs, m)[g];
    assert gs[g].key == PairKey(a.bu, a.customer);
  }

  /** Every business unit and customer of the allocation lines has a melted row for each month. */
  lemma {:induction false} MeltCovers(cost: seq<CostRow>, bu: string, customer: string, m: nat)
    requires PairKey(bu, customer) in KeysOf(CostRows(cost)) && m < 3
    ensures exists a :: a in Melt(GroupedSpec(CostRows(cost), 3)) && (a.bu, a.customer, a.month) == (bu, customer, MonthName(m))
  {
    var rows := CostRows(cost);
    var gs := GroupedSpec(rows, 3);
    PairGroups(rows, 3);
    var g :| 0 <= g < |gs| && gs[g].key == PairKey(bu, customer);
    MeltHas(gs, m, g);
    var a := MeltMonth(gs, m)[g];
    assert (a.bu, a.customer, a.month) == (bu, customer, MonthName(m));
  }

  /** Row g of month m is a row of the melted table. */
  lemma MeltHas(gs: seq<Group>, m: nat, g: nat)
    requires m < 3 && g < |gs|
    ensures MeltMonth(gs, m)[g] in Melt(gs)
  {
    var a0, a1, a2 := MeltMonth(gs, 0), MeltMonth(gs, 1), MeltMonth(gs, 2);
    assert Melt(gs) == a0 + a1 + a2;
    if m == 0 {
      assert (a0 + a1 + a2)[g] == a0[g];
    } else if m == 1 {
      assert (a0 + a1 + a2)[|a0| + g] == a1[g];
    } else {
      assert (a0 + a1 + a2)[|a0| + |a1| + g] == a2[g];
    }
  }

  lemma MonthNamesDistinct(s: nat, t: nat)
    requires s < t < 3
    ensures MonthName(s) != MonthName(t)
  {
    MonthNames();
  }

  /** Row x of the melted table is row g of month m. */
  lemma MeltAt(gs: seq<Group>, x: nat) returns (m: nat, g: nat)
    requires x < |Melt(gs)|
    ensures m < 3 && g < |gs| && Melt(gs)[x] == MeltMonth(gs, m)[g]
    ensures x == g + (if m == 0 then 0 else if m == 1 then |gs| else 2 * |gs|)
  {
    var n := |gs|;
    var a, b, c := MeltMonth(gs, 0), MeltMonth(gs, 1), MeltMonth(gs, 2);
    assert Melt(gs) == a + b + c;
    if x < n {
      m, g := 0, x;
    } else if x < 2 * n {
      m, g := 1, x - n;
      assert (a + b + c)[x] == b[g];
    } else {
      m, g := 2, x - 2 * n;
      assert (a + b + c)[x] == c[g];
    }
  }

  /** No two melted rows share business unit, customer and month. */
  lemma MeltKeysUnique(gs: seq<Group>, x: nat, y: nat)
    requires DistinctPairs(gs)
    requires x < y < |Melt(gs)|
    ensures AllocationKey(Melt(gs)[x]) != AllocationKey(Melt(gs)[y])
  {
    var mx, gx := MeltAt(gs, x);
    var my, gy := MeltAt(gs, y);
    if mx == my {
      assert gx < gy;
      assert (CellAt(gs[gx].key, 0), CellAt(gs[gx].key, 1)) != (CellAt(gs[gy].key, 0), CellAt(gs[gy].key, 1));
    } else if mx < my {
      MonthNamesDistinct(mx, my);
    } else {
      MonthNamesDistinct(my, mx);
    }
  }

  /** Each revenue row finds at most one allocation row, so the cost merge repeats no row. */
  lemma MeltMatchesAtMostOne(gs: seq<Group>, k: (Option<string>, string, string))
    requires DistinctPairs(gs)
    ensures |Matching(Melt(gs), AllocationKey, k)| <= 1
  {
    var rows := Melt(gs);
    forall x, y | 0 <= x < y < |rows| ensures AllocationKey(rows[x]) != AllocationKey(rows[y]) {
      MeltKeysUnique(gs, x, y);
    }
  }

  // --------------------------------------------------------------- result

  /** The revenue rows of the current quarter, in their order and with their repeats. */
  function CurrentRevenue(revenue: seq<RevenueRow>): (rows: seq<RevenueRow>)
    ensures forall r :: r in rows <==> r in revenue && r.quarter == QuarterCode()
    ensures Seqs.IsSubseq(rows, revenue)
    ensures forall r :: multiset(rows)[r] == if r.quarter == QuarterCode() then multiset(revenue)[r] else 0
  {
    var current := (r: RevenueRow) => r.quarter == QuarterCode();
    Seqs.FilterOrder(revenue, current);
    Seqs.Filter(revenue, current)
  }

  /** A revenue row with the plan it was merged with, if any. */
  type WithPlan = (RevenueRow, Option<PlanGm>)

  /** The current revenue merged with the grouped plan on the customer, kept for the portfolio's customers. */
  function JoinPlan(revenue: seq<RevenueRow>, gms: seq<PlanGm>): (rows: seq<WithPlan>)
    ensures forall i :: 0 <= i < |rows| ==>
      && rows[i].0 in revenue && rows[i].0.quarter == QuarterCode() && rows[i].0.customer in PortfolioCustomers
      && (rows[i].1.Some? ==> rows[i].1.value in gms && rows[i].1.value.customer == rows[i].0.customer)
      && (rows[i].1.None? ==> forall p :: p in gms ==> p.customer != rows[i].0.customer)
  {
    var current := CurrentRevenue(revenue);
    var joined := LeftJoin(current, gms, (r: RevenueRow) => r.customer, (p: PlanGm) => p.customer);
    var rows := Seqs.Filter(joined, (m: WithPlan) => m.0.customer in PortfolioCustomers);
    assert forall i :: 0 <= i < |rows| ==> rows[i] in joined;
    rows
  }

  /** The plan join loses no current-quarter revenue row of a portfolio customer. */
  lemma {:induction false} JoinPlanComplete(revenue: seq<RevenueRow>, gms: seq<PlanGm>)
    ensures forall r, p ::
      (r in revenue && r.quarter == QuarterCode() && r.customer in PortfolioCustomers
       && p in gms && p.customer == r.customer) ==> (r, Some(p)) in JoinPlan(revenue, gms)
    ensures forall r ::
      (r in revenue && r.quarter == QuarterCode() && r.customer in PortfolioCustomers
       && forall p :: p in gms ==> p.customer != r.customer) ==> (r, None) in JoinPlan(revenue, gms)
  {
    var current := CurrentRevenue(revenue);
    var kl := (r: RevenueRow) => r.customer;
    var kr := (p: PlanGm) => p.customer;
    var joined := LeftJoin(current, gms, kl, kr);
    var rows := JoinPlan(revenue, gms);
    assert rows == Seqs.Filter(joined, (m: WithPlan) => m.0.customer in PortfolioCustomers);
    LeftJoinComplete(current, gms, kl, kr);
    forall r, p | (r in revenue && r.quarter == QuarterCode() && r.customer in PortfolioCustomers
       && p in gms && p.customer == r.customer)
      ensures (r, Some(p)) in rows
    {
      assert r in current;
      assert (r, Some(p)) in joined;
    }
    forall r | (r in revenue && r.quarter == QuarterCode() && r.customer in PortfolioCustomers
       && forall p :: p in gms ==> p.customer != r.customer)
      ensures (r, None) in rows
    {
      assert r in current;
      assert (r, None) in joined;
    }
  }

  /** The current revenue merged with the plan on the customer, kept for the portfolio's customers. */
  function PortfolioRevenue(revenue: seq<RevenueRow>, plan: seq<PlanRow>): (rows: seq<WithPlan>)
    ensures forall i :: 0 <= i < |rows| ==>
      && rows[i].0 in revenue && rows[i].0.quarter == QuarterCode() && rows[i].0.customer in PortfolioCustomers
      && (rows[i].1.Some? ==> rows[i].1.value in PlanGms(plan) && rows[i].1.value.customer == rows[i].0.customer)
      && (rows[i].1.None? ==> forall p :: p in PlanGms(plan) ==> p.customer != rows[i].0.customer)
  {
    JoinPlan(revenue, PlanGms(plan))
  }

  /**
   * No current-quarter revenue row of a portfolio customer is lost: it is
   * paired with each plan row of its customer, or kept alone when its
   * customer has no plan.
   */
  lemma {:induction false} PortfolioRevenueComplete(revenue: seq<RevenueRow>, plan: seq<PlanRow>)
    ensures forall r, p ::
      (r in revenue && r.quarter == QuarterCode() && r.customer in PortfolioCustomers
       && p in PlanGms(plan) && p.customer == r.customer) ==> (r, Some(p)) in PortfolioRevenue(revenue, plan)
    ensures forall r ::
      (r in revenue && r.quarter == QuarterCode() && r.customer in PortfolioCustomers
       && forall p :: p in PlanGms(plan) ==> p.customer != r.customer) ==> (r, None) in PortfolioRevenue(revenue, plan)
    ensures forall r :: r in revenue && r.quarter == QuarterCode() && r.customer in PortfolioCustomers ==>
      Carries(PortfolioRevenue(revenue, plan), r)
  {
    var gms := PlanGms(plan);
    var rows := PortfolioRevenue(revenue, plan);
    assert rows == JoinPlan(revenue, gms);
    JoinPlanComplete(revenue, gms);
    forall r | r in revenue && r.quarter == QuarterCode() && r.customer in PortfolioCustomers
      ensures Carries(rows, r)
    {
      var x: WithPlan;
      if forall p :: p in gms ==> p.customer != r.customer {
        x := (r, None);
      } else {
        var p :| p in gms && p.customer == r.customer;
        x := (r, Some(p));
      }
      assert x in rows;
      var j :| 0 <= j < |rows| && rows[j] == x;
      assert rows[j].0 == r;
    }
  }

  function PlanBu(p: Option<PlanGm>): Option<string>
  {
    if p.Some? then Some(p.value.bu) else None
  }

  function CostJoinKey(m: WithPlan): (Option<string>, string, string)
  {
    (PlanBu(m.1), m.0.customer, m.0.month)
  }

  /** A revenue row with its plan and the allocation cost it was merged with, if any. */
  type WithCost = (WithPlan, Option<AllocationRow>)

  /** The merge with the melted allocation cost on business unit, customer and month. */
  function CostMerge(rows: seq<WithPlan>, melted: seq<AllocationRow>): (out: seq<WithCost>)
    ensures forall j :: 0 <= j < |out| ==> exists i :: 0 <= i < |rows| && out[j].0 == rows[i]
    ensures forall j :: 0 <= j < |out| && out[j].1.Some? ==>
      && out[j].1.value in melted && out[j].0.1.Some?
      && out[j].1.value.bu == out[j].0.1.value.bu
      && out[j].1.value.customer == out[j].0.0.customer
      && out[j].1.value.month == out[j].0.0.month
    ensures forall j, a :: 0 <= j < |out| && out[j].1.None? && a in melted ==>
      out[j].0.1.None? || (a.bu, a.customer, a.month) != (out[j].0.1.value.bu, out[j].0.0.customer, out[j].0.0.month)
    ensures forall r :: r in rows ==> exists j :: 0 <= j < |out| && out[j].0 == r
  {
    LeftJoinKeepsLeft(rows, melted, CostJoinKey, AllocationKey);
    LeftJoin(rows, melted, CostJoinKey, AllocationKey)
  }

  /** The allocation cost merge neither repeats nor drops a revenue row. */
  lemma CostMergeKeepsRows(rows: seq<WithPlan>, cost: seq<CostRow>)
    ensures |CostMerge(rows, Melt(GroupedSpec(CostRows(cost), 3)))| == |rows|
    ensures forall i :: 0 <= i < |rows| ==> CostMerge(rows, Melt(GroupedSpec(CostRows(cost), 3)))[i].0 == rows[i]
  {
    var gs := GroupedSpec(CostRows(cost), 3);
    CostGroupsDistinct(cost);
    forall i | 0 <= i < |rows| ensures |Matching(Melt(gs), AllocationKey, CostJoinKey(rows[i]))| <= 1 {
      MeltMatchesAtMostOne(gs, CostJoinKey(rows[i]));
    }
    LeftJoinAtMostOne(rows, Melt(gs), CostJoinKey, AllocationKey);
  }

  function OdcJoinKey(m: WithCost): Option<string>
  {
    PlanBu(m.0.1)
  }

  function OdcKey(o: OdcRow): Option<string>
  {
    Some(o.bu)
  }

  /** A revenue row merged with its plan, allocation cost and rate of other direct costs. */
  type Merged = (WithCost, Option<OdcRow>)

  /** One row of the response. */
  datatype DetailRow = DetailRow(
    revenue: RevenueRow,
    plan: Option<PlanGm>,
    allocationCost: Option<real>,
    otherDirectCosts: Option<real>)

  /** Total_Revenue * ODC: a revenue row's other direct costs at a rate. */
  function OdcAmount(revenue: RevenueRow, o: OdcRow): real
  {
    revenue.totalRevenue * o.rate
  }

  /** OtherDirectCosts = Total_Revenue * ODC, missing where the business unit has no rate. */
  function DetailOf(m: Merged): (d: DetailRow)
    ensures d.revenue == m.0.0.0 && d.plan == m.0.0.1
    ensures d.otherDirectCosts.Some? <==> m.1.Some?
    ensures m.1.Some? ==> d.otherDirectCosts.value == OdcAmount(m.0.0.0, m.1.value)
  {
    var revenue := m.0.0.0;
    DetailRow(
      revenue,
      m.0.0.1,
      if m.0.1.Some? then Some(m.0.1.value.allocationCost) else None,
      if m.1.Some? then Some(OdcAmount(revenue, m.1.value)) else None)
  }

  /** The response rows of the merged rows, one for one. */
  function Details(ms: seq<Merged>): (ds: seq<DetailRow>)
    ensures |ds| == |ms| && forall i :: 0 <= i < |ms| ==> ds[i] == DetailOf(ms[i])
  {
    seq(|ms|, i requires 0 <= i < |ms| => DetailOf(ms[i]))
  }

  /**
   * The merges after the plan: each portfolio row with its allocation cost
   * and its rate of other direct costs. Every response row carries a
   * portfolio row.
   */
  function MergeCosts(portfolio: seq<WithPlan>, odc: seq<OdcRow>, melted: seq<AllocationRow>): (rows: seq<DetailRow>)
    ensures forall i :: 0 <= i < |rows| ==>
      exists k :: 0 <= k < |portfolio| && rows[i].revenue == portfolio[k].0 && rows[i].plan == portfolio[k].1
  {
    var withCost := CostMerge(portfolio, melted);
    var withOdc := LeftJoin(withCost, odc, OdcJoinKey, OdcKey);
    var rows := Details(withOdc);
    forall i | 0 <= i < |rows|
      ensures exists k :: 0 <= k < |portfolio| && rows[i].revenue == portfolio[k].0 && rows[i].plan == portfolio[k].1
    {
      var j :| 0 <= j < |withCost| && withOdc[i].0 == withCost[j];
      var k :| 0 <= k < |portfolio| && withCost[j].0 == portfolio[k];
      assert rows[i].revenue == portfolio[k].0 && rows[i].plan == portfolio[k].1;
    }
    rows
  }

  /**
   * An allocation cost in the response is the cost of a melted row of the
   * same business unit, customer and month; none is attached only when no
   * melted row has that key.
   */
  lemma {:induction false} MergeCostsAllocation(portfolio: seq<WithPlan>, odc: seq<OdcRow>, melted: seq<AllocationRow>)
    ensures var rows := MergeCosts(portfolio, odc, melted);
      forall i :: 0 <= i < |rows| && rows[i].allocationCost.Some? ==>
        rows[i].plan.Some? &&
        exists a :: (a in melted
          && (a.bu, a.customer, a.month) == (rows[i].plan.value.bu, rows[i].revenue.customer, rows[i].revenue.month)
          && rows[i].allocationCost.value == a.allocationCost)
    ensures var rows := MergeCosts(portfolio, odc, melted);
      forall i, a :: (0 <= i < |rows| && rows[i].allocationCost.None? && rows[i].plan.Some? && a in melted) ==>
        (a.bu, a.customer, a.month) != (rows[i].plan.value.bu, rows[i].revenue.customer, rows[i].revenue.month)
  {
    var withCost := CostMerge(portfolio, melted);
    var withOdc := LeftJoin(withCost, odc, OdcJoinKey, OdcKey);
    var rows := MergeCosts(portfolio, odc, melted);
    assert rows == Details(withOdc);
    forall i | 0 <= i < |rows| && rows[i].allocationCost.Some?
      ensures rows[i].plan.Some?
      ensures exists a :: (a in melted
        && (a.bu, a.customer, a.month) == (rows[i].plan.value.bu, rows[i].revenue.customer, rows[i].revenue.month)
        && rows[i].allocationCost.value == a.allocationCost)
    {
      var j :| 0 <= j < |withCost| && withOdc[i].0 == withCost[j];
      assert withCost[j].1.Some?;
      var a := withCost[j].1.value;
      assert rows[i].allocationCost.value == a.allocationCost;
    }
    forall i, a | (0 <= i < |rows| && rows[i].allocationCost.None? && rows[i].plan.Some? && a in melted)
      ensures (a.bu, a.customer, a.month) != (rows[i].plan.value.bu, rows[i].revenue.customer, rows[i].revenue.month)
    {
      var j :| 0 <= j < |withCost| && withOdc[i].0 == withCost[j];
      assert withCost[j].1.None?;
    }
  }

  /**
   * OtherDirectCosts in the response is Total_Revenue times the rate of a
   * rate row of the plan's business unit.
   */
  lemma {:induction false} MergeCostsOdc(portfolio: seq<WithPlan>, odc: seq<OdcRow>, melted: seq<AllocationRow>)
    ensures var rows := MergeCosts(portfolio, odc, melted);
      forall i :: 0 <= i < |rows| && rows[i].otherDirectCosts.Some? ==>
        rows[i].plan.Some? &&
        exists o :: (o in odc && o.bu == rows[i].plan.value.bu
          && rows[i].otherDirectCosts.value == OdcAmount(rows[i].revenue, o))
  {
    var withCost := CostMerge(portfolio, melted);
    var withOdc := LeftJoin(withCost, odc, OdcJoinKey, OdcKey);
    var rows := MergeCosts(portfolio, odc, melted);
    assert rows == Details(withOdc);
    forall i | 0 <= i < |rows| && rows[i].otherDirectCosts.Some?
      ensures rows[i].plan.Some?
      ensures exists o :: (o in odc && o.bu == rows[i].plan.value.bu
        && rows[i].otherDirectCosts.value == OdcAmount(rows[i].revenue, o))
    {
      var m := withOdc[i];
      assert rows[i] == DetailOf(m);
      var o := m.1.value;
      assert o in odc && OdcKey(o) == OdcJoinKey(m.0);
    }
  }

  /** No rate is attached to a planned row only when no rate row has the plan's business unit. */
  lemma {:induction false} MergeCostsOdcMissing(portfolio: seq<WithPlan>, odc: seq<OdcRow>, melted: seq<AllocationRow>)
    ensures var rows := MergeCosts(portfolio, odc, melted);
      forall i, o :: (0 <= i < |rows| && rows[i].otherDirectCosts.None? && rows[i].plan.Some? && o in odc) ==>
        o.bu != rows[i].plan.value.bu
  {
    var withCost := CostMerge(portfolio, melted);
    var withOdc := LeftJoin(withCost, odc, OdcJoinKey, OdcKey);
    var rows := MergeCosts(portfolio, odc, melted);
    assert rows == Details(withOdc);
    forall i, o | (0 <= i < |rows| && rows[i].otherDirectCosts.None? && rows[i].plan.Some? && o in odc)
      ensures o.bu != rows[i].plan.value.bu
    {
      var m := withOdc[i];
      assert rows[i] == DetailOf(m);
      assert Matching(odc, OdcKey, OdcJoinKey(m.0)) == [];
      assert OdcJoinKey(m.0) == Some(rows[i].plan.value.bu);
    }
  }

  /** Every portfolio row is answered by a response row. */
  lemma {:induction false} MergeCostsComplete(portfolio: seq<WithPlan>, odc: seq<OdcRow>, melted: seq<AllocationRow>)
    ensures forall p :: p in portfolio ==>
      exists i :: 0 <= i < |MergeCosts(portfolio, odc, melted)|
        && MergeCosts(portfolio, odc, melted)[i].revenue == p.0 && MergeCosts(portfolio, odc, melted)[i].plan == p.1
  {
    var withCost := CostMerge(portfolio, melted);
    var withOdc := LeftJoin(withCost, odc, OdcJoinKey, OdcKey);
    var rows := MergeCosts(portfolio, odc, melted);
    assert rows == Details(withOdc);
    LeftJoinKeepsLeft(withCost, odc, OdcJoinKey, OdcKey);
    forall p | p in portfolio
      ensures exists i :: 0 <= i < |rows| && rows[i].revenue == p.0 && rows[i].plan == p.1
    {
      var j :| 0 <= j < |withCost| && withCost[j].0 == p;
      assert withCost[j] in withCost;
      var i :| 0 <= i < |withOdc| && withOdc[i].0 == withCost[j];
      assert rows[i] == DetailOf(withOdc[i]);
    }
  }

  /**
   * get_gm_details. A revenue row without a plan has no business unit and so
   * matches no allocation row and no rate.
   */
  function GmDetails(revenue: seq<RevenueRow>, plan: seq<PlanRow>, odc: seq<OdcRow>, cost: seq<CostRow>)
    : (rows: seq<DetailRow>)
    ensures forall i :: 0 <= i < |rows| ==>
      && rows[i].revenue in revenue && rows[i].revenue.quarter == QuarterCode()
      && rows[i].revenue.customer in PortfolioCustomers
      && (rows[i].plan.Some? ==> rows[i].plan.value in PlanGms(plan) && rows[i].plan.value.customer == rows[i].revenue.customer)
  {
    var portfolio := PortfolioRevenue(revenue, plan);
    var rows := MergeCosts(portfolio, odc, Melt(GroupedSpec(CostRows(cost), 3)));
    forall i | 0 <= i < |rows|
      ensures rows[i].revenue in revenue && rows[i].revenue.quarter == QuarterCode()
      ensures rows[i].revenue.customer in PortfolioCustomers
      ensures rows[i].plan.Some? ==> rows[i].plan.value in PlanGms(plan) && rows[i].plan.value.customer == rows[i].revenue.customer
    {
      var k :| 0 <= k < |portfolio| && rows[i].revenue == portfolio[k].0 && rows[i].plan == portfolio[k].1;
    }
    rows
  }

  /** Every current-quarter revenue row of a portfolio customer is in the response. */
  lemma {:induction false} GmDetailsComplete(revenue: seq<RevenueRow>, plan: seq<PlanRow>, odc: seq<OdcRow>, cost: seq<CostRow>)
    ensures forall r :: r in revenue && r.quarter == QuarterCode() && r.customer in PortfolioCustomers ==>
      exists i :: 0 <= i < |GmDetails(revenue, plan, odc, cost)| && GmDetails(revenue, plan, odc, cost)[i].revenue == r
  {
    var portfolio := PortfolioRevenue(revenue, plan);
    var rows := GmDetails(revenue, plan, odc, cost);
    assert rows == MergeCosts(portfolio, odc, Melt(GroupedSpec(CostRows(cost), 3)));
    PortfolioRevenueComplete(revenue, plan);
    MergeCostsComplete(portfolio, odc, Melt(GroupedSpec(CostRows(cost), 3)));
    forall r | r in revenue && r.quarter == QuarterCode() && r.customer in PortfolioCustomers
      ensures exists i :: 0 <= i < |rows| && rows[i].revenue == r
    {
      var k :| 0 <= k < |portfolio| && portfolio[k].0 == r;
      assert portfolio[k] in portfolio;
      var i :| 0 <= i < |rows| && rows[i].revenue == portfolio[k].0 && rows[i].plan == portfolio[k].1;
    }
  }

  /**
   * OtherDirectCosts of a response row is its Total_Revenue times the ODC
   * rate of its plan's business unit.
   */
  lemma {:induction false} GmDetailsOdc(revenue: seq<RevenueRow>, plan: seq<PlanRow>, odc: seq<OdcRow>, cost: seq<CostRow>)
    ensures var rows := GmDetails(revenue, plan, odc, cost);
      forall i :: 0 <= i < |rows| && rows[i].otherDirectCosts.Some? ==>
        rows[i].plan.Some? && exists o :: (o in odc && o.bu == rows[i].plan.value.bu
          && rows[i].otherDirectCosts.value == OdcAmount(rows[i].revenue, o))
  {
    var portfolio := PortfolioRevenue(revenue, plan);
    var melted := Melt(GroupedSpec(CostRows(cost), 3));
    var rows := MergeCosts(portfolio, odc, melted);
    assert GmDetails(revenue, plan, odc, cost) == rows;
    MergeCostsOdc(portfolio, odc, melted);
  }

  /**
   * OtherDirectCosts is missing from a planned response row only when the
   * plan's business unit has no ODC rate.
   */
  lemma {:induction false} GmDetailsOdcMissing(revenue: seq<RevenueRow>, plan: seq<PlanRow>, odc: seq<OdcRow>, cost: seq<CostRow>)
    ensures var rows := GmDetails(revenue, plan, odc, cost);
      forall i, o :: (0 <= i < |rows| && rows[i].otherDirectCosts.None? && rows[i].plan.Some? && o in odc) ==>
        o.bu != rows[i].plan.value.bu
  {
    var portfolio := PortfolioRevenue(revenue, plan);
    var melted := Melt(GroupedSpec(CostRows(cost), 3));
    assert GmDetails(revenue, plan, odc, cost) == MergeCosts(portfolio, odc, melted);
    MergeCostsOdcMissing(portfolio, odc, melted);
  }

  /**
   * AllocationCost of a response row is, for the row's month, the sum of
   * that month's AllocationCost_M column over the allocation lines of the
   * plan's business unit and the row's customer; it is missing only when the
   * row has no plan, its month is not one of the quarter's, or no allocation
   * line has that business unit and customer.
   */
  lemma {:induction false} GmDetailsAllocationCost(revenue: seq<RevenueRow>, plan: seq<PlanRow>, odc: seq<OdcRow>, cost: seq<CostRow>)
    ensures forall i :: 0 <= i < |GmDetails(revenue, plan, odc, cost)| ==>
      var d := GmDetails(revenue, plan, odc, cost)[i];
      d.allocationCost.Some? ==> d.plan.Some? && exists m :: (0 <= m < 3 && d.revenue.month == MonthName(m)
        && d.allocationCost.value == GroupTotal(CostRows(cost), PairKey(d.plan.value.bu, d.revenue.customer), 3)[m])
    ensures forall i, m :: 0 <= i < |GmDetails(revenue, plan, odc, cost)| && 0 <= m < 3 ==>
      var d := GmDetails(revenue, plan, odc, cost)[i];
      (d.plan.Some? && d.revenue.month == MonthName(m)
       && PairKey(d.plan.value.bu, d.revenue.customer) in KeysOf(CostRows(cost))) ==> d.allocationCost.Some?
  {
    var portfolio := PortfolioRevenue(revenue, plan);
    var rows := GmDetails(revenue, plan, odc, cost);
    assert rows == MergeCosts(portfolio, odc, Melt(GroupedSpec(CostRows(cost), 3)));
    MergeCostsAllocation(portfolio, odc, Melt(GroupedSpec(CostRows(cost), 3)));
    forall i | 0 <= i < |rows| && rows[i].allocationCost.Some?
      ensures rows[i].plan.Some? && exists m :: (0 <= m < 3 && rows[i].revenue.month == MonthName(m)
        && rows[i].allocationCost.value == GroupTotal(CostRows(cost), PairKey(rows[i].plan.value.bu, rows[i].revenue.customer), 3)[m])
    {
      var a :| a in Melt(GroupedSpec(CostRows(cost), 3))
        && (a.bu, a.customer, a.month) == (rows[i].plan.value.bu, rows[i].revenue.customer, rows[i].revenue.month)
        && rows[i].allocationCost.value == a.allocationCost;
      MeltedCost(cost, a);
    }
    forall i, m | 0 <= i < |rows| && 0 <= m < 3 && rows[i].plan.Some? && rows[i].revenue.month == MonthName(m)
      && PairKey(rows[i].plan.value.bu, rows[i].revenue.customer) in KeysOf(CostRows(cost))
      ensures rows[i].allocationCost.Some?
    {
      MeltCovers(cost, rows[i].plan.value.bu, rows[i].revenue.customer, m);
    }
  }
}
