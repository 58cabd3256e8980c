/**
 * The filters store of the browser client: the selected month, business
 * units, customers, locations and billability, the rules that narrow the
 * customer list, and the confirm-or-revert flow that guards a selection
 * change while the roster has unsaved edits. The user's answer to the
 * confirmation prompt is a boolean parameter.
 */
module FilterStore {
  import opened PyText
  import opened Seqs

  /** One row of the customer list: a customer group and the business unit it belongs to. */
  datatype Customer = Customer(prismCustomerGroup: string, finalBU: string)

  /** A billability option: the value sent to the server and its display name. */
  datatype BillableOption = BillableOption(value: string, name: string)

  const AvailableLocations: seq<string> := ["Onsite", "Offshore"]
  const AvailableBillableStatus: seq<BillableOption> :=
    [BillableOption("Y", "Billable"), BillableOption("N", "Non-Billable")]
  const BillableValues: seq<string> := ["Y", "N"]

  // ------------------------------------------------------------ selections

  /** The toggle rule shared by every multi-select: checking adds if absent, unchecking removes every copy. */
  function Toggle(selected: seq<string>, v: string, isChecked: bool): (r: seq<string>)
    ensures forall x :: x in r <==> (x in selected && x != v) || (isChecked && x == v)
    ensures isChecked ==> |r| >= |selected| && r[..|selected|] == selected
    ensures isChecked ==> (r == selected <==> v in selected) && |r| <= |selected| + 1
    ensures !isChecked ==> IsSubseq(r, selected)
    ensures !isChecked ==> forall x :: multiset(r)[x] == if x != v then multiset(selected)[x] else 0
    ensures NoDup(selected) ==> NoDup(r)
  {
    if isChecked then
      if v in selected then selected else selected + [v]
    else Without(selected, v)
  }

  /** The selection with every copy of v removed, the rest in order. */
  function Without(selected: seq<string>, v: string): (r: seq<string>)
    ensures forall x :: x in r <==> x in selected && x != v
    ensures IsSubseq(r, selected)
    ensures forall x :: multiset(r)[x] == if x != v then multiset(selected)[x] else 0
    ensures NoDup(selected) ==> NoDup(r)
  {
    var keep := x => x != v;
    var r := Filter(selected, keep);
    FilterOrder(selected, keep);
    assert NoDup(selected) ==> NoDup(r) by {
      if NoDup(selected) {
        FilterKeepsNoDup(selected, keep);
      }
    }
    r
  }

  /** Toggling the same way twice is toggling once. */
  lemma ToggleIdempotent(selected: seq<string>, v: string, isChecked: bool)
    ensures Toggle(Toggle(selected, v, isChecked), v, isChecked) == Toggle(selected, v, isChecked)
  {
    if !isChecked {
      var once := Without(selected, v);
      FilterAllTrue(once, x => x != v);
    }
  }

  /** Checking a value that was not selected and unchecking it again restores the selection. */
  lemma {:induction false} ToggleRoundTrip(selected: seq<string>, v: string)
    requires v !in selected
    ensures Toggle(Toggle(selected, v, true), v, false) == selected
  {
    assert Toggle(selected, v, true) == selected + [v];
    FilterAppend(selected, [v], x => x != v);
    FilterAllTrue(selected, x => x != v);
    assert Filter([v], x => x != v) == [];
    assert selected + [] == selected;
  }

  /** The first occurrence of each value, in input order ([...new Set(values)]). */
  function Distinct(s: seq<string>): (r: seq<string>)
    ensures NoDup(r)
    ensures forall x :: x in r <==> x in s
    ensures |s| > 0 ==> |r| > 0 && r[0] == s[0]
    ensures IsSubseq(r, s)
  {
    if s == [] then []
    else
      var prev := Distinct(s[..|s| - 1]);
      assert s == s[..|s| - 1] + [s[|s| - 1]];
      assert forall x :: x in s <==> x in s[..|s| - 1] || x == s[|s| - 1];
      SubseqSnoc(prev, s[..|s| - 1], s[|s| - 1]);
      if s[|s| - 1] in prev then prev else prev + [s[|s| - 1]]
  }

  /** The first customer kept is the first row, and its unit is the first distinct unit. */
  lemma FirstUnitOfFirstCustomer(rows: seq<Customer>)
    requires |rows| > 0
    ensures |FirstPerGroup(rows)| > 0 && |Distinct(BusinessUnitsOf(rows))| > 0
    ensures FirstPerGroup(rows)[0].finalBU == Distinct(BusinessUnitsOf(rows))[0]
  {
  }

  /** The business units of the rows, in row order. */
  function BusinessUnitsOf(rows: seq<Customer>): (r: seq<string>)
    ensures |r| == |rows| && forall i :: 0 <= i < |rows| ==> r[i] == rows[i].finalBU
  {
    seq(|rows|, i requires 0 <= i < |rows| => rows[i].finalBU)
  }

  predicate HasGroup(cs: seq<Customer>, g: string)
  {
    exists i :: 0 <= i < |cs| && cs[i].prismCustomerGroup == g
  }

  predicate GroupsDistinct(cs: seq<Customer>)
  {
    forall i, j :: 0 <= i < j < |cs| ==> cs[i].prismCustomerGroup != cs[j].prismCustomerGroup
  }

  /** The customer list built at start-up: for each customer group, its first row. */
  function FirstPerGroup(rows: seq<Customer>): (r: seq<Customer>)
    ensures GroupsDistinct(r)
    ensures forall c :: c in r ==> c in rows
    ensures forall g :: HasGroup(r, g) <==> HasGroup(rows, g)
    ensures |rows| > 0 ==> |r| > 0 && r[0] == rows[0]
    ensures IsSubseq(r, rows)
  {
    if rows == [] then []
    else
      var init, last := rows[..|rows| - 1], rows[|rows| - 1];
      var prev := FirstPerGroup(init);
      assert forall g :: HasGroup(rows, g) <==> HasGroup(init, g) || last.prismCustomerGroup == g by {
        forall g | HasGroup(rows, g) ensures HasGroup(init, g) || last.prismCustomerGroup == g {
          var i :| 0 <= i < |rows| && rows[i].prismCustomerGroup == g;
          if i < |init| {
            assert init[i] == rows[i];
          }
        }
        forall g | HasGroup(init, g) ensures HasGroup(rows, g) {
          var i :| 0 <= i < |init| && init[i].prismCustomerGroup == g;
          assert rows[i] == init[i];
        }
      }
      assert rows == init + [last];
      SubseqSnoc(prev, init, last);
      if HasGroup(prev, last.prismCustomerGroup) then prev
      else
        var r := prev + [last];
        assert forall g :: HasGroup(r, g) <==> HasGroup(prev, g) || last.prismCustomerGroup == g by {
          forall g | HasGroup(r, g) ensures HasGroup(prev, g) || last.prismCustomerGroup == g {
            var i :| 0 <= i < |r| && r[i].prismCustomerGroup == g;
            if i < |prev| {
              assert r[i] == prev[i];
            }
          }
          forall g | HasGroup(prev, g) ensures HasGroup(r, g) {
            var i :| 0 <= i < |prev| && prev[i].prismCustomerGroup == g;
            assert r[i] == prev[i];
          }
          assert r[|prev|] == last;
        }
        r
  }

  /** Row i is the first row of its customer group. */
  predicate FirstOfGroup(rows: seq<Customer>, i: int)
  {
    0 <= i < |rows| && forall j :: 0 <= j < i ==> rows[j].prismCustomerGroup != rows[i].prismCustomerGroup
  }

  /** Every customer kept is the first row of its group. */
  lemma {:induction false} FirstPerGroupKeepsFirstRows(rows: seq<Customer>, c: Customer)
    requires c in FirstPerGroup(rows)
    ensures exists i :: FirstOfGroup(rows, i) && rows[i] == c
  {
    var init := rows[..|rows| - 1];
    var last := rows[|rows| - 1];
    var prev := FirstPerGroup(init);
    if c in prev {
      FirstPerGroupKeepsFirstRows(init, c);
      var i :| FirstOfGroup(init, i) && init[i] == c;
      assert rows[i] == init[i];
      assert FirstOfGroup(rows, i) by {
        forall j | 0 <= j < i ensures rows[j].prismCustomerGroup != rows[i].prismCustomerGroup {
          assert rows[j] == init[j];
        }
      }
    } else {
      assert c == last && !HasGroup(init, last.prismCustomerGroup);
      assert FirstOfGroup(rows, |rows| - 1) by {
        forall j | 0 <= j < |rows| - 1 ensures rows[j].prismCustomerGroup != last.prismCustomerGroup {
          assert init[j] == rows[j];
        }
      }
    }
  }

  /** The start-up loop over the customer rows, with the set of groups already seen. */
  method UniqueCustomers(rows: seq<Customer>) returns (unique: seq<Customer>)
    ensures unique == FirstPerGroup(rows)
  {
    unique := [];
    var seen: set<string> := {};
    for i := 0 to |rows|
      invariant unique == FirstPerGroup(rows[..i])
      invariant forall g :: g in seen <==> HasGroup(unique, g)
    {
      assert rows[..i + 1][..i] == rows[..i];
      var c := rows[i];
      if c.prismCustomerGroup !in seen {
        seen := seen + {c.prismCustomerGroup};
        ghost var prev := unique;
        unique := unique + [Customer(c.prismCustomerGroup, c.finalBU)];
        forall g | HasGroup(unique, g) ensures g in seen {
          var k :| 0 <= k < |unique| && unique[k].prismCustomerGroup == g;
          if k < |prev| {
            assert prev[k] == unique[k];
          }
        }
        forall g | g in seen ensures HasGroup(unique, g) {
          if g != c.prismCustomerGroup {
            var k :| 0 <= k < |prev| && prev[k].prismCustomerGroup == g;
            assert unique[k] == prev[k];
          } else {
            assert unique[|prev|].prismCustomerGroup == g;
          }
        }
      }
    }
    assert rows[..|rows|] == rows;
  }

  /** The selection list holding the first customer of a list, or nothing if the list is empty. */
  function FirstCustomer(cs: seq<Customer>): (r: seq<string>)
    ensures |r| <= 1
    ensures |r| == 1 <==> |cs| > 0
    ensures |cs| > 0 ==> r[0] == cs[0].prismCustomerGroup
  {
    if |cs| > 0 then [cs[0].prismCustomerGroup] else []
  }

  // ----------------------------------------------------------- messages

  /** canMakeChanges on a number of selected customers. */
  predicate CanMakeChanges(selectedCount: nat)
    ensures CanMakeChanges(selectedCount) ==> selectedCount > 0 && SelectionMessage(selectedCount) == ""
  {
    selectedCount == 1
  }

  /** customerSelectionMessage on a number of selected customers. */
  function SelectionMessage(selectedCount: nat): (m: string)
    ensures selectedCount == 0 ==> m == "No customer selected. Please select one customer to continue."
    ensures selectedCount > 1 ==>
      m == NatToString(selectedCount) + " customers selected. Please select only one customer to make changes."
  {
    if selectedCount == 0 then "No customer selected. Please select one customer to continue."
    else if selectedCount > 1 then
      NatToString(selectedCount) + " customers selected. Please select only one customer to make changes."
    else ""
  }

  /** The message is empty exactly when changes can be made. */
  lemma MessageEmptyIffCanMakeChanges(selectedCount: nat)
    ensures SelectionMessage(selectedCount) == "" <==> CanMakeChanges(selectedCount)
  {
    if selectedCount > 1 {
      assert |SelectionMessage(selectedCount)| > 0;
    }
  }

  // ------------------------------------------------------- confirmation

  /** How a guarded filter change ends. */
  datatype Confirmation =
    | NoChanges   // no logged roster change: the filters are re-applied
    | Confirmed   // the user accepted: the log is cleared and the page reloads
    | Declined    // the user refused: the change is reverted

  /**
   * updateFiltersWithConfirmation: the user is asked (accepts being the
   * answer to the confirmation prompt) only when the audit log holds entries; the
   * change stands unless the user then refuses.
   */
  function Confirm(auditLogLength: nat, accepts: bool): (c: Confirmation)
    ensures c == Declined <==> auditLogLength > 0 && !accepts
    ensures c == NoChanges <==> auditLogLength == 0
    ensures c == Confirmed <==> auditLogLength > 0 && accepts
  {
    if auditLogLength > 0 then
      if accepts then Confirmed else Declined
    else NoChanges
  }

  // ------------------------------------------------------------ displays

  /** The state of a select-all checkbox. */
  datatype SelectAllState = SelectAllState(checked: bool, indeterminate: bool)

  /** The select-all checkbox, decided on counts alone. */
  function SelectAll(selectedCount: nat, availableCount: nat): (s: SelectAllState)
    ensures s.checked ==> !s.indeterminate
    ensures selectedCount == 0 && availableCount > 0 ==> !s.checked && !s.indeterminate
  {
    var all := selectedCount == availableCount;
    var none := selectedCount == 0;
    SelectAllState(all, !all && !none)
  }

  function Elems(s: seq<string>): set<string>
  {
    set x | x in s
  }

  lemma {:induction false} ElemsSize(s: seq<string>)
    requires NoDup(s)
    ensures |Elems(s)| == |s|
  {
    if s != [] {
      var init := s[..|s| - 1];
      assert NoDup(init);
      ElemsSize(init);
      assert Elems(s) == Elems(init) + {s[|s| - 1]};
      assert s[|s| - 1] !in init;
    }
  }

  lemma {:induction false} SubsetSize(a: set<string>, b: set<string>)
    requires a <= b
    ensures |a| <= |b|
  {
    if a != {} {
      var x :| x in a;
      SubsetSize(a - {x}, b - {x});
    }
  }

  /**
   * On a duplicate-free selection drawn from the options, the count test is
   * the coverage test: the box is checked exactly when every option is
   * selected, and indeterminate exactly when some but not all are.
   */
  lemma SelectAllMeansCoverage(selected: seq<string>, available: seq<string>)
    requires NoDup(selected) && NoDup(available)
    requires forall x :: x in selected ==> x in available
    ensures SelectAll(|selected|, |available|).checked <==> forall x :: x in available ==> x in selected
    ensures SelectAll(|selected|, |available|).indeterminate <==>
      (exists x :: x in selected) && exists y :: y in available && y !in selected
  {
    ElemsSize(selected);
    ElemsSize(available);
    var a, b := Elems(selected), Elems(available);
    assert a <= b;
    if forall x :: x in available ==> x in selected {
      assert a == b;
    } else {
      var y :| y in available && y !in selected;
      SubsetSize(a, b - {y});
    }
    if |selected| > 0 {
      assert selected[0] in selected;
    }
  }

  /** The location button's text, and whether the clear button is hidden. */
  function LocationDisplay(selected: seq<string>): (d: (string, bool))
    ensures d.1 <==> |selected| == |AvailableLocations|
    ensures |selected| == 0 ==> d.0 == "No Locations"
    ensures |selected| == |AvailableLocations| ==> d.0 == "All Locations (2)"
    ensures |selected| == 1 ==> d.0 == selected[0]
    ensures |selected| > |AvailableLocations| ==> d.0 == NatToString(|selected|) + " Locations"
  {
    if |selected| == 0 then ("No Locations", false)
    else if |selected| == |AvailableLocations| then ("All Locations (" + NatToString(|AvailableLocations|) + ")", true)
    else if |selected| == 1 then (selected[0], false)
    else (NatToString(|selected|) + " Locations", false)
  }

  /** The label of a billability value, or the value itself if it is not an option. */
  function BillableLabel(v: string): (l: string)
    ensures v == "Y" ==> l == "Billable"
    ensures v == "N" ==> l == "Non-Billable"
    ensures v != "Y" && v != "N" ==> l == v
  {
    if v == AvailableBillableStatus[0].value then AvailableBillableStatus[0].name
    else if v == AvailableBillableStatus[1].value then AvailableBillableStatus[1].name
    else v
  }

  /** The billability button's text, and whether the clear button is hidden. */
  function BillableDisplay(selected: seq<string>): (d: (string, bool))
    ensures d.1 <==> |selected| == |AvailableBillableStatus|
    ensures |selected| == 0 ==> d.0 == "No Billability"
    ensures |selected| == |AvailableBillableStatus| ==> d.0 == "All Billability (2)"
    ensures |selected| == 1 ==> d.0 == BillableLabel(selected[0])
    ensures |selected| > |AvailableBillableStatus| ==> d.0 == NatToString(|selected|) + " Selected"
  {
    if |selected| == 0 then ("No Billability", false)
    else if |selected| == |AvailableBillableStatus| then
      ("All Billability (" + NatToString(|AvailableBillableStatus|) + ")", true)
    else if |selected| == 1 then (BillableLabel(selected[0]), false)
    else (NatToString(|selected|) + " Selected", false)
  }

  /** The business unit and customer buttons: the first selected value, or the placeholder when none is. */
  function SingleDisplay(selected: seq<string>, placeholder: string): (t: string)
    ensures |selected| > 0 ==> t == selected[0]
    ensures selected == [] ==> t == placeholder
  {
    if |selected| == 0 then placeholder else selected[0]
  }

  /** The month button's text: "Quarter", else the period's name when it is a non-empty string, else the key. */
  function MonthDisplay(month: string, periodData: map<string, string>): (t: string)
    ensures month == "Quarter" ==> t == "Quarter"
    ensures month != "Quarter" && month in periodData && periodData[month] != "" ==> t == periodData[month]
    ensures month != "Quarter" && (month !in periodData || periodData[month] == "") ==> t == month
  {
    if month == "Quarter" then "Quarter"
    else if month in periodData && periodData[month] != "" then periodData[month]
    else month
  }

  // --------------------------------------------------------------- store

  class Store {
    var month: string
    var selectedBusinessUnits: seq<string>
    var selectedCustomers: seq<string>
    var selectedLocations: seq<string>
    var selectedBillableStatus: seq<string>
    var businessUnits: seq<string>
    var customers: seq<Customer>
    var periodData: map<string, string>

    /** No selection holds a value twice, and the lists built at start-up have no repeats. */
    predicate Valid()
      reads this
    {
      && NoDup(selectedBusinessUnits) && NoDup(selectedCustomers)
      && NoDup(selectedLocations) && NoDup(selectedBillableStatus)
      && NoDup(businessUnits) && GroupsDistinct(customers)
    }

    constructor ()
      ensures Valid()
      ensures month == "Quarter" && periodData == map[]
      ensures selectedBusinessUnits == [] && selectedCustomers == [] && selectedLocations == []
      ensures selectedBillableStatus == [] && businessUnits == [] && customers == []
    {
      month := "Quarter";
      selectedBusinessUnits := [];
      selectedCustomers := [];
      selectedLocations := [];
      selectedBillableStatus := [];
      businessUnits := [];
      customers := [];
      periodData := map[];
    }

    /** A customer survives getFilteredCustomers: its unit is selected, or no narrowing applies. */
    predicate Shown(c: Customer)
      reads this
    {
      c.finalBU in selectedBusinessUnits || !(0 < |selectedBusinessUnits| < |businessUnits|)
    }

    /** getFilteredCustomers: narrowed to the selected units unless none or all are selected. */
    function FilteredCustomers(): (r: seq<Customer>)
      reads this
      ensures 0 < |selectedBusinessUnits| < |businessUnits| ==>
        forall c :: c in r <==> c in customers && c.finalBU in selectedBusinessUnits
      ensures !(0 < |selectedBusinessUnits| < |businessUnits|) ==> r == customers
      ensures IsSubseq(r, customers)
      ensures forall c :: multiset(r)[c] == if Shown(c) then multiset(customers)[c] else 0
    {
      var units := selectedBusinessUnits;
      var inUnits := (c: Customer) => c.finalBU in units;
      FilterOrder(customers, inUnits);
      IsSubseqRefl(customers);
      if 0 < |units| < |businessUnits| then Filter(customers, inUnits)
      else customers
    }

    /** With only the first customer's unit selected, that customer is among the filtered ones. */
    lemma FirstCustomerShown()
      requires |customers| > 0 && selectedBusinessUnits == [customers[0].finalBU]
      ensures customers[0] in FilteredCustomers()
    {
      assert Shown(customers[0]) && multiset(customers)[customers[0]] > 0;
    }

    /**
     * init, given the period names and the customer rows as fetched: distinct
     * units, first row per customer group, the first customer and the first
     * unit selected, and every location and billability selected.
     */
    method Init(period: map<string, string>, rows: seq<Customer>)
      modifies this
      ensures Valid()
      ensures businessUnits == Distinct(BusinessUnitsOf(rows)) && customers == FirstPerGroup(rows)
      ensures periodData == period && month == old(month)
      ensures selectedCustomers == FirstCustomer(customers)
      ensures selectedBusinessUnits == if |businessUnits| > 0 then [businessUnits[0]] else []
      ensures selectedLocations == AvailableLocations && selectedBillableStatus == BillableValues
      ensures |rows| > 0 ==> CanMakeChanges(|selectedCustomers|) && customers[0] in FilteredCustomers()
      ensures rows == [] ==> selectedCustomers == [] && selectedBusinessUnits == []
    {
      var units := Distinct(BusinessUnitsOf(rows));
      var unique := UniqueCustomers(rows);
      if |rows| > 0 {
        FirstUnitOfFirstCustomer(rows);
      }
      businessUnits := units;
      periodData := period;
      customers := unique;
      selectedCustomers := if |unique| > 0 then [unique[0].prismCustomerGroup] else [];
      selectedLocations := AvailableLocations;
      selectedBillableStatus := BillableValues;
      selectedBusinessUnits := if |units| > 0 then [units[0]] else [];
      if |rows| > 0 {
        FirstCustomerShown();
      }
    }

    method ToggleBusinessUnit(bu: string, isChecked: bool)
      requires Valid()
      modifies this
      ensures Valid()
      ensures selectedBusinessUnits == Toggle(old(selectedBusinessUnits), bu, isChecked)
      ensures selectedCustomers == old(selectedCustomers) && selectedLocations == old(selectedLocations)
      ensures selectedBillableStatus == old(selectedBillableStatus) && month == old(month)
      ensures businessUnits == old(businessUnits) && customers == old(customers) && periodData == old(periodData)
    {
      if isChecked {
        if bu !in selectedBusinessUnits {
          selectedBusinessUnits := selectedBusinessUnits + [bu];
        }
      } else {
        selectedBusinessUnits := Without(selectedBusinessUnits, bu);
      }
    }

    method ToggleCustomer(customer: string, isChecked: bool)
      requires Valid()
      modifies this
      ensures Valid()
      ensures selectedCustomers == Toggle(old(selectedCustomers), customer, isChecked)
      ensures selectedBusinessUnits == old(selectedBusinessUnits) && selectedLocations == old(selectedLocations)
      ensures selectedBillableStatus == old(selectedBillableStatus) && month == old(month)
      ensures businessUnits == old(businessUnits) && customers == old(customers) && periodData == old(periodData)
    {
      if isChecked {
        if customer !in selectedCustomers {
          selectedCustomers := selectedCustomers + [customer];
        }
      } else {
        selectedCustomers := Without(selectedCustomers, customer);
      }
    }

    /** toggleLocation, with the select-all box it leaves. */
    method ToggleLocation(location: string, isChecked: bool) returns (selectAll: SelectAllState)
      requires Valid()
      modifies this
      ensures Valid()
      ensures selectedLocations == Toggle(old(selectedLocations), location, isChecked)
      ensures selectAll == SelectAll(|selectedLocations|, |AvailableLocations|)
      ensures selectedBusinessUnits == old(selectedBusinessUnits) && selectedCustomers == old(selectedCustomers)
      ensures selectedBillableStatus == old(selectedBillableStatus) && month == old(month)
      ensures businessUnits == old(businessUnits) && customers == old(customers) && periodData == old(periodData)
    {
      if isChecked {
        if location !in selectedLocations {
          selectedLocations := selectedLocations + [location];
        }
      } else {
        selectedLocations := Without(selectedLocations, location);
      }
      selectAll := SelectAll(|selectedLocations|, |AvailableLocations|);
    }

    /** toggleBillableStatus, with the select-all box it leaves. */
    method ToggleBillableStatus(statusValue: string, isChecked: bool) returns (selectAll: SelectAllState)
      requires Valid()
      modifies this
      ensures Valid()
      ensures selectedBillableStatus == Toggle(old(selectedBillableStatus), statusValue, isChecked)
      ensures selectAll == SelectAll(|selectedBillableStatus|, |AvailableBillableStatus|)
      ensures selectedBusinessUnits == old(selectedBusinessUnits) && selectedCustomers == old(selectedCustomers)
      ensures selectedLocations == old(selectedLocations) && month == old(month)
      ensures businessUnits == old(businessUnits) && customers == old(customers) && periodData == old(periodData)
    {
      if isChecked {
        if statusValue !in selectedBillableStatus {
          selectedBillableStatus := selectedBillableStatus + [statusValue];
        }
      } else {
        selectedBillableStatus := Without(selectedBillableStatus, statusValue);
      }
      selectAll := SelectAll(|selectedBillableStatus|, |AvailableBillableStatus|);
    }

    method ToggleAllLocations(selectAll: bool)
      requires Valid()
      modifies this
      ensures Valid()
      ensures selectedLocations == if selectAll then AvailableLocations else []
      ensures selectedBusinessUnits == old(selectedBusinessUnits) && selectedCustomers == old(selectedCustomers)
      ensures selectedBillableStatus == old(selectedBillableStatus) && month == old(month)
      ensures businessUnits == old(businessUnits) && customers == old(customers) && periodData == old(periodData)
    {
      selectedLocations := if selectAll then AvailableLocations else [];
    }

    method ToggleAllBillableStatus(selectAll: bool)
      requires Valid()
      modifies this
      ensures Valid()
      ensures selectedBillableStatus == if selectAll then BillableValues else []
      ensures selectedBusinessUnits == old(selectedBusinessUnits) && selectedCustomers == old(selectedCustomers)
      ensures selectedLocations == old(selectedLocations) && month == old(month)
      ensures businessUnits == old(businessUnits) && customers == old(customers) && periodData == old(periodData)
    {
      selectedBillableStatus := if selectAll then BillableValues else [];
    }

    /**
     * selectBusinessUnitWithConfirmation: one unit is selected; if the user
     * refuses, the previous units come back; otherwise the first customer
     * of the narrowed list is selected, or none. shown and customerShown are
     * the texts the two buttons are left with.
     */
    method SelectBusinessUnitWithConfirmation(bu: string, auditLogLength: nat, accepts: bool)
      returns (c: Confirmation, shown: string, customerShown: string)
      requires Valid()
      modifies this
      ensures Valid()
      ensures c == Confirm(auditLogLength, accepts)
      ensures c == Declined ==>
        selectedBusinessUnits == old(selectedBusinessUnits) && selectedCustomers == old(selectedCustomers)
      ensures c != Declined ==> selectedBusinessUnits == [bu] && selectedCustomers == FirstCustomer(FilteredCustomers())
      ensures shown == SingleDisplay(selectedBusinessUnits, "Select Business Unit")
      ensures customerShown == SingleDisplay(selectedCustomers, "Select Customer")
      ensures c != Declined ==> shown == bu
      ensures c != Declined && 1 < |businessUnits| ==>
        forall g :: g in selectedCustomers ==> Customer(g, bu) in customers
      ensures selectedLocations == old(selectedLocations) && selectedBillableStatus == old(selectedBillableStatus)
      ensures month == old(month)
      ensures businessUnits == old(businessUnits) && customers == old(customers) && periodData == old(periodData)
    {
      var previous := selectedBusinessUnits;
      selectedBusinessUnits := [bu];
      c := Confirm(auditLogLength, accepts);
      if c == Declined {
        selectedBusinessUnits := previous;
      } else {
        var filtered := FilteredCustomers();
        selectedCustomers := if |filtered| > 0 then [filtered[0].prismCustomerGroup] else [];
        if 1 < |businessUnits| && |filtered| > 0 {
          assert filtered[0] in filtered;
        }
      }
      shown := SingleDisplay(selectedBusinessUnits, "Select Business Unit");
      customerShown := SingleDisplay(selectedCustomers, "Select Customer");
    }

    /**
     * selectCustomerWithConfirmation: one customer is selected; if the user
     * refuses, only the previously first customer comes back, and none if
     * that was the empty string, which JavaScript reads as false. shown is
     * the text the customer button is left with.
     */
    method SelectCustomerWithConfirmation(customer: string, auditLogLength: nat, accepts: bool)
      returns (c: Confirmation, shown: string)
      requires Valid()
      modifies this
      ensures Valid()
      ensures c == Confirm(auditLogLength, accepts)
      ensures c != Declined ==> selectedCustomers == [customer] && shown == customer
      ensures shown == SingleDisplay(selectedCustomers, "Select Customer")
      ensures c == Declined ==>
        selectedCustomers == if |old(selectedCustomers)| > 0 && old(selectedCustomers)[0] != ""
          then [old(selectedCustomers)[0]] else []
      ensures c == Declined && |old(selectedCustomers)| <= 1 && "" !in old(selectedCustomers) ==>
        selectedCustomers == old(selectedCustomers)
      ensures selectedBusinessUnits == old(selectedBusinessUnits) && selectedLocations == old(selectedLocations)
      ensures selectedBillableStatus == old(selectedBillableStatus) && month == old(month)
      ensures businessUnits == old(businessUnits) && customers == old(customers) && periodData == old(periodData)
    {
      var previous := if |selectedCustomers| > 0 && selectedCustomers[0] != "" then [selectedCustomers[0]] else [];
      selectedCustomers := [customer];
      c := Confirm(auditLogLength, accepts);
      if c == Declined {
        selectedCustomers := previous;
      }
      shown := SingleDisplay(selectedCustomers, "Select Customer");
    }

    /**
     * selectMonth: the month changes unless the user refuses; the text shown
     * is the given display name (or the key) after the change, and the
     * previous month's display text after a refusal.
     */
    method SelectMonth(monthKey: string, monthDisplay: string, auditLogLength: nat, accepts: bool)
      returns (c: Confirmation, shown: string)
      requires Valid()
      modifies this
      ensures Valid()
      ensures c == Confirm(auditLogLength, accepts)
      ensures c == Declined ==> month == old(month) && shown == MonthDisplay(old(month), periodData)
      ensures c != Declined ==> month == monthKey && shown == if monthDisplay != "" then monthDisplay else monthKey
      ensures selectedBusinessUnits == old(selectedBusinessUnits) && selectedCustomers == old(selectedCustomers)
      ensures selectedLocations == old(selectedLocations) && selectedBillableStatus == old(selectedBillableStatus)
      ensures businessUnits == old(businessUnits) && customers == old(customers) && periodData == old(periodData)
    {
      var previous := month;
      month := monthKey;
      shown := if monthDisplay != "" then monthDisplay else monthKey;
      c := Confirm(auditLogLength, accepts);
      if c == Declined {
        month := previous;
        shown := MonthDisplay(month, periodData);
      }
    }
  }
}
