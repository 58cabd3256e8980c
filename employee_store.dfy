/**
 * The employees store of the browser client: the pool of employees, the base
 * roster, the new hires and the audit log of roster changes. The roster shown
 * is the base roster with the audit log replayed over it.
 */
module EmployeeStore {
  import opened Wrappers
  import opened PyText
  import Seqs

  /** A JSON scalar as the client holds it. */
  datatype JsValue = Undefined | Null | Number(n: real) | Text(s: string) | Flag(b: bool)

  /** An employee record: its id and its other fields. */
  datatype Employee = Employee(id: string, fields: map<string, JsValue>)

  function Field(e: Employee, name: string): JsValue
  {
    if name in e.fields then e.fields[name] else Undefined
  }

  /** One logged roster change; id and timestamp come from the clock and a random source. */
  datatype AuditEntry = AuditEntry(
    id: string,
    timestamp: string,
    action: string,
    employeeId: string,
    oldValue: JsValue,
    newValue: JsValue,
    employeeName: JsValue,
    description: string)

  const EditFteAction: string := "EDIT_FTE"
  const RemoveAction: string := "REMOVE_EMPLOYEE"

  function Ids(s: seq<Employee>): set<string>
  {
    set i | 0 <= i < |s| :: s[i].id
  }

  // ---------------------------------------------------------------- replay

  /** findIndex on the id: the first row with that id. */
  function FirstIndex(roster: seq<Employee>, id: string): (r: Option<nat>)
    ensures r.None? <==> id !in Ids(roster)
    ensures r.Some? ==> r.value < |roster| && roster[r.value].id == id
    ensures r.Some? ==> forall j :: 0 <= j < r.value ==> roster[j].id != id
  {
    if roster == [] then None
    else if roster[0].id == id then Some(0)
    else
      var r := FirstIndex(roster[1..], id);
      assert forall j :: 0 < j < |roster| ==> roster[j] == roster[1..][j - 1];
      assert Ids(roster) == {roster[0].id} + Ids(roster[1..]) by {
        forall x | x in Ids(roster) ensures x in {roster[0].id} + Ids(roster[1..]) {
          var i :| 0 <= i < |roster| && roster[i].id == x;
          if i > 0 {
            assert roster[1..][i - 1].id == x;
          }
        }
      }
      if r.Some? then Some(r.value + 1) else None
  }

  /** Row i is the first row with the id. */
  predicate IsFirst(roster: seq<Employee>, id: string, i: int)
  {
    0 <= i < |roster| && roster[i].id == id && forall j :: 0 <= j < i ==> roster[j].id != id
  }

  /** EDIT_FTE: the first row with the id gets the new FTE; a missing id changes nothing. */
  function EditFte(roster: seq<Employee>, id: string, fte: JsValue): (r: seq<Employee>)
    ensures |r| == |roster| && Ids(r) == Ids(roster)
    ensures id !in Ids(roster) ==> r == roster
    ensures id in Ids(roster) ==>
      exists i :: IsFirst(roster, id, i) && r == roster[i := roster[i].(fields := roster[i].fields["FTE" := fte])]
  {
    match FirstIndex(roster, id)
    case None => roster
    case Some(i) =>
      var r := roster[i := roster[i].(fields := roster[i].fields["FTE" := fte])];
      assert Ids(r) == Ids(roster) by {
        forall x | x in Ids(roster) ensures x in Ids(r) {
          var k :| 0 <= k < |roster| && roster[k].id == x;
          assert r[k].id == x;
        }
      }
      r
  }

  /** REMOVE_EMPLOYEE: every row with the id goes; the rest keep their order. */
  function RemoveEmployee(roster: seq<Employee>, id: string): (r: seq<Employee>)
    ensures |r| <= |roster|
    ensures forall e :: e in r <==> e in roster && e.id != id
    ensures id !in Ids(r) && Ids(r) == Ids(roster) - {id}
    ensures Seqs.IsSubseq(r, roster)
    ensures forall e :: multiset(r)[e] == if e.id != id then multiset(roster)[e] else 0
  {
    var keep := (e: Employee) => e.id != id;
    var r := Seqs.Filter(roster, keep);
    Seqs.FilterOrder(roster, keep);
    assert Ids(r) == Ids(roster) - {id} by {
      forall x | x in Ids(r) ensures x in Ids(roster) - {id} {
        var k :| 0 <= k < |r| && r[k].id == x;
        assert r[k] in roster;
      }
      forall x | x in Ids(roster) - {id} ensures x in Ids(r) {
        var k :| 0 <= k < |roster| && roster[k].id == x;
        assert roster[k] in r;
      }
    }
    r
  }

  /** One step of the replay; actions other than the two roster actions change nothing. */
  function ApplyEntry(roster: seq<Employee>, e: AuditEntry): (r: seq<Employee>)
    ensures Ids(r) <= Ids(roster) && |r| <= |roster|
    ensures e.action == EditFteAction ==> |r| == |roster| && Ids(r) == Ids(roster)
    ensures e.action == RemoveAction ==> e.employeeId !in Ids(r)
    ensures e.action != EditFteAction && e.action != RemoveAction ==> r == roster
  {
    if e.action == EditFteAction then EditFte(roster, e.employeeId, e.newValue)
    else if e.action == RemoveAction then RemoveEmployee(roster, e.employeeId)
    else roster
  }

  /** The roster after the log: the entries applied one by one, in log order. */
  function Replay(base: seq<Employee>, log: seq<AuditEntry>): (r: seq<Employee>)
    ensures |r| <= |base|
    ensures forall e :: e in log && e.action == RemoveAction ==> e.employeeId !in Ids(r)
  {
    if log == [] then base
    else
      assert log == log[..|log| - 1] + [log[|log| - 1]];
      ApplyEntry(Replay(base, log[..|log| - 1]), log[|log| - 1])
  }

  /** applyAuditLog: works on its own copy and leaves the base roster as it is. */
  method ApplyAuditLog(base: seq<Employee>, log: seq<AuditEntry>) returns (result: seq<Employee>)
    ensures result == Replay(base, log)
  {
    result := base;
    for i := 0 to |log|
      invariant result == Replay(base, log[..i])
    {
      assert log[..i + 1][..i] == log[..i];
      var entry := log[i];
      if entry.action == EditFteAction {
        var found := FirstIndex(result, entry.employeeId);
        if found.Some? {
          var k := found.value;
          result := result[k := result[k].(fields := result[k].fields["FTE" := entry.newValue])];
        }
      } else if entry.action == RemoveAction {
        result := Seqs.Filter(result, (e: Employee) => e.id != entry.employeeId);
      }
    }
    assert log[..|log|] == log;
  }

  /** Once an employee is removed, a later edit of that id finds nothing. */
  lemma EditAfterRemove(roster: seq<Employee>, id: string, fte: JsValue)
    ensures EditFte(RemoveEmployee(roster, id), id, fte) == RemoveEmployee(roster, id)
  {
  }

  predicate IsRosterAction(e: AuditEntry)
  {
    e.action == EditFteAction || e.action == RemoveAction
  }

  /** Entries with other actions can be dropped from the log without changing the roster. */
  lemma {:induction false} ReplayIgnoresOtherActions(base: seq<Employee>, log: seq<AuditEntry>)
    ensures Replay(base, log) == Replay(base, Seqs.Filter(log, IsRosterAction))
  {
    if log != [] {
      var init, last := log[..|log| - 1], log[|log| - 1];
      ReplayIgnoresOtherActions(base, init);
      assert log == init + [last];
      Seqs.FilterAppend(init, [last], IsRosterAction);
      var kept := Seqs.Filter(init, IsRosterAction);
      if IsRosterAction(last) {
        assert Seqs.Filter([last], IsRosterAction) == [last];
        assert (kept + [last])[..|kept|] == kept;
      } else {
        assert Seqs.Filter([last], IsRosterAction) == [];
        assert kept + [] == kept;
      }
    }
  }

  /** Replaying never brings in an employee: the roster's ids stay among the base roster's. */
  lemma {:induction false} ReplayKeepsIds(base: seq<Employee>, log: seq<AuditEntry>)
    ensures Ids(Replay(base, log)) <= Ids(base)
  {
    if log != [] {
      ReplayKeepsIds(base, log[..|log| - 1]);
    }
  }

  /** Logging one more entry replays as that entry applied to the roster before it. */
  lemma ReplayAppend(base: seq<Employee>, log: seq<AuditEntry>, e: AuditEntry)
    ensures Replay(base, log + [e]) == ApplyEntry(Replay(base, log), e)
  {
    assert (log + [e])[..|log|] == log;
  }

  // ----------------------------------------------------------- descriptions

  /** String(v) in JavaScript, with the conversion of numbers given by numText. */
  function JsText(v: JsValue, numText: real -> string): string
  {
    match v
    case Undefined => "undefined"
    case Null => "null"
    case Number(n) => numText(n)
    case Text(s) => s
    case Flag(b) => if b then "true" else "false"
  }

  /** getAuditDescription. */
  function AuditDescription(action: string, name: JsValue, oldValue: JsValue, newValue: JsValue, numText: real -> string)
    : (d: string)
    ensures action == EditFteAction ==>
      d == JsText(name, numText) + ": FTE changed from " + JsText(oldValue, numText) + " to " + JsText(newValue, numText)
    ensures action == RemoveAction ==> d == JsText(name, numText) + ": Removed from roster"
    ensures action != EditFteAction && action != RemoveAction <==> d == ""
  {
    var who := JsText(name, numText);
    if action == EditFteAction then who + ": FTE changed from " + JsText(oldValue, numText) + " to " + JsText(newValue, numText)
    else if action == RemoveAction then who + ": Removed from roster"
    else ""
  }

  /** The rows of the pool that are neither on the roster nor new hires, in pool order. */
  function Available(total: seq<Employee>, roster: seq<Employee>, hires: seq<Employee>): (r: seq<Employee>)
    ensures forall e :: e in r <==> e in total && e.id !in Ids(roster) && e.id !in Ids(hires)
    ensures Seqs.IsSubseq(r, total)
    ensures forall e :: multiset(r)[e] == if e.id !in Ids(roster) + Ids(hires) then multiset(total)[e] else 0
  {
    var keep := (e: Employee) => e.id !in Ids(roster) + Ids(hires);
    Seqs.FilterOrder(total, keep);
    Seqs.Filter(total, keep)
  }

  /** A new hire's id: newhire1, newhire2, ... */
  function NewHireId(n: nat): (id: string)
    ensures |id| > 7 && id[..7] == "newhire"
    ensures ParseInt(id[7..]) == Some(n)
  {
    var id := "newhire" + NatToString(n);
    assert id[7..] == NatToString(n) == IntToString(n);
    ParseIntOfIntToString(n);
    id
  }

  /** Distinct counts give distinct new-hire ids. */
  lemma NewHireIdInjective(a: nat, b: nat)
    requires NewHireId(a) == NewHireId(b)
    ensures a == b
  {
    var sa, sb := NatToString(a), NatToString(b);
    assert sa == NewHireId(a)[7..] && sb == NewHireId(b)[7..];
    DigitsOfNat(a);
    DigitsOfNat(b);
  }

  // ----------------------------------------------------------------- store

  class Store {
    var totalEmployees: seq<Employee>
    var baseRosterEmployees: seq<Employee>
    var newHires: seq<Employee>
    var loading: bool
    var auditLogVersion: nat
    /** The log kept in the browser's local storage; a missing item reads as []. */
    var auditLog: seq<AuditEntry>

    /** The n-th new hire has id newhire<n>. */
    predicate Valid()
      reads this
    {
      forall i :: 0 <= i < |newHires| ==> newHires[i].id == NewHireId(i + 1)
    }

    constructor (storedLog: seq<AuditEntry>)
      ensures Valid()
      ensures totalEmployees == [] && baseRosterEmployees == [] && newHires == []
      ensures loading && auditLogVersion == 0 && auditLog == storedLog
    {
      totalEmployees := [];
      baseRosterEmployees := [];
      newHires := [];
      loading := true;
      auditLogVersion := 0;
      auditLog := storedLog;
    }

    /** init: the pool and the roster as fetched; a failed fetch gives []. */
    method Init(total: Option<seq<Employee>>, roster: Option<seq<Employee>>)
      modifies this
      ensures totalEmployees == total.GetOr([]) && baseRosterEmployees == roster.GetOr([]) && !loading
      ensures newHires == old(newHires) && auditLog == old(auditLog) && auditLogVersion == old(auditLogVersion)
    {
      loading := true;
      totalEmployees := total.GetOr([]);
      baseRosterEmployees := roster.GetOr([]);
      loading := false;
    }

    /** The rosterEmployees getter. */
    method RosterEmployees() returns (roster: seq<Employee>)
      ensures roster == Replay(baseRosterEmployees, auditLog)
    {
      roster := ApplyAuditLog(baseRosterEmployees, auditLog);
    }

    /** addAuditEntry: exactly one entry more, at the end of the log. */
    method AddAuditEntry(
      entryId: string, timestamp: string, action: string, employeeId: string,
      oldValue: JsValue, newValue: JsValue, employeeName: JsValue, numText: real -> string)
      modifies this
      ensures auditLog == old(auditLog) + [AuditEntry(entryId, timestamp, action, employeeId, oldValue, newValue,
        employeeName, AuditDescription(action, employeeName, oldValue, newValue, numText))]
      ensures auditLogVersion == old(auditLogVersion) + 1
      ensures Replay(baseRosterEmployees, auditLog) == ApplyEntry(old(Replay(baseRosterEmployees, auditLog)), auditLog[|auditLog| - 1])
      ensures totalEmployees == old(totalEmployees) && baseRosterEmployees == old(baseRosterEmployees)
      ensures newHires == old(newHires) && loading == old(loading)
    {
      var entry := AuditEntry(entryId, timestamp, action, employeeId, oldValue, newValue, employeeName,
        AuditDescription(action, employeeName, oldValue, newValue, numText));
      ReplayAppend(baseRosterEmployees, auditLog, entry);
      auditLog := auditLog + [entry];
      auditLogVersion := auditLogVersion + 1;
    }

    /** clearAuditLog: the roster goes back to the base roster. */
    method ClearAuditLog()
      modifies this
      ensures auditLog == [] && auditLogVersion == old(auditLogVersion) + 1
      ensures Replay(baseRosterEmployees, auditLog) == baseRosterEmployees
      ensures totalEmployees == old(totalEmployees) && baseRosterEmployees == old(baseRosterEmployees)
      ensures newHires == old(newHires) && loading == old(loading)
    {
      auditLog := [];
      auditLogVersion := auditLogVersion + 1;
    }

    /** getAvailableEmployees. */
    method GetAvailableEmployees() returns (available: seq<Employee>)
      ensures available == Available(totalEmployees, Replay(baseRosterEmployees, auditLog), newHires)
    {
      var roster := RosterEmployees();
      var taken := Ids(roster) + Ids(newHires);
      available := Seqs.Filter(totalEmployees, (e: Employee) => e.id !in taken);
    }

    /** addToRoster: the employee with its FTE, location and billability, appended to the base roster. */
    method AddToRoster(employee: Employee, fte: real, location: string, isBillable: bool)
      modifies this
      ensures baseRosterEmployees == old(baseRosterEmployees) + [employee.(fields := employee.fields
        ["fte" := Number(fte)]["location" := Text(location)]["isBillable" := Flag(isBillable)])]
      ensures totalEmployees == old(totalEmployees) && newHires == old(newHires)
      ensures auditLog == old(auditLog) && auditLogVersion == old(auditLogVersion) && loading == old(loading)
    {
      var added := employee.(fields := employee.fields["fte" := Number(fte)]["location" := Text(location)]["isBillable" := Flag(isBillable)]);
      baseRosterEmployees := baseRosterEmployees + [added];
    }

    /** setFilteredEmployees: the base roster becomes a copy of the given rows. */
    method SetFilteredEmployees(data: seq<Employee>)
      modifies this
      ensures baseRosterEmployees == data
      ensures totalEmployees == old(totalEmployees) && newHires == old(newHires)
      ensures auditLog == old(auditLog) && auditLogVersion == old(auditLogVersion) && loading == old(loading)
    {
      baseRosterEmployees := data;
    }

    /** The first base-roster row with the id, as find() returns it. */
    function FindBase(id: string): (r: Option<Employee>)
      reads this
      ensures r.Some? <==> id in Ids(baseRosterEmployees)
      ensures r.Some? ==> r.value.id == id && r.value in baseRosterEmployees
      ensures r.Some? ==> exists i :: IsFirst(baseRosterEmployees, id, i) && r.value == baseRosterEmployees[i]
    {
      match FirstIndex(baseRosterEmployees, id)
      case None => None
      case Some(i) => Some(baseRosterEmployees[i])
    }

    /**
     * removeFromRoster: logged only for an employee of the base roster, whom
     * the replayed roster then no longer holds.
     */
    method RemoveFromRoster(employeeId: string, entryId: string, timestamp: string, numText: real -> string)
      modifies this
      ensures old(FindBase(employeeId)).None? ==> auditLog == old(auditLog) && auditLogVersion == old(auditLogVersion)
      ensures old(FindBase(employeeId)).Some? ==>
        && auditLog == old(auditLog) + [AuditEntry(entryId, timestamp, RemoveAction, employeeId, Null, Null,
             Field(old(FindBase(employeeId)).value, "EmployeeName"),
             AuditDescription(RemoveAction, Field(old(FindBase(employeeId)).value, "EmployeeName"), Null, Null, numText))]
        && auditLogVersion == old(auditLogVersion) + 1
        && employeeId !in Ids(Replay(baseRosterEmployees, auditLog))
      ensures totalEmployees == old(totalEmployees) && baseRosterEmployees == old(baseRosterEmployees)
      ensures newHires == old(newHires) && loading == old(loading)
    {
      var employee := FindBase(employeeId);
      if employee.Some? {
        AddAuditEntry(entryId, timestamp, RemoveAction, employeeId, Null, Null, Field(employee.value, "EmployeeName"), numText);
      }
    }

    /**
     * updateEmployeeFTE: logged only for an employee of the base roster; the
     * replayed roster then carries the new FTE on that employee's first row,
     * unless an earlier entry removed the employee.
     */
    method UpdateEmployeeFTE(employeeId: string, oldFte: JsValue, newFte: JsValue, entryId: string, timestamp: string,
      numText: real -> string)
      modifies this
      ensures old(FindBase(employeeId)).None? ==> auditLog == old(auditLog) && auditLogVersion == old(auditLogVersion)
      ensures old(FindBase(employeeId)).Some? ==>
        && auditLog == old(auditLog) + [AuditEntry(entryId, timestamp, EditFteAction, employeeId, oldFte, newFte,
             Field(old(FindBase(employeeId)).value, "EmployeeName"),
             AuditDescription(EditFteAction, Field(old(FindBase(employeeId)).value, "EmployeeName"), oldFte, newFte, numText))]
        && auditLogVersion == old(auditLogVersion) + 1
        && Replay(baseRosterEmployees, auditLog) == EditFte(old(Replay(baseRosterEmployees, auditLog)), employeeId, newFte)
      ensures totalEmployees == old(totalEmployees) && baseRosterEmployees == old(baseRosterEmployees)
      ensures newHires == old(newHires) && loading == old(loading)
    {
      var employee := FindBase(employeeId);
      if employee.Some? {
        AddAuditEntry(entryId, timestamp, EditFteAction, employeeId, oldFte, newFte, Field(employee.value, "EmployeeName"), numText);
      }
    }

    /** addNewHire: the hire is appended with the next id in the newhire sequence. */
    method AddNewHire(hire: Employee)
      requires Valid()
      modifies this
      ensures Valid()
      ensures newHires == old(newHires) + [hire.(id := NewHireId(|old(newHires)| + 1))]
      ensures totalEmployees == old(totalEmployees) && baseRosterEmployees == old(baseRosterEmployees)
      ensures auditLog == old(auditLog) && auditLogVersion == old(auditLogVersion) && loading == old(loading)
    {
      newHires := newHires + [hire.(id := NewHireId(|newHires| + 1))];
    }
  }

  /** In a valid store no two new hires share an id. */
  lemma NewHireIdsDistinct(hires: seq<Employee>)
    requires forall i :: 0 <= i < |hires| ==> hires[i].id == NewHireId(i + 1)
    ensures forall i, j :: 0 <= i < j < |hires| ==> hires[i].id != hires[j].id
  {
    forall i, j | 0 <= i < j < |hires| ensures hires[i].id != hires[j].id {
      assert ParseInt(hires[i].id[7..]) == Some(i + 1) && ParseInt(hires[j].id[7..]) == Some(j + 1);
    }
  }
}
