/**
 * pandas' DataFrame.groupby(keys).sum(): rows are grouped by the tuple of
 * their key columns, each group holds the column-wise sum of its rows'
 * numeric columns, and the groups come out sorted by key (groupby's default
 * sort=True), with Python's ordering of ints and of strings.
 */
module Grouping {

  /** One key column value: an integer column or a string column. */
  datatype Cell = IntCell(i: int) | StrCell(s: string)

  type Key = seq<Cell>

  /** The numeric columns of one row, in column order. */
  type Vec = seq<real>

  /** Python's str comparison: by code point, a proper prefix first. */
  predicate StrLess(a: string, b: string)
    decreases |a|
  {
    |b| > 0 && (|a| == 0 || a[0] < b[0] || (a[0] == b[0] && StrLess(a[1..], b[1..])))
  }

  lemma {:induction false} StrLessIrreflexive(a: string)
    ensures !StrLess(a, a)
    decreases |a|
  {
    if |a| > 0 {
      StrLessIrreflexive(a[1..]);
    }
  }

  lemma {:induction false} StrLessTransitive(a: string, b: string, c: string)
    requires StrLess(a, b) && StrLess(b, c)
    ensures StrLess(a, c)
    decreases |a|
  {
    if |a| > 0 && a[0] == b[0] && b[0] == c[0] {
      StrLessTransitive(a[1..], b[1..], c[1..]);
    }
  }

  lemma {:induction false} StrLessTotal(a: string, b: string)
    requires a != b
    ensures StrLess(a, b) || StrLess(b, a)
    decreases |a|
  {
    if |a| > 0 && |b| > 0 && a[0] == b[0] {
      assert a == [a[0]] + a[1..] && b == [b[0]] + b[1..];
      StrLessTotal(a[1..], b[1..]);
    }
  }

  predicate CellLess(a: Cell, b: Cell)
  {
    match (a, b)
    case (IntCell(x), IntCell(y)) => x < y
    case (StrCell(x), StrCell(y)) => StrLess(x, y)
    case (IntCell(_), StrCell(_)) => true
    case (StrCell(_), IntCell(_)) => false
  }

  lemma CellLessIrreflexive(a: Cell)
    ensures !CellLess(a, a)
  {
    if a.StrCell? {
      StrLessIrreflexive(a.s);
    }
  }

  lemma CellLessTransitive(a: Cell, b: Cell, c: Cell)
    requires CellLess(a, b) && CellLess(b, c)
    ensures CellLess(a, c)
  {
    if a.StrCell? && b.StrCell? && c.StrCell? {
      StrLessTransitive(a.s, b.s, c.s);
    }
  }

  lemma CellLessTotal(a: Cell, b: Cell)
    requires a != b
    ensures CellLess(a, b) || CellLess(b, a)
  {
    if a.StrCell? && b.StrCell? {
      StrLessTotal(a.s, b.s);
    }
  }

  /** Tuple comparison, column by column. */
  predicate KeyLess(a: Key, b: Key)
    decreases |a|
  {
    |b| > 0 && (|a| == 0 || CellLess(a[0], b[0]) || (a[0] == b[0] && KeyLess(a[1..], b[1..])))
  }

  lemma {:induction false} KeyLessIrreflexive(a: Key)
    ensures !KeyLess(a, a)
    decreases |a|
  {
    if |a| > 0 {
      CellLessIrreflexive(a[0]);
      KeyLessIrreflexive(a[1..]);
    }
  }

  lemma {:induction false} KeyLessTransitive(a: Key, b: Key, c: Key)
    requires KeyLess(a, b) && KeyLess(b, c)
    ensures KeyLess(a, c)
    decreases |a|
  {
    if |a| > 0 {
      if a[0] == b[0] && b[0] == c[0] {
        CellLessIrreflexive(a[0]);
        KeyLessTransitive(a[1..], b[1..], c[1..]);
      } else if CellLess(a[0], b[0]) && CellLess(b[0], c[0]) {
        CellLessTransitive(a[0], b[0], c[0]);
      }
    }
  }

  lemma {:induction false} KeyLessTotal(a: Key, b: Key)
    requires a != b
    ensures KeyLess(a, b) || KeyLess(b, a)
    decreases |a|
  {
    if |a| > 0 && |b| > 0 {
      if a[0] == b[0] {
        assert a == [a[0]] + a[1..] && b == [b[0]] + b[1..];
        KeyLessTotal(a[1..], b[1..]);
      } else {
        CellLessTotal(a[0], b[0]);
      }
    }
  }

  /** One input row: its key columns and its numeric columns. */
  datatype Row = Row(key: Key, values: Vec)

  /** One output row of groupby().sum(). */
  datatype Group = Group(key: Key, totals: Vec)

  function Zeros(w: nat): (z: Vec)
    ensures |z| == w && forall c :: 0 <= c < w ==> z[c] == 0.0
  {
    seq(w, c => 0.0)
  }

  function Add(a: Vec, b: Vec): (r: Vec)
    requires |a| == |b|
    ensures |r| == |a| && forall c :: 0 <= c < |a| ==> r[c] == a[c] + b[c]
  {
    seq(|a|, c requires 0 <= c < |a| => a[c] + b[c])
  }

  /** Every row has w numeric columns. */
  predicate Width(rows: seq<Row>, w: nat)
  {
    forall i :: 0 <= i < |rows| ==> |rows[i].values| == w
  }

  /** The column-wise sum of the numeric columns of the rows whose key is k. */
  function GroupTotal(rows: seq<Row>, k: Key, w: nat): (t: Vec)
    requires Width(rows, w)
    ensures |t| == w
  {
    if rows == [] then Zeros(w)
    else
      var prev := GroupTotal(rows[..|rows| - 1], k, w);
      if rows[|rows| - 1].key == k then Add(prev, rows[|rows| - 1].values) else prev
  }

  function KeysOf(rows: seq<Row>): set<Key>
  {
    set i | 0 <= i < |rows| :: rows[i].key
  }

  function GroupKeys(groups: seq<Group>): set<Key>
  {
    set i | 0 <= i < |groups| :: groups[i].key
  }

  /** Strictly increasing keys: sorted, and no key twice. */
  predicate Sorted(groups: seq<Group>)
  {
    forall i, j :: 0 <= i < j < |groups| ==> KeyLess(groups[i].key, groups[j].key)
  }

  /** groups is the result of groupby(...).sum() on rows. */
  predicate IsGrouping(groups: seq<Group>, rows: seq<Row>, w: nat)
    requires Width(rows, w)
  {
    && Sorted(groups)
    && GroupKeys(groups) == KeysOf(rows)
    && forall i :: 0 <= i < |groups| ==> groups[i].totals == GroupTotal(rows, groups[i].key, w)
  }

  lemma {:induction false} TotalOfAbsentKey(rows: seq<Row>, k: Key, w: nat)
    requires Width(rows, w) && k !in KeysOf(rows)
    ensures GroupTotal(rows, k, w) == Zeros(w)
  {
    if rows != [] {
      var init := rows[..|rows| - 1];
      assert KeysOf(init) <= KeysOf(rows) by {
        forall i | 0 <= i < |init| ensures init[i].key in KeysOf(rows) {
          assert init[i] == rows[i];
        }
      }
      TotalOfAbsentKey(init, k, w);
    }
  }

  lemma KeysAppend(before: seq<Row>, row: Row)
    ensures KeysOf(before + [row]) == KeysOf(before) + {row.key}
  {
    var after := before + [row];
    forall k | k in KeysOf(after) ensures k in KeysOf(before) + {row.key} {
      var i :| 0 <= i < |after| && after[i].key == k;
      if i < |before| { assert before[i] == after[i]; }
    }
    forall k | k in KeysOf(before) ensures k in KeysOf(after) {
      var i :| 0 <= i < |before| && before[i].key == k;
      assert after[i] == before[i];
    }
    assert after[|before|] == row;
  }

  lemma KeysPrepend(row: Row, after: seq<Row>)
    ensures KeysOf([row] + after) == {row.key} + KeysOf(after)
  {
    var all := [row] + after;
    forall k | k in KeysOf(all) ensures k in {row.key} + KeysOf(after) {
      var i :| 0 <= i < |all| && all[i].key == k;
      if i > 0 { assert after[i - 1] == all[i]; }
    }
    forall k | k in KeysOf(after) ensures k in KeysOf(all) {
      var i :| 0 <= i < |after| && after[i].key == k;
      assert all[i + 1] == after[i];
    }
    assert all[0] == row;
  }

  lemma TotalAppend(before: seq<Row>, row: Row, k: Key, w: nat)
    requires Width(before, w) && |row.values| == w
    ensures Width(before + [row], w)
    ensures GroupTotal(before + [row], k, w)
         == if row.key == k then Add(GroupTotal(before, k, w), row.values) else GroupTotal(before, k, w)
  {
    var after := before + [row];
    assert after[..|after| - 1] == before;
  }

  /** The row's key already has a group at index j: its totals grow by the row's values. */
  lemma AddToGroup(groups: seq<Group>, before: seq<Row>, row: Row, w: nat, j: nat)
    requires Width(before, w) && |row.values| == w
    requires IsGrouping(groups, before, w)
    requires j < |groups| && groups[j].key == row.key
    ensures Width(before + [row], w)
    ensures IsGrouping(groups[j := Group(row.key, Add(groups[j].totals, row.values))], before + [row], w)
  {
    var next := groups[j := Group(row.key, Add(groups[j].totals, row.values))];
    KeysAppend(before, row);
    assert GroupKeys(next) == GroupKeys(groups) by {
      forall k | k in GroupKeys(groups) ensures k in GroupKeys(next) {
        var i :| 0 <= i < |groups| && groups[i].key == k;
        assert next[i].key == k;
      }
    }
    forall i | 0 <= i < |next| ensures next[i].totals == GroupTotal(before + [row], next[i].key, w) {
      TotalAppend(before, row, next[i].key, w);
      if i != j {
        assert groups[i].key != row.key by {
          if i < j { KeyLessIrreflexive(row.key); } else { KeyLessIrreflexive(row.key); }
        }
      }
    }
  }

  /** The row's key is new and belongs at index j: a group holding just this row goes there. */
  lemma InsertGroup(groups: seq<Group>, before: seq<Row>, row: Row, w: nat, j: nat)
    requires Width(before, w) && |row.values| == w
    requires IsGrouping(groups, before, w)
    requires j <= |groups|
    requires forall t :: 0 <= t < j ==> KeyLess(groups[t].key, row.key)
    requires j < |groups| ==> KeyLess(row.key, groups[j].key)
    ensures Width(before + [row], w)
    ensures IsGrouping(groups[..j] + [Group(row.key, row.values)] + groups[j..], before + [row], w)
  {
    var next := groups[..j] + [Group(row.key, row.values)] + groups[j..];
    forall t | j <= t < |groups| ensures KeyLess(row.key, groups[t].key) {
      if t > j {
        KeyLessTransitive(row.key, groups[j].key, groups[t].key);
      }
    }
    KeyLessIrreflexive(row.key);
    assert row.key !in GroupKeys(groups);
    TotalOfAbsentKey(before, row.key, w);
    assert Add(Zeros(w), row.values) == row.values;
    KeysAppend(before, row);
    assert GroupKeys(next) == GroupKeys(groups) + {row.key} by {
      forall k | k in GroupKeys(groups) ensures k in GroupKeys(next) {
        var i :| 0 <= i < |groups| && groups[i].key == k;
        if i < j { assert next[i].key == k; } else { assert next[i + 1].key == k; }
      }
      assert next[j].key == row.key;
    }
    forall i | 0 <= i < |next| ensures next[i].totals == GroupTotal(before + [row], next[i].key, w) {
      TotalAppend(before, row, next[i].key, w);
    }
  }

  /** Where a key belongs in a sorted grouping: the first group whose key is not below it. */
  function InsertPos(groups: seq<Group>, k: Key): (j: nat)
    ensures j <= |groups|
    ensures forall t :: 0 <= t < j ==> KeyLess(groups[t].key, k)
    ensures j < |groups| ==> !KeyLess(groups[j].key, k)
  {
    if groups == [] || !KeyLess(groups[0].key, k) then 0 else 1 + InsertPos(groups[1..], k)
  }

  /** One row more: added into its key's group, or a new group at its sorted place. */
  function Insert(groups: seq<Group>, row: Row): seq<Group>
    requires forall t :: 0 <= t < |groups| ==> |groups[t].totals| == |row.values|
  {
    var j := InsertPos(groups, row.key);
    if j < |groups| && groups[j].key == row.key then groups[j := Group(row.key, Add(groups[j].totals, row.values))]
    else groups[..j] + [Group(row.key, row.values)] + groups[j..]
  }

  /** groupby(keys).sum() as a left fold of Insert over the rows. */
  function GroupedSpec(rows: seq<Row>, w: nat): (groups: seq<Group>)
    requires Width(rows, w)
    ensures forall t :: 0 <= t < |groups| ==> |groups[t].totals| == w
  {
    if rows == [] then []
    else Insert(GroupedSpec(rows[..|rows| - 1], w), rows[|rows| - 1])
  }

  lemma InsertIsGrouping(groups: seq<Group>, before: seq<Row>, row: Row, w: nat)
    requires Width(before, w) && |row.values| == w
    requires IsGrouping(groups, before, w)
    ensures Width(before + [row], w)
    ensures IsGrouping(Insert(groups, row), before + [row], w)
  {
    var j := InsertPos(groups, row.key);
    if j < |groups| && groups[j].key == row.key {
      AddToGroup(groups, before, row, w, j);
    } else {
      if j < |groups| {
        KeyLessTotal(row.key, groups[j].key);
      }
      InsertGroup(groups, before, row, w, j);
    }
  }

  /** The fold yields a grouping: sorted, one group per key, each holding its key's totals. */
  lemma {:induction false} GroupedSpecIsGrouping(rows: seq<Row>, w: nat)
    requires Width(rows, w)
    ensures IsGrouping(GroupedSpec(rows, w), rows, w)
  {
    if rows != [] {
      var init := rows[..|rows| - 1];
      GroupedSpecIsGrouping(init, w);
      assert init + [rows[|rows| - 1]] == rows;
      InsertIsGrouping(GroupedSpec(init, w), init, rows[|rows| - 1], w);
    }
  }

  /** Adds one more row to the groups, searching for its place from the front. */
  method AddRow(groups: seq<Group>, row: Row) returns (next: seq<Group>)
    requires forall t :: 0 <= t < |groups| ==> |groups[t].totals| == |row.values|
    ensures next == Insert(groups, row)
  {
    var j := 0;
    while j < |groups| && KeyLess(groups[j].key, row.key)
      invariant 0 <= j <= |groups|
      invariant forall t :: 0 <= t < j ==> KeyLess(groups[t].key, row.key)
    {
      j := j + 1;
    }
    if j < |groups| && groups[j].key == row.key {
      next := groups[j := Group(row.key, Add(groups[j].totals, row.values))];
    } else {
      next := groups[..j] + [Group(row.key, row.values)] + groups[j..];
    }
  }

  /** groupby(keys).sum() over rows with w numeric columns. */
  method GroupBy(rows: seq<Row>, w: nat) returns (groups: seq<Group>)
    requires Width(rows, w)
    ensures groups == GroupedSpec(rows, w)
    ensures IsGrouping(groups, rows, w)
  {
    groups := [];
    for i := 0 to |rows|
      invariant Width(rows[..i], w)
      invariant groups == GroupedSpec(rows[..i], w)
    {
      assert rows[..i + 1][..i] == rows[..i];
      groups := AddRow(groups, rows[i]);
    }
    assert rows[..|rows|] == rows;
    GroupedSpecIsGrouping(rows, w);
  }
}
