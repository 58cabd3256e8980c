/**
 * Python dicts from str to float. A dict keeps its keys in insertion order;
 * assigning to a key already present replaces its value in place.
 */
module PyDict {
  import opened Wrappers

  type Dict = seq<(string, real)>

  /** No key twice. */
  predicate Unique(d: Dict)
  {
    forall i, j :: 0 <= i < j < |d| ==> d[i].0 != d[j].0
  }

  predicate HasKey(d: Dict, k: string)
  {
    exists i :: 0 <= i < |d| && d[i].0 == k
  }

  /** d.get(k): the value stored under k, if any. */
  function Get(d: Dict, k: string): (r: Option<real>)
    ensures r.Some? <==> HasKey(d, k)
    ensures r.Some? ==> exists i :: 0 <= i < |d| && d[i] == (k, r.value)
  {
    if d == [] then None
    else if d[0].0 == k then Some(d[0].1)
    else
      var r := Get(d[1..], k);
      assert forall i :: 0 < i < |d| ==> d[i] == d[1..][i - 1];
      r
  }

  /** d[k] = v. */
  function Put(d: Dict, k: string, v: real): (r: Dict)
    requires Unique(d)
    ensures Unique(r)
    ensures Get(r, k) == Some(v)
    ensures forall k' :: k' != k ==> Get(r, k') == Get(d, k')
    ensures |r| == if HasKey(d, k) then |d| else |d| + 1
  {
    if d == [] then [(k, v)]
    else if d[0].0 == k then
      assert forall i :: 0 < i < |d| ==> d[i] == d[1..][i - 1];
      [(k, v)] + d[1..]
    else
      var rest := Put(d[1..], k, v);
      assert forall i :: 0 < i < |d| ==> d[i] == d[1..][i - 1];
      assert Get(rest, d[0].0).None?;
      [d[0]] + rest
  }

  /** sum(d.values()). */
  function SumValues(d: Dict): real
  {
    if d == [] then 0.0 else d[0].1 + SumValues(d[1..])
  }

  /** A dict filled by assigning the entries one after the other, starting from {}. */
  function FoldPut(entries: seq<(string, real)>): (d: Dict)
    ensures Unique(d)
  {
    if entries == [] then []
    else
      var last := entries[|entries| - 1];
      Put(FoldPut(entries[..|entries| - 1]), last.0, last.1)
  }

  /** The value of the last entry for key k. */
  function LastValue(entries: seq<(string, real)>, k: string): (r: Option<real>)
    ensures r.None? <==> forall i :: 0 <= i < |entries| ==> entries[i].0 != k
    ensures r.Some? ==>
      exists i :: 0 <= i < |entries| && entries[i] == (k, r.value) && forall j :: i < j < |entries| ==> entries[j].0 != k
  {
    if entries == [] then None
    else if entries[|entries| - 1].0 == k then Some(entries[|entries| - 1].1)
    else
      var init := entries[..|entries| - 1];
      var r := LastValue(init, k);
      assert forall i :: 0 <= i < |init| ==> init[i] == entries[i];
      assert r.Some? ==>
        exists i :: 0 <= i < |entries| && entries[i] == (k, r.value) && forall j :: i < j < |entries| ==> entries[j].0 != k
      by {
        if r.Some? {
          var i :| 0 <= i < |init| && init[i] == (k, r.value) && forall j :: i < j < |init| ==> init[j].0 != k;
          assert entries[i] == (k, r.value);
        }
      }
      r
  }

  /** Filling a dict entry by entry: every key ends up holding its last assigned value. */
  lemma {:induction false} GetFoldPut(entries: seq<(string, real)>, k: string)
    ensures Get(FoldPut(entries), k) == LastValue(entries, k)
  {
    if entries != [] {
      GetFoldPut(entries[..|entries| - 1], k);
    }
  }

  function EntryKeys(entries: seq<(string, real)>): set<string>
  {
    set i | 0 <= i < |entries| :: entries[i].0
  }

  /** The filled dict has one entry per distinct key. */
  lemma {:induction false} FoldPutSize(entries: seq<(string, real)>)
    ensures |FoldPut(entries)| == |EntryKeys(entries)|
  {
    if entries != [] {
      var init := entries[..|entries| - 1];
      var k := entries[|entries| - 1].0;
      FoldPutSize(init);
      GetFoldPut(init, k);
      assert EntryKeys(entries) == EntryKeys(init) + {k} by {
        forall x | x in EntryKeys(entries) ensures x in EntryKeys(init) + {k} {
          var i :| 0 <= i < |entries| && entries[i].0 == x;
          if i < |entries| - 1 {
            assert init[i] == entries[i];
          }
        }
        forall x | x in EntryKeys(init) ensures x in EntryKeys(entries) {
          var i :| 0 <= i < |init| && init[i].0 == x;
          assert entries[i] == init[i];
        }
      }
      if k in EntryKeys(init) {
        var i :| 0 <= i < |init| && init[i].0 == k;
        assert LastValue(init, k).Some?;
      } else {
        assert LastValue(init, k).None?;
      }
    }
  }

  /** Values between lo and hi sum to between |d| times lo and |d| times hi. */
  lemma {:induction false} SumValuesBounds(d: Dict, lo: real, hi: real)
    requires forall i :: 0 <= i < |d| ==> lo <= d[i].1 <= hi
    ensures lo * |d| as real <= SumValues(d) <= hi * |d| as real
  {
    if d != [] {
      assert forall i :: 0 <= i < |d[1..]| ==> d[1..][i] == d[i + 1];
      SumValuesBounds(d[1..], lo, hi);
    }
  }
}
