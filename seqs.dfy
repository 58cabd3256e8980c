/** Sequence helpers that stand for JavaScript's Array.filter/includes and pandas boolean masks. */
module Seqs {

  /** r can be obtained from s by deleting elements: r's elements occur in s in the same order. */
  predicate IsSubseq<T(==)>(r: seq<T>, s: seq<T>)
  {
    r == [] || (s != [] && ((r[0] == s[0] && IsSubseq(r[1..], s[1..])) || IsSubseq(r, s[1..])))
  }

  /** The elements of s that satisfy p, in their original order. */
  function Filter<T(==,!new)>(s: seq<T>, p: T -> bool): (r: seq<T>)
    ensures |r| <= |s|
    ensures forall x :: x in r <==> x in s && p(x)
  {
    if s == [] then []
    else if p(s[0]) then [s[0]] + Filter(s[1..], p)
    else Filter(s[1..], p)
  }

  /**
   * Filter keeps order and multiplicity: the result is a subsequence of s
   * holding every copy of each element that satisfies p and nothing else.
   */
  lemma {:induction false} FilterOrder<T(!new)>(s: seq<T>, p: T -> bool)
    ensures IsSubseq(Filter(s, p), s)
    ensures forall x :: multiset(Filter(s, p))[x] == if p(x) then multiset(s)[x] else 0
  {
    if s != [] {
      FilterOrder(s[1..], p);
      assert s == [s[0]] + s[1..];
      if p(s[0]) {
        assert ([s[0]] + Filter(s[1..], p))[1..] == Filter(s[1..], p);
      }
    }
  }

  /** Every sequence is a subsequence of itself. */
  lemma {:induction false} IsSubseqRefl<T>(s: seq<T>)
    ensures IsSubseq(s, s)
  {
    if s != [] {
      IsSubseqRefl(s[1..]);
    }
  }

  /** Appending the same element to both sides, or to the longer one only, keeps a subsequence. */
  lemma {:induction false} SubseqSnoc<T>(r: seq<T>, s: seq<T>, x: T)
    requires IsSubseq(r, s)
    ensures IsSubseq(r, s + [x])
    ensures IsSubseq(r + [x], s + [x])
    decreases |s|
  {
    if r == [] {
      assert r + [x] == [x];
      if s == [] {
        assert [x][1..] == [];
      } else {
        SubseqSnoc(r, s[1..], x);
        assert (s + [x])[1..] == s[1..] + [x];
      }
    } else {
      assert (r + [x])[0] == r[0] && (r + [x])[1..] == r[1..] + [x];
      assert (s + [x])[0] == s[0] && (s + [x])[1..] == s[1..] + [x];
      if r[0] == s[0] && IsSubseq(r[1..], s[1..]) {
        SubseqSnoc(r[1..], s[1..], x);
      } else {
        SubseqSnoc(r, s[1..], x);
      }
    }
  }

  lemma {:induction false} FilterAppend<T(!new)>(a: seq<T>, b: seq<T>, p: T -> bool)
    ensures Filter(a + b, p) == Filter(a, p) + Filter(b, p)
  {
    if a == [] {
      assert a + b == b;
    } else {
      assert (a + b)[1..] == a[1..] + b;
      FilterAppend(a[1..], b, p);
    }
  }

  lemma {:induction false} FilterAllTrue<T(!new)>(s: seq<T>, p: T -> bool)
    requires forall x :: x in s ==> p(x)
    ensures Filter(s, p) == s
  {
    if s != [] {
      FilterAllTrue(s[1..], p);
    }
  }

  lemma {:induction false} FilterNoneTrue<T(!new)>(s: seq<T>, p: T -> bool)
    requires forall x :: x in s ==> !p(x)
    ensures Filter(s, p) == []
  {
    if s != [] {
      FilterNoneTrue(s[1..], p);
    }
  }

  /** When p holds for at most one position of s, at most one element is kept. */
  lemma {:induction false} FilterAtMostOne<T(!new)>(s: seq<T>, p: T -> bool)
    requires forall i, j :: 0 <= i < j < |s| && p(s[i]) ==> !p(s[j])
    ensures |Filter(s, p)| <= 1
  {
    if s != [] {
      var t := s[1..];
      forall i, j | 0 <= i < j < |t| && p(t[i]) ensures !p(t[j]) {
        assert t[i] == s[i + 1] && t[j] == s[j + 1];
      }
      FilterAtMostOne(t, p);
      if p(s[0]) {
        forall x | x in t ensures !p(x) {
          var j :| 0 <= j < |t| && t[j] == x;
          assert s[j + 1] == x;
        }
        FilterNoneTrue(t, p);
      }
    }
  }

  /** No value occurs twice. */
  predicate NoDup<T(==)>(s: seq<T>)
  {
    forall i, j :: 0 <= i < j < |s| ==> s[i] != s[j]
  }

  lemma {:induction false} FilterKeepsNoDup<T(!new)>(s: seq<T>, p: T -> bool)
    requires NoDup(s)
    ensures NoDup(Filter(s, p))
  {
    if s != [] {
      FilterKeepsNoDup(s[1..], p);
      if p(s[0]) {
        assert s[0] !in s[1..];
      }
    }
  }
}
