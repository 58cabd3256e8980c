/**
 * The text conversions the application relies on: Python's str() of an
 * integer (which JavaScript template strings write the same way), Python's
 * int() of a string, and Python's slicing of strings.
 */
module PyText {
  import opened Wrappers

  predicate IsDigit(c: char) { '0' <= c <= '9' }

  predicate AllDigits(s: string) { forall i :: 0 <= i < |s| ==> IsDigit(s[i]) }

  function DigitChar(d: nat): (c: char)
    requires d < 10
    ensures IsDigit(c)
  {
    ('0' as int + d) as char
  }

  function DigitValue(c: char): (d: nat)
    requires IsDigit(c)
    ensures d < 10 && DigitChar(d) == c
  {
    c as int - '0' as int
  }

  /** Decimal rendering of a natural number, most significant digit first. */
  function NatToString(n: nat): (s: string)
    ensures |s| > 0 && AllDigits(s)
    ensures s[0] == '0' ==> n == 0
    decreases n
  {
    if n < 10 then [DigitChar(n)] else NatToString(n / 10) + [DigitChar(n % 10)]
  }

  /** Decimal rendering of an integer, with a leading '-' when negative (Python's str(int)). */
  function IntToString(i: int): (s: string)
    ensures |s| > 0
    ensures s[0] == '-' <==> i < 0
  {
    if i < 0 then "-" + NatToString(-i) else NatToString(i)
  }

  /** The value of a non-empty run of decimal digits, leading zeros allowed. */
  function DigitsValue(s: string): nat
    requires AllDigits(s)
  {
    if s == [] then 0 else DigitsValue(s[..|s| - 1]) * 10 + DigitValue(s[|s| - 1])
  }

  /** The characters Python's str.strip() and int() treat as white space, ASCII range only. */
  predicate IsSpace(c: char)
  {
    c == ' ' || 9 <= c as int <= 13 || 28 <= c as int <= 31
  }

  function StripLeft(s: string): (r: string)
    ensures |r| <= |s| && (r == [] || !IsSpace(r[0]))
  {
    if s != [] && IsSpace(s[0]) then StripLeft(s[1..]) else s
  }

  function StripRight(s: string): (r: string)
    ensures |r| <= |s| && (r == [] || !IsSpace(r[|r| - 1]))
  {
    if s != [] && IsSpace(s[|s| - 1]) then StripRight(s[..|s| - 1]) else s
  }

  function Strip(s: string): string
  {
    StripLeft(StripRight(s))
  }

  /** The text after an optional leading sign. */
  function Unsigned(t: string): string
  {
    if t != [] && (t[0] == '-' || t[0] == '+') then t[1..] else t
  }

  /** Integer text: an optional sign followed by one or more decimal digits. */
  predicate IsIntText(t: string)
  {
    Unsigned(t) != [] && AllDigits(Unsigned(t))
  }

  /**
   * Python's int(s) on a string: surrounding white space is ignored, an
   * optional sign, then one or more decimal digits. None stands for the
   * ValueError it raises otherwise.
   */
  function ParseInt(s: string): (r: Option<int>)
    ensures r.Some? <==> IsIntText(Strip(s))
    ensures r.Some? ==> (Strip(s) != [] && r.value == (if Strip(s)[0] == '-' then -1 else 1) * DigitsValue(Unsigned(Strip(s))))
  {
    var t := Strip(s);
    if t == [] then None
    else if t[0] == '-' || t[0] == '+' then
      var body := t[1..];
      if body != [] && AllDigits(body) then
        var v: int := DigitsValue(body);
        Some(if t[0] == '-' then -v else v)
      else None
    else if AllDigits(t) then Some(DigitsValue(t))
    else None
  }

  lemma {:induction false} DigitsOfNat(n: nat)
    ensures DigitsValue(NatToString(n)) == n
    decreases n
  {
    var s := NatToString(n);
    if n >= 10 {
      assert s[..|s| - 1] == NatToString(n / 10);
      DigitsOfNat(n / 10);
    }
  }

  lemma StripNoSpace(s: string)
    requires s != [] && !IsSpace(s[0]) && !IsSpace(s[|s| - 1])
    ensures Strip(s) == s
  {
  }

  /** int(str(i)) == i: the rendering of an integer parses back to it. */
  lemma ParseIntOfIntToString(i: int)
    ensures ParseInt(IntToString(i)) == Some(i)
  {
    var s := IntToString(i);
    StripNoSpace(s);
    if i < 0 {
      assert s[1..] == NatToString(-i);
      DigitsOfNat(-i);
    } else {
      DigitsOfNat(i);
    }
  }

  lemma IntToStringInjective(a: int, b: int)
    requires IntToString(a) == IntToString(b)
    ensures a == b
  {
    ParseIntOfIntToString(a);
    ParseIntOfIntToString(b);
  }

  /** Python's s[:n] for n >= 0. */
  function Take(s: string, n: nat): (r: string)
    ensures |r| == if n <= |s| then n else |s|
    ensures r <= s
  {
    if n <= |s| then s[..n] else s
  }

  /** Python's s[n:] for n >= 0. */
  function Drop(s: string, n: nat): (r: string)
    ensures |r| == if n <= |s| then |s| - n else 0
    ensures n <= |s| ==> s == s[..n] + r
  {
    if n <= |s| then s[n..] else ""
  }

  /** Each cell's str(), in order. */
  function Texts<T>(parts: seq<T>, text: T -> string): (r: seq<string>)
    ensures |r| == |parts| && forall i :: 0 <= i < |parts| ==> r[i] == text(parts[i])
  {
    seq(|parts|, i requires 0 <= i < |parts| => text(parts[i]))
  }

  /** sep.join(parts) */
  function Join(parts: seq<string>, sep: string): string
  {
    if parts == [] then ""
    else if |parts| == 1 then parts[0]
    else parts[0] + sep + Join(parts[1..], sep)
  }

  lemma JoinCons(parts: seq<string>)
    requires parts != []
    ensures Join(parts, "") == parts[0] + Join(parts[1..], "")
  {
    if |parts| == 1 {
      assert parts[0] + "" == parts[0];
    }
  }

  lemma JoinStep(head: string, tail: seq<string>)
    ensures Join([head] + tail, "") == head + Join(tail, "")
  {
    JoinCons([head] + tail);
    assert ([head] + tail)[1..] == tail;
  }

  /** Python's repr of a list of strings that hold no quote or backslash. */
  function ListRepr(parts: seq<string>): (r: string)
    ensures |r| >= 2 && r[0] == '[' && r[|r| - 1] == ']'
    ensures r == "[]" <==> parts == []
    ensures parts != [] ==> r[1] == '\'' && r[|r| - 2] == '\''
    ensures parts != [] ==> |r| >= 4 + |parts[0]| && r[2..2 + |parts[0]|] == parts[0]
  {
    if parts == [] then "[]"
    else
      var body := Join(parts, "', '");
      assert body[..|parts[0]|] == parts[0];
      var r := "['" + body + "']";
      assert r[2..2 + |parts[0]|] == body[..|parts[0]|];
      r
  }
}
