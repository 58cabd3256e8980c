/**
 * Floating-point results as the application sees them. Arithmetic is done
 * over the reals; what a float division can produce besides a number
 * (an infinity, NaN) is kept explicit, and round(x, 2) is rounding to the
 * nearest hundredth with ties to even.
 */
module PyNum {

  /** A float value: finite, an infinity, or NaN. */
  datatype Num = Fin(v: real) | PosInf | NegInf | NaN
  {
    predicate IsFinite() { Fin? }
  }

  /** a / b as a float division computes it: a zero divisor gives an infinity, or NaN for 0 / 0. */
  function Div(a: real, b: real): (r: Num)
    ensures r.Fin? <==> b != 0.0
    ensures r.Fin? ==> r.v * b == a
    ensures r == NaN <==> a == 0.0 && b == 0.0
    ensures r == PosInf <==> a > 0.0 && b == 0.0
  {
    if b != 0.0 then Fin(a / b)
    else if a > 0.0 then PosInf
    else if a < 0.0 then NegInf
    else NaN
  }

  /** x / d for a non-zero finite divisor d > 0: infinities and NaN pass through. */
  function DivBy(x: Num, d: real): (r: Num)
    requires d > 0.0
    ensures r.Fin? <==> x.Fin?
    ensures r.Fin? ==> r.v * d == x.v
    ensures !x.Fin? ==> r == x
  {
    match x
    case Fin(v) => Fin(v / d)
    case _ => x
  }

  /** The integer nearest to x, ties going to the even neighbour (Python's round()). */
  function RoundHalfEven(x: real): (n: int)
    ensures -0.5 <= n as real - x <= 0.5
    ensures (n as real - x == 0.5 || x - n as real == 0.5) ==> n % 2 == 0
  {
    var f := x.Floor;
    var frac := x - f as real;
    if frac > 0.5 then f + 1
    else if frac < 0.5 then f
    else if f % 2 == 0 then f else f + 1
  }

  /** round(x, 2): the multiple of 0.01 nearest to x, a half-cent going to the even hundredth. */
  function Round2(x: real): (r: real)
    ensures -0.005 <= r - x <= 0.005
    ensures (r * 100.0).Floor as real == r * 100.0
    ensures (r - x == 0.005 || x - r == 0.005) ==> (r * 100.0).Floor % 2 == 0
  {
    var n := RoundHalfEven(x * 100.0);
    var r := n as real / 100.0;
    assert r * 100.0 == n as real;
    assert (r * 100.0).Floor == n;
    assert r - x == (n as real - x * 100.0) / 100.0;
    r
  }

  /** A value that is already a whole number of hundredths is left as it is. */
  lemma Round2OfCents(k: int)
    ensures Round2(k as real / 100.0) == k as real / 100.0
  {
    var x := k as real / 100.0;
    assert x * 100.0 == k as real;
    assert (x * 100.0).Floor == k;
  }

  lemma Round2Idempotent(x: real)
    ensures Round2(Round2(x)) == Round2(x)
  {
    var k := RoundHalfEven(x * 100.0);
    Round2OfCents(k);
  }

  lemma Round2Monotone(x: real, y: real)
    requires x <= y
    ensures Round2(x) <= Round2(y)
  {
    var a, b := x * 100.0, y * 100.0;
    assert a.Floor <= b.Floor;
  }

  /** Rounding keeps the sign: zero stays zero and no value crosses it. */
  lemma Round2Sign(x: real)
    ensures x >= 0.0 ==> Round2(x) >= 0.0
    ensures x <= 0.0 ==> Round2(x) <= 0.0
  {
    Round2OfCents(0);
    if x >= 0.0 {
      Round2Monotone(0.0, x);
    } else {
      Round2Monotone(x, 0.0);
    }
  }
}
