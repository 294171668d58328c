/** Small helpers shared by every module of the journal model. */
module Common {

  /** A parsed number: `None` stands for JavaScript's NaN (an empty or unparseable field). */
  datatype Option<+T> = None | Some(value: T)

  /** `x || d` on a parsed number: NaN and 0 are falsy, so both fall back to `d`. */
  function OrDefault(x: Option<real>, d: real): (r: real)
    ensures x.Some? && x.value != 0.0 ==> r == x.value
    ensures x.None? || x.value == 0.0 ==> r == d
    ensures d != 0.0 ==> r != 0.0
  {
    if x.Some? && x.value != 0.0 then x.value else d
  }

  /** `Math.abs` */
  function Abs(x: real): (r: real)
    ensures r >= 0.0 && (r == x || r == -x)
  {
    if x < 0.0 then -x else x
  }

  function Min(a: real, b: real): real { if a <= b then a else b }
  function Max(a: real, b: real): real { if a >= b then a else b }

  /** `part / whole * 100` with a positive `whole`: what the percentage means, and how it compares with a bound. */
  lemma PercentOf(part: real, whole: real, bound: real)
    requires whole > 0.0
    ensures part / whole * 100.0 * whole == part * 100.0
    ensures part >= 0.0 ==> part / whole * 100.0 >= 0.0
    ensures part > 0.0 ==> part / whole * 100.0 > 0.0
    ensures part / whole * 100.0 <= bound <==> part * 100.0 <= bound * whole
  {
    var p := part / whole * 100.0;
    assert p * whole == part * 100.0;
    assert p <= bound <==> p * whole <= bound * whole;
  }
}
