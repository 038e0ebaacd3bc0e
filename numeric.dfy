/** JavaScript number arithmetic the source relies on, over exact reals:
    `Math.round`, one-decimal rounding, and division whose divisor may be zero or not a number. */
module Numeric {
  import Js

  /** `Math.round(x)`: halves round towards positive infinity. */
  function Round(x: real): int
  {
    (x + 0.5).Floor
  }

  /** `Math.round(x * 10) / 10` */
  function RoundTenth(x: real): real
  {
    Round(10.0 * x) as real / 10.0
  }

  lemma RoundBounds(x: real)
    ensures x - 0.5 < Round(x) as real <= x + 0.5
  {
  }

  lemma RoundMonotone(x: real, y: real)
    requires x <= y
    ensures Round(x) <= Round(y)
  {
  }

  lemma RoundTenthBounds(x: real)
    ensures x - 0.05 < RoundTenth(x) <= x + 0.05
  {
    RoundBounds(10.0 * x);
  }

  lemma RoundTenthMonotone(x: real, y: real)
    requires x <= y
    ensures RoundTenth(x) <= RoundTenth(y)
  {
    RoundMonotone(10.0 * x, 10.0 * y);
  }

  function Min(a: real, b: real): real
  {
    if a <= b then a else b
  }

  function Abs(x: real): real
  {
    if x < 0.0 then -x else x
  }

  /** A JavaScript number result: finite, an infinity, or NaN. */
  datatype Ext = Finite(v: real) | PosInf | NegInf | NaN

  /** `x / d` for a finite numerator and a numeric divisor. */
  function Ratio(x: real, d: real): Ext
  {
    if d != 0.0 then Finite(x / d)
    else if x > 0.0 then PosInf
    else if x < 0.0 then NegInf
    else NaN
  }

  /** `x / d` where `d` is whatever value sits in the divisor's place: `null` and booleans convert
      to 0 or 1, `undefined` and objects to NaN. A string divisor is taken as NaN. */
  function Divide(x: real, d: Js.Value): Ext
  {
    match d
    case Num(n) => Ratio(x, n)
    case Null => Ratio(x, 0.0)
    case Bool(b) => Ratio(x, if b then 1.0 else 0.0)
    case _ => NaN
  }

  function Scale(e: Ext, k: real): Ext
    requires k > 0.0
  {
    if e.Finite? then Finite(e.v * k) else e
  }

  function RoundExt(e: Ext): Ext
  {
    if e.Finite? then Finite(Round(e.v) as real) else e
  }

  /** `Math.min(c, e)` */
  function MinExt(c: real, e: Ext): Ext
  {
    match e
    case Finite(v) => Finite(Min(c, v))
    case PosInf => Finite(c)
    case NegInf => NegInf
    case NaN => NaN
  }

  function Add(a: Ext, b: Ext): Ext
  {
    if a.NaN? || b.NaN? then NaN
    else if (a.PosInf? && b.NegInf?) || (a.NegInf? && b.PosInf?) then NaN
    else if a.PosInf? || b.PosInf? then PosInf
    else if a.NegInf? || b.NegInf? then NegInf
    else Finite(a.v + b.v)
  }

  /** `e < p`; every comparison with NaN is false. */
  predicate Below(e: Ext, p: real)
  {
    match e
    case Finite(v) => v < p
    case NegInf => true
    case _ => false
  }

  /** `e > p` */
  predicate Above(e: Ext, p: real)
  {
    match e
    case Finite(v) => v > p
    case PosInf => true
    case _ => false
  }

  /** `e >= p` */
  predicate AtLeast(e: Ext, p: real)
  {
    match e
    case Finite(v) => v >= p
    case PosInf => true
    case _ => false
  }
}
