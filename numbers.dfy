/**
 * The JavaScript numbers the model keeps: a finite value, or NaN (what
 * `parseFloat` returns on text that does not start with a number). Finite
 * values are exact reals: every constant of the rating rule has at most two
 * decimals. The infinities `parseFloat` can also return are not modelled.
 */
module Numbers {

  datatype Num = NaN | Finite(value: real)

  /** `parseFloat`, which the model does not define: callers pass it in. */
  type Parser = string -> Num

  /** `a - b`; NaN if either side is NaN. */
  function Minus(a: Num, b: Num): (r: Num)
    ensures r.Finite? <==> a.Finite? && b.Finite?
    ensures r.Finite? ==> r.value == a.value - b.value
  {
    if a.Finite? && b.Finite? then Finite(a.value - b.value) else NaN
  }

  /** `a + d` for a finite `d`; NaN stays NaN. */
  function Plus(a: Num, d: real): (r: Num)
    ensures r.Finite? <==> a.Finite?
    ensures r.Finite? ==> r.value == a.value + d
  {
    if a.Finite? then Finite(a.value + d) else NaN
  }

  /** `Math.abs`. */
  function Abs(a: Num): (r: Num)
    ensures r.Finite? <==> a.Finite?
    ensures r.Finite? ==> r.value >= 0.0 && (r.value == a.value || r.value == -a.value)
  {
    if a.NaN? then NaN else if a.value < 0.0 then Finite(-a.value) else a
  }

  /** `a > b`: false whenever either side is NaN. */
  predicate Greater(a: Num, b: Num) {
    a.Finite? && b.Finite? && a.value > b.value
  }

  /**
   * `>` on numbers is a strict order, and NaN is comparable with nothing:
   * of two distinct numbers exactly one is greater.
   */
  lemma GreaterIsStrictOrder(a: Num, b: Num)
    ensures Greater(a, b) ==> !Greater(b, a)
    ensures a.NaN? || b.NaN? ==> !Greater(a, b) && !Greater(b, a)
    ensures a.Finite? && b.Finite? && a != b ==> Greater(a, b) != Greater(b, a)
  {
  }
}
