/**
 * Shapes shared by the snowfall model: optional values, the rectangles the
 * host measures with getBoundingClientRect, the Math.random() range, and the
 * iteration count of a JavaScript counting loop whose bound is a number.
 */
module Basics {

  /** An optional value (a field that may be absent). */
  datatype Option<T> = None | Some(value: T)

  /** A DOMRect as measured by the host: page offset and size. */
  datatype Rect = Rect(left: real, top: real, width: real, height: real)

  /** A result of Math.random(): a number in [0, 1). */
  predicate Unit(d: real) {
    0.0 <= d < 1.0
  }

  /**
   * The number of iterations of `for (let i = 0; i < bound; i++)`: none when
   * the bound is not positive, otherwise the least whole number not below it.
   */
  function LoopCount(bound: real): (n: nat)
    ensures bound <= 0.0 ==> n == 0
    ensures 0.0 < bound ==> (n - 1) as real < bound <= n as real
  {
    if bound <= 0.0 then 0 else -((-bound).Floor)
  }

  /** The loop runs its body for index `i` exactly when `i < bound`. */
  lemma LoopCountCounts(bound: real, i: nat)
    ensures i < LoopCount(bound) <==> (i as real) < bound
  {
  }
}
