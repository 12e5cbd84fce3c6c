/**
 * Genes, clamping and the random stream shared by the Iterated Local Search
 * and the Tabu Search. Python's process-wide `random` generator is replaced by
 * an explicit stream of unit variates, consumed in the order the scripts draw.
 */
module Genes {

  datatype Option<T> = None | Some(value: T)

  /** Every draw of the stream is what `random.random()` yields: a value in [0, 1). */
  predicate UnitDraws(rs: seq<real>) {
    forall i :: 0 <= i < |rs| ==> 0.0 <= rs[i] < 1.0
  }

  /** Every gene of the chromosome lies in [0, 1]. */
  predicate InUnit(genes: seq<real>) {
    forall i :: 0 <= i < |genes| ==> 0.0 <= genes[i] <= 1.0
  }

  function Dist(x: real, y: real): real {
    if x <= y then y - x else x - y
  }

  /**
   * `random.uniform(a, b)` computed from one unit variate `u`, which is
   * `a + (b - a) * u` in CPython. The result lies between the two bounds.
   */
  function Uniform(a: real, b: real, u: real): (r: real)
    ensures a <= b && 0.0 <= u <= 1.0 ==> a <= r <= b
    ensures b <= a && 0.0 <= u <= 1.0 ==> b <= r <= a
  {
    a + Scale(b - a, u)
  }

  /** The width `d` scaled by a unit variate lies between 0 and `d`. */
  function Scale(d: real, u: real): (r: real)
    ensures 0.0 <= d && 0.0 <= u <= 1.0 ==> 0.0 <= r <= d
    ensures d <= 0.0 && 0.0 <= u <= 1.0 ==> d <= r <= 0.0
  {
    d * u
  }

  /**
   * `random.randint(lo, hi)` computed from one unit variate `u`: the interval
   * [0, 1) is cut into hi - lo + 1 equal parts, one per result.
   */
  function RandInt(lo: int, hi: int, u: real): (r: int)
    requires lo <= hi
    ensures 0.0 <= u < 1.0 ==> lo <= r <= hi
  {
    var width := (hi - lo + 1) as real;
    UnitScaleStrict(width, u);
    lo + (width * u).Floor
  }

  lemma UnitScaleStrict(d: real, u: real)
    requires 0.0 < d
    ensures 0.0 <= u < 1.0 ==> 0.0 <= d * u < d
  {
  }

  /**
   * The clamping both scripts write as two comparisons: the result is the
   * point of [0, 1] nearest to `x`, and `x` itself when it is already there.
   */
  function Clamp01(x: real): (r: real)
    ensures 0.0 <= r <= 1.0
    ensures 0.0 <= x <= 1.0 ==> r == x
    ensures forall y :: 0.0 <= y <= 1.0 ==> Dist(r, x) <= Dist(y, x)
  {
    if x < 0.0 then 0.0 else if x > 1.0 then 1.0 else x
  }

  /**
   * `randomFloat(low, up)`: `n` values drawn with `uniform(low, up)`, the i-th
   * from the i-th draw of the stream.
   */
  function RandomFloat(n: nat, low: real, up: real, rs: seq<real>): (r: seq<real>)
    requires n <= |rs|
    ensures |r| == n
    ensures UnitDraws(rs) && low <= up ==> forall i :: 0 <= i < n ==> low <= r[i] <= up
  {
    seq(n, i requires 0 <= i < n => Uniform(low, up, rs[i]))
  }
}
