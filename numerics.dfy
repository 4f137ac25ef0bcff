/** C# `int`, `Math.Clamp` and `Random.Next` as the SDK uses them. */
module Numerics {
  import opened Wrappers
  import opened Errors

  const MinInt32: int := -0x8000_0000
  const MaxInt32: int := 0x7FFF_FFFF

  /** A C# `int`. */
  type Int32 = x: int | MinInt32 <= x <= MaxInt32

  /** Two's-complement reduction of an integer into the `int` range. */
  function Wrap32(x: int): (r: Int32)
    ensures (r - x) % 0x1_0000_0000 == 0
  {
    (x - MinInt32) % 0x1_0000_0000 + MinInt32
  }

  /** `x - 1` on a C# `int` in an unchecked context: int.MinValue wraps to int.MaxValue. */
  function Pred32(x: Int32): (r: Int32)
    ensures r == Wrap32(x - 1)
    ensures r < x <==> x != MinInt32
  {
    if x == MinInt32 then MaxInt32 else x - 1
  }

  /** `Math.Clamp(v, lo, hi)` for bounds that are known to be ordered. */
  function Clamp(v: int, lo: int, hi: int): (r: int)
    requires lo <= hi
    ensures lo <= r <= hi
    ensures lo <= v <= hi ==> r == v
    ensures v < lo ==> r == lo
    ensures v > hi ==> r == hi
  {
    if v < lo then lo else if v > hi then hi else v
  }

  /** `Math.Clamp(v, lo, hi)` with the exception it throws when `lo > hi`. */
  function CheckedClamp(v: int, lo: int, hi: int): (r: Result<int, Error>)
    ensures r.Failure? <==> lo > hi
    ensures r.Failure? ==> r.error == InvalidClampRange
    ensures r.Success? ==> lo <= r.value <= hi && r.value == Clamp(v, lo, hi)
  {
    if lo > hi then Failure(InvalidClampRange) else Success(Clamp(v, lo, hi))
  }

  /** Clamping moves a value to the nearest point of the range. */
  lemma ClampIsNearest(v: int, lo: int, hi: int, y: int)
    requires lo <= hi && lo <= y <= hi
    ensures Abs(v - Clamp(v, lo, hi)) <= Abs(v - y)
  {
  }

  /** Clamping is monotone in the clamped value. */
  lemma ClampMonotone(v: int, w: int, lo: int, hi: int)
    requires lo <= hi && v <= w
    ensures Clamp(v, lo, hi) <= Clamp(w, lo, hi)
  {
  }

  function Abs(x: int): nat { if x < 0 then -x else x }

  /**
   * `Random.Next(lo, hi)` with its random draw injected as `roll`: a value in
   * [lo, hi) when lo < hi, lo itself when lo == hi, and an exception when lo > hi.
   */
  function RandomNext(lo: int, hi: int, roll: nat): (r: Result<int, Error>)
    ensures r.Failure? <==> lo > hi
    ensures r.Failure? ==> r.error == InvalidRandomRange
    ensures r.Success? && lo < hi ==> lo <= r.value < hi
    ensures r.Success? && lo == hi ==> r.value == lo
  {
    if lo > hi then Failure(InvalidRandomRange)
    else if lo == hi then Success(lo)
    else Success(lo + roll % (hi - lo))
  }

  /** Every value of [lo, hi) is drawn by some roll, so the injected source loses nothing. */
  lemma RandomNextCovers(lo: int, hi: int, y: int)
    requires lo <= y < hi
    ensures RandomNext(lo, hi, y - lo) == Success(y)
  {
  }
}
