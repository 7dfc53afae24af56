/**
 * The few Kotlin language types the view model relies on: the 32-bit `Int`
 * with its wrap-around `++` and its truncating `%`, and the nullable `T?`.
 */
module KotlinTypes {

  const INT32_MIN: int := -0x8000_0000
  const INT32_MAX: int := 0x7FFF_FFFF

  /** Kotlin's `Int`: a signed 32-bit two's-complement integer. */
  newtype int32 = x: int | -0x8000_0000 <= x < 0x8000_0000

  /** Kotlin's `x++` on an `Int`: adds one, wrapping from the largest value to the smallest. */
  function Increment(x: int32): (r: int32)
    ensures x as int < INT32_MAX ==> r as int == x as int + 1
    ensures x as int == INT32_MAX ==> r as int == INT32_MIN
  {
    if x == 0x7FFF_FFFF then -0x8000_0000 else x + 1
  }

  /**
   * Kotlin's `a % 3` on an `Int`: the remainder takes the sign of the dividend
   * (truncating division), unlike Dafny's Euclidean `%`.
   */
  function RemThree(a: int32): (r: int32)
    ensures -3 < r < 3
    ensures a >= 0 ==> r >= 0
    ensures a < 0 ==> r <= 0
    ensures (a as int - r as int) % 3 == 0
  {
    if a >= 0 then a % 3 else -((-(a as int)) % 3) as int32
  }

  /** Under truncating division, "divisible by three" means the same as under Euclidean division. */
  lemma RemThreeZeroIsDivisible(a: int32)
    ensures RemThree(a) == 0 <==> (a as int) % 3 == 0
  {
  }

  /** Kotlin's nullable `T?`. */
  datatype Option<+T> = None | Some(value: T) {
    /** Kotlin's elvis operator `this ?: fallback`. */
    function OrElse(fallback: T): (r: T)
      ensures Some? ==> r == value
      ensures None? ==> r == fallback
    {
      match this
      case Some(v) => v
      case None => fallback
    }
  }
}
