/**
 * The C numeric semantics the tensor code relies on: the fixed-width integer
 * types of <stdint.h>, and the conversion of a floating value to an integer
 * type, which discards the fractional part, i.e. truncates toward zero, and is
 * undefined when the truncated value does not fit the target type (ISO C11,
 * section 6.3.1.4, paragraph 1). A C `float` is modelled as a `real`.
 */
module CNumeric {
  import opened Wrappers

  const INT8_MIN: int := -128
  const INT8_MAX: int := 127
  const UINT16_MAX: int := 0xFFFF
  const INT32_MAX: int := 0x7FFF_FFFF
  const UINT32_MAX: int := 0xFFFF_FFFF

  type int8 = x: int | INT8_MIN <= x <= INT8_MAX
  type uint16 = x: int | 0 <= x <= UINT16_MAX
  type int32 = x: int | -INT32_MAX - 1 <= x <= INT32_MAX
  type uint32 = x: int | 0 <= x <= UINT32_MAX

  /** Distance between two reals. */
  function Dist(a: real, b: real): real {
    if a < b then b - a else a - b
  }

  /**
   * Discards the fractional part of x: the integer of largest magnitude
   * that is not further from zero than x, and on the same side of zero.
   */
  function TruncTowardZero(x: real): (n: int)
    ensures 0.0 <= x ==> 0 <= n && n as real <= x < n as real + 1.0
    ensures x < 0.0 ==> n <= 0 && n as real - 1.0 < x <= n as real
  {
    if x < 0.0 then -((-x).Floor) else x.Floor
  }

  /** The two bounds above determine the truncation: no other integer meets them. */
  lemma TruncUnique(x: real, n: int)
    requires 0.0 <= x ==> n as real <= x < n as real + 1.0
    requires x < 0.0 ==> n as real - 1.0 < x <= n as real
    ensures n == TruncTowardZero(x)
  {
  }

  /** Truncation never moves a value past another: it is monotone. */
  lemma TruncMonotone(x: real, y: real)
    requires x <= y
    ensures TruncTowardZero(x) <= TruncTowardZero(y)
  {
  }

  /**
   * Restricts x to the closed range [lo, hi]: the result lies in the range,
   * is x itself when x already does, and is the point of the range closest
   * to x.
   */
  function Clamp(x: real, lo: real, hi: real): (r: real)
    requires lo <= hi
    ensures lo <= r <= hi
    ensures lo <= x <= hi ==> r == x
    ensures forall y :: lo <= y <= hi ==> Dist(r, x) <= Dist(y, x)
  {
    if x > hi then hi else if x < lo then lo else x
  }

  /**
   * The C cast `(int8_t)x` of a floating x. It is defined exactly when the
   * truncated value fits int8_t, i.e. for -129 < x < 128; `None` stands for
   * undefined behaviour.
   */
  function ConvertToInt8(x: real): (r: Option<int8>)
    ensures r.Some? <==> -129.0 < x < 128.0
    ensures r.Some? ==> r.value == TruncTowardZero(x)
  {
    var n := TruncTowardZero(x);
    if INT8_MIN <= n <= INT8_MAX then Some(n) else None
  }
}
