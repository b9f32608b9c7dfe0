/** Go's fixed-width integers, as far as the program computes with them. */
module GoInts {
  const TWO_32 := 0x1_0000_0000
  const TWO_64 := 0x1_0000_0000_0000_0000
  const INT64_MIN := -0x8000_0000_0000_0000
  const INT64_MAX := 0x7FFF_FFFF_FFFF_FFFF

  type int64 = x: int | INT64_MIN <= x <= INT64_MAX

  type uint64 = x: int | 0 <= x < TWO_64

  /** The value a `uint64` holds after an operation with the exact result `x`. */
  function ToUint64(x: int): (r: uint64)
    ensures (r - x) % TWO_64 == 0
  {
    if 0 <= x < TWO_64 then x else x % TWO_64
  }

  function ToInt64(x: int): (r: int64)
    ensures (r - x) % TWO_64 == 0
  {
    if INT64_MIN <= x <= INT64_MAX then x
    else
      var u := x % TWO_64;
      if u > INT64_MAX then u - TWO_64 else u
  }

  function ToInt32(x: int): (r: int)
    ensures -0x8000_0000 <= r < 0x8000_0000 && (r - x) % TWO_32 == 0
  {
    if -0x8000_0000 <= x < 0x8000_0000 then x
    else
      var u := x % TWO_32;
      if u >= 0x8000_0000 then u - TWO_32 else u
  }

  /** Integer division by a positive number, which truncates towards zero. */
  function GoDiv(a: int, b: int): (q: int)
    requires b > 0
    ensures if a >= 0 then q * b <= a < q * b + b else q * b - b < a <= q * b
  {
    if a >= 0 then a / b else -(-a / b)
  }
}
