/** The 32-bit signed integer of the C++ code. */
module CInt {
  const INT_MAX := 0x7FFF_FFFF

  type Int32 = n: int | -INT_MAX - 1 <= n <= INT_MAX

  /** A number as the conversion to int gives it. */
  function AsInt(n: int): (r: Int32)
    ensures 0 <= n <= INT_MAX ==> r == n
  {
    var low := n % 0x1_0000_0000;
    if low <= INT_MAX then low else low - 0x1_0000_0000
  }
}
