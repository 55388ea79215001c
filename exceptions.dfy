/** A Java or Kotlin call that either returns a value or throws: the flight,
    payment and ticket services signal errors by throwing, and each of them
    names its own exceptions. */
module Exceptions {

  datatype Try<T, E> = Return(value: T) | Throw(exception: E)

  /** The IllegalArgumentException the value objects' factories throw. */
  datatype IllegalArgument = IllegalArgument(message: string)

  /** A Java `int`. */
  type int32 = x: int | -0x8000_0000 <= x < 0x8000_0000

  /** Java's wrapping `int` addition. */
  function AddInt32(a: int32, b: int32): (r: int32)
    ensures -0x8000_0000 <= a + b < 0x8000_0000 ==> r == a + b
    ensures a + b >= 0x8000_0000 ==> r == a + b - 0x1_0000_0000
    ensures a + b < -0x8000_0000 ==> r == a + b + 0x1_0000_0000
  {
    var s := a + b;
    if s >= 0x8000_0000 then s - 0x1_0000_0000
    else if s < -0x8000_0000 then s + 0x1_0000_0000
    else s
  }
}
