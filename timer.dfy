/**
  Fixed-width integers of the firmware and its free-running millisecond
  clock. The clock is a 32-bit counter that wraps; durations between two
  readings are taken with wrap-around subtraction, as the framework's
  32-bit elapsed-time primitive does.
*/
module Timer {

  const Modulus: int := 0x1_0000_0000

  /** An unsigned 32-bit value, such as a reading of the millisecond clock. */
  newtype uint32 = x: int | 0 <= x < 0x1_0000_0000

  /** An unsigned 16-bit value, such as a keycode. */
  newtype uint16 = x: int | 0 <= x < 0x1_0000

  /** An unsigned 8-bit value. */
  newtype uint8 = x: int | 0 <= x < 0x100

  /**
    Milliseconds from the reading `since` to the reading `now` of a clock
    that wraps at 2^32: the unique duration that, added to `since` modulo
    2^32, lands on `now`.
  */
  function Elapsed(now: uint32, since: uint32): (d: uint32)
    ensures (since as int + d as int) % Modulus == now as int
    ensures since <= now ==> d == now - since
    ensures d == 0 <==> now == since
  {
    ((now as int - since as int) % Modulus) as uint32
  }
}
