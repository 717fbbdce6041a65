/**
 * The two Java primitive conversions the gamepad keyboard relies on, written out
 * over Dafny's unbounded numbers.
 */
module JavaNumerics {

  /** Java's `(int)` cast of a floating-point value: truncation toward zero. */
  function Trunc(r: real): (i: int)
    ensures r >= 0.0 ==> i as real <= r < i as real + 1.0
    ensures r < 0.0 ==> i as real - 1.0 < r <= i as real
  {
    if r >= 0.0 then r.Floor else -((-r).Floor)
  }

  /** A Java `char`: one UTF-16 code unit. */
  newtype Char16 = c: int | 0 <= c < 0x1_0000

  /** Java's `(char)` cast of an `int`: keep the low sixteen bits. */
  function CharOf(code: int): (c: Char16)
    ensures 0 <= code < 0x1_0000 ==> c as int == code
    ensures (code - c as int) % 0x1_0000 == 0
  {
    (code % 0x1_0000) as Char16
  }
}
