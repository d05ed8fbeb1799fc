/** Go values the handler relies on: 64-bit signed integers with Go's silent
    two's-complement wrap-around, bytes, nil-able values and the `(T, error)`
    return convention of the Docker client and the standard library. */
module GoTypes {

  const Int64Min: int := -0x8000_0000_0000_0000
  const Int64Max: int := 0x7FFF_FFFF_FFFF_FFFF
  const Int64Modulus: int := 0x1_0000_0000_0000_0000

  /** Go's `int64`. */
  type Int64 = x: int | -0x8000_0000_0000_0000 <= x <= 0x7FFF_FFFF_FFFF_FFFF

  /** Go's `byte`. */
  type Byte = b: int | 0 <= b < 256

  predicate InInt64(x: int) {
    Int64Min <= x <= Int64Max
  }

  /** The `int64` value Go produces for the mathematical result `x` of an
      arithmetic operation: `x` reduced modulo 2^64 into the signed range. */
  function Wrap64(x: int): (r: Int64)
    ensures (x - r) % Int64Modulus == 0
    ensures InInt64(x) ==> r == x
  {
    (x - Int64Min) % Int64Modulus + Int64Min
  }

  /** Go multiplication of two `int64` operands. */
  function Mul64(a: Int64, b: Int64): (r: Int64)
    ensures (a * b - r) % Int64Modulus == 0
    ensures InInt64(a * b) ==> r == a * b
  {
    Wrap64(a * b)
  }

  /** Multiplying both sides of a congruence modulo 2^64 by `c` keeps it. */
  lemma CongruentScaled(x: int, c: int)
    requires x % Int64Modulus == 0
    ensures (x * c) % Int64Modulus == 0
  {
    var k := x / Int64Modulus;
    assert x == k * Int64Modulus;
    assert x * c == (k * c) * Int64Modulus;
  }

  /** A value that may be nil (a Go pointer or a missing map entry). */
  datatype Option<+T> = None | Some(value: T)

  /** The `(value, error)` pair returned by a call into code outside the model:
      either a value and a nil error, or a non-nil error with its text. */
  datatype Result<+T> = Ok(value: T) | Err(msg: string)
}
