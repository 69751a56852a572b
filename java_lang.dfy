/**
 * The few Java-level notions the account model needs: 32-bit `int`
 * arithmetic, nullable references, and the exceptions the service throws.
 */
module JavaLang {

  const MinInt: int := -0x8000_0000
  const MaxInt: int := 0x7fff_ffff
  /** 2^32: two `int` values are the same bit pattern iff they agree modulo this. */
  const Modulus: int := 0x1_0000_0000

  predicate InInt32(x: int) { MinInt <= x <= MaxInt }

  /** A Java `int`. */
  type Int32 = x: int | InInt32(x)

  /**
   * Java `int` addition and subtraction: the mathematical result reduced to
   * the one 32-bit two's-complement value congruent to it.
   */
  function Wrap32(x: int): (r: Int32)
    ensures (x - r) % Modulus == 0
    ensures InInt32(x) ==> r == x
  {
    var m := x % Modulus;
    assert x - m == Modulus * (x / Modulus);
    if m <= MaxInt then m else m - Modulus
  }

  /** A Java reference that may be `null`. */
  datatype Option<+T> = None | Some(value: T)

  /** The exceptions the modelled code throws. */
  datatype Exception =
    | IllegalArgument(message: string)
    | IndexOutOfBounds(index: int)

  /** A call that either returns a value or throws. */
  datatype Result<+T> = Ok(value: T) | Err(error: Exception)

  /** A `void` call that either returns or throws. */
  datatype Outcome = Pass | Fail(error: Exception)
}
