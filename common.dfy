/** Error-carrying results and the size_t arithmetic shared by the other modules. */
module Common {

  datatype Option<T> = None | Some(value: T)

  /** The value of an operation, or the message of the std::runtime_error /
      std::out_of_range it throws. */
  datatype Result<T> = Ok(value: T) | Err(message: string)

  /** The outcome of an operation that returns nothing but may throw. */
  datatype Outcome = Pass | Fail(message: string)

  /** size_t is 64 bits wide on the targets the library is built for. */
  const SizeTModulus: int := 0x1_0000_0000_0000_0000

  /** Unsigned subtraction as size_t performs it: the difference modulo 2^64. */
  function SizeTSub(a: nat, b: nat): (r: nat)
    ensures r < SizeTModulus
    ensures b <= a < SizeTModulus ==> r == a - b
    ensures a < b <= SizeTModulus ==> r == SizeTModulus - (b - a)
  {
    (a - b) % SizeTModulus
  }
}
