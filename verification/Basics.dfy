/** Small types and functions that several components share. */
module Basics {

  datatype Option<+T> = None | Some(value: T)

  datatype Result<+T> = Ok(value: T) | Err

  /** Decimal digits of a number. */
  function Digits(n: nat): nat
  {
    if n < 10 then 1 else 1 + Digits(n / 10)
  }
}
