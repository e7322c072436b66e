// Failure-carrying datatypes and the machine-integer operations the Rust code relies on.
module Prelude {

  datatype Option<+T> = None | Some(value: T) {
    predicate IsFailure() { None? }

    function PropagateFailure<U>(): Option<U>
      requires None?
    {
      None
    }

    function Extract(): T
      requires Some?
    {
      value
    }
  }

  datatype Result<+T, +E> = Ok(value: T) | Err(error: E) {
    predicate IsFailure() { Err? }

    function PropagateFailure<U>(): Result<U, E>
      requires Err?
    {
      Err(error)
    }

    function Extract(): T
      requires Ok?
    {
      value
    }
  }

  function ToResult<T, E>(o: Option<T>, error: E): Result<T, E> {
    match o
    case Some(v) => Ok(v)
    case None => Err(error)
  }

  const I64_MAX: int := 0x7fff_ffff_ffff_ffff
  const I64_MIN: int := -0x8000_0000_0000_0000
  const TWO_32: int := 0x1_0000_0000
  const TWO_64: int := 0x1_0000_0000_0000_0000

  predicate IsI64(x: int) { I64_MIN <= x <= I64_MAX }

  function Min(a: int, b: int): int { if a <= b then a else b }

  function Max(a: int, b: int): int { if a >= b then a else b }

  /** Clamp to the range of `i64`: what Rust's saturating arithmetic returns. */
  function Saturate(x: int): int { Max(I64_MIN, Min(x, I64_MAX)) }

  /** Rust's `as i64`: keep the low 64 bits, read as two's complement. */
  function AsI64(x: int): int {
    var low := x % TWO_64;
    if low <= I64_MAX then low else low - TWO_64
  }

  /** Rust's `as u32`. */
  function AsU32(x: int): nat { x % TWO_32 }

  /** Integer division rounding up, for a positive divisor. */
  function CeilDiv(a: int, b: int): int
    requires b > 0
  {
    (a + b - 1) / b
  }

  lemma CeilDivIsLeast(a: int, b: int)
    requires b > 0
    ensures a <= CeilDiv(a, b) * b < a + b
  {
  }
}
