/** Java primitive types as used by the performance job, and a failure-compatible
    Result for code that can throw. */
module Types {

  const INT32_MIN: int := -0x8000_0000
  const INT32_MAX: int := 0x7fff_ffff
  const INT64_MIN: int := -0x8000_0000_0000_0000
  const INT64_MAX: int := 0x7fff_ffff_ffff_ffff

  /** Java `int`. */
  type Int32 = x: int | INT32_MIN <= x <= INT32_MAX

  /** Java `long` (also the value held by a non-null `Long`). */
  type Int64 = x: int | INT64_MIN <= x <= INT64_MAX

  /** Java `float`, kept as its IEEE 754 binary32 bit pattern: the job only
      stores, copies and compares float values, it never computes with them
      in the part that is modelled. */
  datatype Float32 = Float32(bits: bv32)

  /** `4.0f`, the speed every generated record carries. */
  const FLOAT_FOUR: Float32 := Float32(0x4080_0000)

  /** `10.0f`, the speed written by the row rewrite. */
  const FLOAT_TEN: Float32 := Float32(0x4120_0000)

  /** Java `int` addition: the mathematical result reduced into the 32-bit
      two's-complement range. */
  function Wrap32(x: int): (r: Int32)
    ensures INT32_MIN <= x <= INT32_MAX ==> r == x
    ensures (x - r) % 0x1_0000_0000 == 0
  {
    (x - INT32_MIN) % 0x1_0000_0000 + INT32_MIN
  }

  /** Either a value or the exception that Java code would have thrown. */
  datatype Result<+T, +E> = Ok(value: T) | Err(error: E) {
    predicate IsFailure() {
      Err?
    }

    function PropagateFailure<U>(): Result<U, E>
      requires Err?
    {
      Err(error)
    }

    function Extract(): T
      requires Ok?
    {
      value
    }
  }
}
