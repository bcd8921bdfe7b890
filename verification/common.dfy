/** Shared vocabulary: optional values, results carrying an HTTP-like status,
    bytes, and the real-number rounding the C code gets from casts and libm. */
module Common {

  datatype Option<+T> = None | Some(value: T)

  /** An error as the request context records it: a status code and a message kind. */
  datatype Error<+K> = Error(code: int, kind: K)

  datatype Result<+T, +K> = Ok(value: T) | Err(error: Error<K>)

  /** An unsigned char. */
  type Byte = b: int | 0 <= b < 256

  /** 2^32, the modulus of `uint32_t` and of `%u`/`%x` formatting of a C int. */
  const Two32: int := 0x1_0000_0000

  function Min(a: real, b: real): real { if a < b then a else b }
  function Max(a: real, b: real): real { if a > b then a else b }

  /** `floor(x)`: the greatest integer not above x. */
  function Floor(x: real): (r: int)
    ensures r as real <= x < r as real + 1.0
  {
    x.Floor
  }

  /** `ceil(x)`: the least integer not below x. */
  function Ceil(x: real): (r: int)
    ensures r as real - 1.0 < x <= r as real
  {
    -((-x).Floor)
  }

  /** The C conversion `(int)x` of a double: truncation toward zero. */
  function Trunc(x: real): (r: int)
    ensures 0.0 <= x ==> r == Floor(x)
    ensures x < 0.0 ==> r == Ceil(x)
    ensures (if r < 0 then -r else r) as real <= (if x < 0.0 then -x else x)
  {
    if x >= 0.0 then x.Floor else -((-x).Floor)
  }

  /** 2^n for the shift `1 << n`. */
  function Pow2(n: nat): (r: nat)
    ensures r >= 1
  {
    if n == 0 then 1 else 2 * Pow2(n - 1)
  }

  lemma DivMul(a: real, d: real)
    requires d != 0.0
    ensures (a / d) * d == a
  {
  }

  lemma MulRealLe(a: real, b: real, d: real)
    requires a <= b && d > 0.0
    ensures a * d <= b * d
  {
  }

  lemma MulRealLt(a: real, b: real, d: real)
    requires a < b && d > 0.0
    ensures a * d < b * d
  {
  }
}
