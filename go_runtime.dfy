/**
  The pieces of Go's runtime semantics that the cache relies on: 64-bit `int`
  arithmetic, `error` values (including those built by `errors.Wrap`), and the
  dynamic values of type `any` that the cache stores and returns.
 */
module GoRuntime {

  const Int64Min: int := -0x8000_0000_0000_0000
  const Int64Max: int := 0x7fff_ffff_ffff_ffff
  const Int64Modulus: int := 0x1_0000_0000_0000_0000

  /** The value a Go `int` (64 bits wide) holds after an operation whose exact
      result is `x`: two's-complement wrap-around. */
  function WrapInt64(x: int): (r: int)
    ensures Int64Min <= r <= Int64Max
    ensures (x - r) % Int64Modulus == 0
    ensures Int64Min <= x <= Int64Max ==> r == x
  {
    var d := x - Int64Min;
    var r := d % Int64Modulus + Int64Min;
    assert x - r == (d / Int64Modulus) * Int64Modulus;
    r
  }

  /** Go's `error`: `None` is `nil`. */
  datatype Option<+T> = None | Some(value: T)

  /** A non-nil Go error: one raised by code outside the model, or one that
      `errors.Wrap` has wrapped with a context message. */
  datatype Error =
    | Failure(reason: string)
    | Wrapped(message: string, cause: Error)

  /** A pair `(value, err)` as Go functions return it, with `err == nil` as `Ok`. */
  datatype Result<+T> = Ok(value: T) | Err(error: Error)

  /** A Go value of type `any`, as far as the cache can tell values apart: `nil`,
      a string, an integer, or any other value, known only by its identity. */
  datatype Value =
    | Nil
    | Str(s: string)
    | Int(i: int)
    | Opaque(handle: nat)
}
