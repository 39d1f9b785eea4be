/** Values shared by every part of the model: Java's `long`, and the
    Option/Result/Outcome wrappers that stand for `null` and for thrown
    exceptions. */
module Common {

  /** Java's 64-bit signed `long`. No arithmetic is done on ids, so only the
      range is modelled. */
  type Long = x: int | -0x8000_0000_0000_0000 <= x <= 0x7FFF_FFFF_FFFF_FFFF

  /** A reference that may be `null`. */
  datatype Option<+T> = None | Some(value: T)

  /** A call that either returns a value or throws `error`. */
  datatype Result<+R, +E> = Success(value: R) | Failure(error: E)

  /** A `void` call that either returns normally or throws `error`. */
  datatype Outcome<+E> = Pass | Fail(error: E)

  /** The last element of a non-empty sequence (`a[a.length - 1]`). */
  function Last<T>(s: seq<T>): (x: T)
    requires |s| > 0
    ensures x in s
  {
    s[|s| - 1]
  }
}
