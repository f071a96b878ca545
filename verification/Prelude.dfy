/** Values shared by every module of the model. */
module Prelude {
  datatype Option<+T> = None | Some(value: T)

  datatype Result<+T, +E> = Ok(value: T) | Err(error: E)

  newtype Byte = b: int | 0 <= b < 256

  type Bytes = seq<Byte>

  /**
   * A digest remembers what was hashed, so two digests are equal exactly when the hashed
   * contents are: the hash is an uninterpreted injective function.
   */
  datatype Sha256 = Sha256(of: Bytes)

  datatype Sha512 = Sha512(of: Bytes)

  /** Every identifier is a random UUID in the program; here, a number that is never reused. */
  type Id = int

  function Min(a: int, b: int): int {
    if a <= b then a else b
  }

  /** The first `n` elements, or all of them when there are fewer, like a Python slice. */
  function Take<T>(s: seq<T>, n: nat): seq<T> {
    s[..Min(n, |s|)]
  }

  predicate Distinct<T(==)>(s: seq<T>) {
    forall i, j :: 0 <= i < j < |s| ==> s[i] != s[j]
  }
}
