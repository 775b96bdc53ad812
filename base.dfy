/** Small value types shared by every component of the model. */
module Base {

  /** A value that may be absent: Java's nullable references. */
  datatype Option<+T> = None | Some(value: T)

  /** The outcome of a Java call that either returns normally or throws. */
  datatype Call<+T> = Returns(value: T) | Throws

  /** The application's `Result` DTO: `Result.ok(data)` or `Result.fail(errorMsg)`. */
  datatype Response<+T> = Ok(data: T) | Fail(errorMsg: string)

  /** The prefix relation on strings, used by key and token lemmas. */
  predicate IsPrefix(p: string, s: string) {
    |p| <= |s| && s[..|p|] == p
  }
}
