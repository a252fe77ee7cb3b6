/** The two result shapes the repository's Rust uses everywhere, and the
    sequence vocabulary the other modules share. */
module Wrappers {

  datatype Option<+T> = None | Some(value: T)

  datatype Result<+T, +E> = Ok(value: T) | Err(error: E)

  /** A Rust `u8`. */
  type Byte = x: int | 0 <= x < 256

  /** A Rust `str`, by its UTF-8 bytes. */
  type Text = seq<Byte>

  /** The bytes of an ASCII literal. */
  function Ascii(s: string): (b: Text)
    requires forall i :: 0 <= i < |s| ==> s[i] as int < 128
  {
    seq(|s|, i requires 0 <= i < |s| => s[i] as int)
  }

  ghost predicate Distinct<T>(s: seq<T>) {
    forall i, j :: 0 <= i < j < |s| ==> s[i] != s[j]
  }
}
