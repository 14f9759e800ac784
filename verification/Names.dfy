/** Vocabulary shared by every module: Go strings and optional values. */
module Names {

  newtype byte = x: int | 0 <= x < 256

  // A Go string is a sequence of bytes.
  type Text = seq<byte>

  /** The bytes of a literal. */
  function Ascii(s: string): Text
    requires forall i | 0 <= i < |s| :: s[i] as int < 256
  {
    seq(|s|, i requires 0 <= i < |s| => s[i] as int as byte)
  }

  datatype Option<+T> = None | Some(value: T)
}
