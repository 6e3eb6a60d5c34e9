/** Values every part of the model shares. */
module Prelude {

  datatype Option<+T> = None | Some(value: T)

  datatype Result<+T, +E> = Ok(value: T) | Err(error: E)

  /** The error kinds the kernel's ports report (`PortError`). */
  datatype PortError = Conflict | InvalidState | Unavailable

  /** Every refusal of the scripts is a `ValueError`. */
  datatype Refusal = ValueError

  lemma TakeSnoc<T>(s: seq<T>, i: nat)
    requires i < |s|
    ensures s[..i + 1] == s[..i] + [s[i]]
  {
  }

  lemma TakeAll<T>(s: seq<T>)
    ensures s[..|s|] == s
  {
  }
}
