/** Option and Result values used in place of C# nulls and thrown exceptions,
    and one sequence fact the loops share. */
module Wrappers {

  /** A nullable reference or value: `None` stands for C# `null`. */
  datatype Option<+T> = None | Some(value: T) {

    /** The C# `x ?? default` operator. */
    function GetOr(default: T): T {
      match this
      case Some(v) => v
      case None => default
    }
  }

  /** The outcome of an operation that throws on bad arguments. */
  datatype Result<+T> = Ok(value: T) | Err(error: string)

  /** One more element of a sequence's prefix: the loops that walk a sequence
      front to back use it to step their invariant. */
  lemma PrefixStep<T>(s: seq<T>, i: int)
    requires 0 <= i < |s|
    ensures s[..i + 1][..i] == s[..i]
  {
  }
}
