/** The optional-value type used throughout the model (TypeScript's `T | null`, `T | undefined`). */
module Wrappers {

  datatype Option<+T> = None | Some(value: T)

  /** The values an option holds, as a sequence of length zero or one. */
  function Emitted<T>(o: Option<T>): (s: seq<T>)
    ensures |s| <= 1
    ensures o.None? <==> s == []
    ensures o.Some? ==> s == [o.value]
  {
    if o.Some? then [o.value] else []
  }
}
