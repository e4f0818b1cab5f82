/** Optional values (Java's nullable references and strings) and results of
    calls that may throw a Java exception. */
module Wrappers {

  datatype Option<+T> = None | Some(value: T)

  /** The unchecked exceptions the modelled Java code can raise. */
  datatype Thrown =
    | IllegalArgument(message: string)
    | NullPointer

  datatype Result<+R> = Success(value: R) | Failure(error: Thrown)

  /** A nullable Java `String`. */
  type JString = Option<string>

  /** What Java's string concatenation writes for a possibly-null string. */
  function Str(s: JString): string
  {
    match s
    case None => "null"
    case Some(v) => v
  }
}
