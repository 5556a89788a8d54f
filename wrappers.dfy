/** Optional values, and the outcome of a call that may end in a .NET exception. */
module Wrappers {

  /** A value that may be absent; `None` stands for C#'s `null`. */
  datatype Option<+T> = None | Some(value: T)

  /** The exceptions the modelled code can raise. */
  datatype Exception =
    | FormatException           // int.Parse on a string that is not a decimal number
    | OverflowException         // int.Parse on a decimal number above Int32.MaxValue
    | NullReferenceException    // a member access on a null array
    | ArgumentNullException     // a LINQ operator applied to a null array
    | IndexOutOfRangeException  // images[0] on an empty array

  /** How a call ends: it returns a value or it throws. */
  datatype Outcome<+T> = Returned(value: T) | Threw(exception: Exception)
}
