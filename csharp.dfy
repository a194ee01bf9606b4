/** C# language notions the settings rely on: the range of `int`, references that may be
    null, and how a call ends when it throws.
 */
module CSharp {

  /** The range of a C# `int`. */
  newtype Int32 = x: int | -0x8000_0000 <= x < 0x8000_0000

  /** A C# reference of a class type: either null or an actual object. */
  datatype Nullable<+T> = Null | NonNull(value: T)

  /** The exceptions the settings can raise. */
  datatype Exception = ArgumentNullException(paramName: string)

  /** How a call ends: normally, or by throwing. */
  datatype Outcome = Completed | Threw(exception: Exception)
}
