/** Kotlin's nullable values and `kotlin.Result`, written as datatypes. */
module Wrappers {

  /** A value of a nullable Kotlin type `T?`: `None` stands for `null`. */
  datatype Option<+T> = None | Some(value: T) {

    /** Kotlin's elvis operator `this ?: default`. */
    function GetOr(default: T): T
    {
      match this
      case Some(v) => v
      case None => default
    }
  }

  /** `kotlin.Result<T>`: a success value or a failure carrying its message. */
  datatype Result<+T> = Success(value: T) | Failure(message: string)
}
