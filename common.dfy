/** Shared helper datatype: Kotlin's nullable references become Option values. */
module Common {

  datatype Option<+T> = None | Some(value: T)
}
