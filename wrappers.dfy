/** Optional values, as Rust's `Option` is used throughout the request records. */
module Wrappers {

  datatype Option<+T> = None | Some(value: T) {

    /** The value, or `default` when there is none (Rust's `unwrap_or`). */
    function GetOr(default: T): T {
      match this
      case Some(v) => v
      case None => default
    }
  }
}

/** The answer of an interactive single-choice prompt (`inquire::Select`). */
module Prompt {

  /** The index, in the list of options shown, of the option the user picked,
      or `Cancelled` when the prompt returned an error (the caller unwraps it). */
  datatype Answer = Cancelled | Chosen(index: nat)

  /** A prompt only ever returns one of the options it was shown. */
  predicate Offered(answer: Answer, optionCount: nat) {
    answer.Chosen? ==> answer.index < optionCount
  }
}
