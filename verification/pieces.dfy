/** Shared vocabulary of the carrom rules engine. */
module Pieces {

  /** The three kinds of coin; the game tags them 'white', 'black' and 'queen'. */
  datatype Color = White | Black | Queen

  /** A value that may be absent (the game's `null`). */
  datatype Option<T> = None | Some(value: T)
}
