/** The optional value used wherever the bot's code can come back with nothing. */
module Wrappers {

  datatype Option<+T> = None | Some(value: T)
}
