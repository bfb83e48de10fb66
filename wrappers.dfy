/** The optional value used where the bot's JavaScript has `undefined`. */
module Wrappers {

  datatype Option<+T> = None | Some(value: T)
}
