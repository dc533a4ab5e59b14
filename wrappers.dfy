/** The optional value used wherever the bot's code reads something that may be
    absent: `null`/`undefined` results of the chat library, a member without a
    presence, a guild missing from the cache. */
module Wrappers {

  datatype Option<+T> = None | Some(value: T)

}
