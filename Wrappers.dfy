/** Optional values and results with an error case, used where the bot's
    JavaScript reads a field that may be missing or throws. */
module Wrappers {

  datatype Option<+T> = None | Some(value: T)

  datatype Result<+R, +E> = Ok(value: R) | Err(error: E)
}
