/** The optional value used wherever the bot may find nothing: a missing
    dictionary entry, a local variable that was never bound, a JSON field
    that is absent. */
module Wrappers {

  datatype Option<+T> = None | Some(value: T)
}
