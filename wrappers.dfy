/** Option and Result, the two failure-carrying datatypes the rest of the model uses.
    A JavaScript `throw` (or a Python `raise`) becomes `Err(e)`, where `e` names which of the
    source's checks failed; each module's error type gives the source's message text. */
module Wrappers {

  datatype Option<+T> = None | Some(value: T)

  datatype Result<+T, +E> = Ok(value: T) | Err(error: E)
}
