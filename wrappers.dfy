/** Option stands for a Java reference that may be null; Outcome for a call that
    either returns normally or throws one of the service's exceptions. */
module Wrappers {

  datatype Option<+T> = None | Some(value: T)

  datatype Outcome<+E> = Pass | Fail(error: E)
}
