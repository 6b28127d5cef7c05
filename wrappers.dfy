/** The usual optional-value datatype, used for form fields that may be
    absent from a request and for lookups that may find nothing. */
module Wrappers {

  datatype Option<+T> = None | Some(value: T)

}
