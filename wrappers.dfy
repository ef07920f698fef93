/** Small value wrappers shared by the services and the handlers. */
module Wrappers {

  /** An optional value: `None` stands for "absent" or "could not be decoded". */
  datatype Option<+T> = None | Some(value: T)

  /** The reply of a service call that Go writes as a `(value, err)` pair: `Err` is a
      non-nil error (whose accompanying value callers never look at), `Ok` a nil one. */
  datatype Reply<+T> = Ok(value: T) | Err(error: string)
}
