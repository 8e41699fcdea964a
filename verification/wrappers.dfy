/** Optional values and failable results, standing for JavaScript's
    `undefined` and for the error channel of the service's observables. */
module Wrappers {

  datatype Option<+T> = None | Some(value: T)

  datatype Result<+T> = Ok(value: T) | Err(message: string)
}
