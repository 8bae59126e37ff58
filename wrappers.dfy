/** Optional values (TypeScript's `T | undefined`) and success/failure outcomes
    (a resolved promise or a thrown error). */
module Wrappers {

  datatype Option<+T> = None | Some(value: T)

  datatype Result<+T, +E> = Ok(value: T) | Err(error: E)
}
