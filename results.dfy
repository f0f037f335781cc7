/**
 * Optional values and fallible results, standing for JavaScript's
 * `undefined` fields and for the errors the modelled code throws.
 */
module Results {

  datatype Option<+T> = None | Some(value: T)

  /** `Ok(value)` for a normal return, `Err(message)` for a thrown `Error(message)`. */
  datatype Result<+T> = Ok(value: T) | Err(message: string)
}
