/** Small value wrappers shared by the calculator modules. */
module Common {

  /** A value that may be absent: the `undefined` of `Array.find`, the `null`
      of an unset React state, or a form field whose text does not parse. */
  datatype Option<T> = None | Some(value: T)

  /** The outcome of a computation that can throw: `Err` carries the message
      of the thrown `Error`. */
  datatype Result<T> = Ok(value: T) | Err(message: string)

  /** `Math.abs` over exact reals. */
  function Abs(x: real): real
  {
    if x < 0.0 then -x else x
  }
}
