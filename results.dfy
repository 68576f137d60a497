/** Failure values of the interface: the single exception type the wrappers
    throw, and the array library's refusal of a negative dimension. */
module Results {

  datatype Option<+T> = None | Some(value: T)

  datatype Error =
      /** `finufft_error`, raised with a fixed message; surfaced to Python as FINUFFTError. */
    | FinufftError(msg: string)
      /** The host array library refuses to allocate an output with a negative extent. */
    | NegativeDimensions

  datatype Result<+T> = Ok(value: T) | Err(error: Error)
}
