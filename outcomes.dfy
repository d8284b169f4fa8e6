/** Results and errors shared by every component of the renderer model.
    The renderer reports every failure by throwing; here a thrown exception is
    an `Err` value and the code after it does not run. */
module Outcomes {

  datatype Option<+T> = None | Some(value: T)

  /** The kinds of exception the renderer raises. `VkError` is what the
      `handle_error` helper throws (a message plus the Vulkan result code);
      `Undefined` marks a path whose behaviour the C++ language leaves undefined. */
  datatype Error =
    | RuntimeError(msg: string)
    | InvalidArgument(msg: string)
    | VkError(msg: string, code: string)
    | Undefined(what: string)

  datatype Result<+T> = Ok(value: T) | Err(error: Error)
}
