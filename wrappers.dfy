/** Option, Result and the error values that flow through the pipeline. */
module Wrappers {

  datatype Option<+T> = None | Some(value: T)

  datatype Result<+T, +E> = Ok(value: T) | Err(error: E)

  /** A Go `error`. `Failure` is an error handed back by a collaborator
      (the network, object storage, the JSON or CSV encoders), carrying its
      message; `BadStatus` is the error a status-checking prediction client
      raises for a non-200 reply. */
  datatype Error = Failure(detail: string) | BadStatus(code: int)
}
