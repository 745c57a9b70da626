/** The response object the services return: success with a payload, or failure with a message. */
module Dto {

  datatype Result<+T> = Ok(data: T) | Fail(errorMsg: string)
}
