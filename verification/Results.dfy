/** Errors and results, as every component reports them. */
module Results {
  datatype ErrorCode =
    | Ok | InvalidArgument | PathNotFound | PermissionDenied | Busy | Cancelled | IndexNotReady
    | ProtocolError | PayloadTooLarge | ConnectionFailed | Timeout | TargetExists | IoError
    | HashMismatch | InternalError

  datatype Error = Error(code: ErrorCode, message: string)

  datatype Option<+T> = None | Some(value: T)

  datatype Result<+T> = Success(value: T) | Failure(error: Error)
}
