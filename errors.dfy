/** The exceptions the SDK raises, as values: a call either succeeds with a
    value or fails with exactly one of these. */
module Errors {
  import opened Py

  /** Why an argument was refused (the SDK raises `ValueError` for each). */
  datatype Reason =
    | FileItemNotPair(index: nat)       // item is not a 2-tuple or 2-list
    | NilFileObject(index: nat)         // file object is None
    | EmptyFileName(index: nat)         // filename is falsy
    | NoFileItems                       // upload_local_files got no file item
    | MetaRequired                      // upload_local_files got no meta
    | VolumeIdRequired
    | NoFilesOrTableConfig
    | EmptyJobId
    | EmptyFileId
    | RoleNameRequired
    | RoleIdRequired
    | TableConfigRequired
    | ConnFileIdsRequired
    | TableIdRequired
    | StatementRequired
    | RawClientRequired

  /** What was missing when `ErrNilRequest` is raised. */
  datatype NilSubject =
    | MissingPayload(operation: string)  // an endpoint called with request None
    | MissingUploadPayload(operation: string)  // the same, on the file-upload branch
    | MissingRole(roleId: int)           // update_table_role: get_role answered nothing

  datatype Error =
    | BaseURLRequired                    // ErrBaseURLRequired
    | APIKeyRequired                     // ErrAPIKeyRequired
    | InvalidBaseURL                     // ValueError: no scheme or no host
    | NilRequest(subject: NilSubject)    // ErrNilRequest
    | HttpError(status: int, body: seq<byte>)
    | ApiError(code: Json, message: Json, requestId: Json, httpStatus: int)
    | InvalidArgument(reason: Reason)    // ValueError on call arguments
    | ShapeError                         // TypeError/AttributeError/KeyError on a malformed value
    | JsonDecodeError                    // health_check: 2xx body that is not JSON
    | CallSignatureError                 // TypeError raised while binding a call's arguments

  datatype Result<+T> = Ok(value: T) | Err(error: Error)
}
