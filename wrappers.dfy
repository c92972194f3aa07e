/** The error values the core returns, one constructor per error the source
    distinguishes. Errors produced by code outside the model (the remote
    service, the database driver) are carried as opaque `Foreign` values. */
module Errors {
  datatype Error =
    | CryptoError       // AEAD authentication failure: wrong passphrase or corrupted blob
    | IoError           // the local disk refused the request
    | HashFailure       // bcrypt could not produce a hash
    | PinNotSet         // "pin didn't set"
    | SessionNotFound   // logic.ErrNoSession
    | ProfileNotFound   // logic.ErrProfileNotFound
    | UndefinedType     // datacrypt.ErrUndefinedType
    | AccessDenied      // usecase.ErrAccessDenied
    | RecordNotFound    // record.ErrNotFound
    | AlreadyExist      // record.ErrAlreadyExist
    | DbError           // any other database failure
    | UserNotFound      // user.ErrNotFound
    | BadPass           // user.ErrBadPass
    | EmptyAddress      // "empty address not valid"
    | InvalidAddress    // "invalid address and port"
    | Foreign(reason: string)
}

/** Option and Result, the model's stand-ins for Go's nil pointers and
    `(value, error)` pairs. */
module Wrappers {
  import opened Errors

  datatype Option<+T> = None | Some(value: T)

  datatype Result<+T> = Ok(value: T) | Err(error: Error)
}
