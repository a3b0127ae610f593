/** The exceptions a caller of the authorization layer can observe. */
module Exceptions {

  /** The subclasses of AuthorizationFailed; `Plain` is the base class itself. */
  datatype FailureKind = Plain | AuthenticationFailed | InsufficientPermissions | ConnectionError

  /** An exception in flight. Only `AuthorizationFailed` (with any kind) is
      caught by the enforcement policies; a missing dictionary key and any
      exception from outside the package propagate. */
  datatype Error =
    | AuthorizationFailed(kind: FailureKind)
    | KeyError(key: string)
    | OtherError(name: string)

  /** Whether `except AuthorizationFailed` catches `e`. */
  predicate CaughtAsAuthorizationFailed(e: Error)
  {
    e.AuthorizationFailed?
  }
}
