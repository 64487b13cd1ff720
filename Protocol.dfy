/** The reply codes the server sends as text next to a reply's type. */
module Protocol {
  const LoginSuccessCode: string := "LOGIN_SUCCESS"
  const InvalidUsernameCode: string := "INVALID_USERNAME"
  const ErrorCode: string := "ERROR"
  const UserAlreadyExistsCode: string := "USER_ALREADY_EXISTS"

  /** The codes are spelt as their names and no two are equal, so a switch on them is unambiguous. */
  lemma CodesAreDistinct()
    ensures LoginSuccessCode == "LOGIN_SUCCESS" && InvalidUsernameCode == "INVALID_USERNAME"
    ensures ErrorCode == "ERROR" && UserAlreadyExistsCode == "USER_ALREADY_EXISTS"
    ensures LoginSuccessCode != InvalidUsernameCode && LoginSuccessCode != ErrorCode
    ensures LoginSuccessCode != UserAlreadyExistsCode && InvalidUsernameCode != ErrorCode
    ensures InvalidUsernameCode != UserAlreadyExistsCode && ErrorCode != UserAlreadyExistsCode
  {
  }
}
