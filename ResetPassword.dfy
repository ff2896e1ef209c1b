/**
 * The password-reset page reached from the e-mailed link: the two typed
 * passwords must agree before the `token` query parameter is even read, a
 * missing or empty token stops the request, and the body is `{token, newPassword}`.
 */
module ResetPassword {
  import opened Common

  const MismatchToast := "Passwords do not match."
  const MissingTokenToast := "Invalid or missing token."
  const ResetToast := "Password reset successfully."
  const ResetErrorToast := "Error resetting password."

  /** The body of the reset request. */
  datatype ResetBody = ResetBody(token: string, newPassword: string)

  class ResetForm {
    var newPassword: string
    var confirmPassword: string

    constructor ()
      ensures newPassword == "" && confirmPassword == ""
    {
      newPassword, confirmPassword := "", "";
    }

    method EditNewPassword(value: string)
      modifies this`newPassword
      ensures newPassword == value
    {
      newPassword := value;
    }

    method EditConfirmPassword(value: string)
      modifies this`confirmPassword
      ensures confirmPassword == value
    {
      confirmPassword := value;
    }

    /** `handlePasswordReset`, with `token` the query parameter (`None` when
        absent) and `outcome` what the request ends in. The state is left as it
        is on every path. */
    method HandlePasswordReset(token: Option<string>, outcome: Outcome<()>) returns (request: Option<ResetBody>, toast: Toast)
      ensures newPassword != confirmPassword ==> request == None && toast == ErrorToast(MismatchToast)
      ensures newPassword == confirmPassword && (token.None? || token.value == "") ==>
        request == None && toast == ErrorToast(MissingTokenToast)
      ensures newPassword == confirmPassword && token.Some? && token.value != "" ==>
        request == Some(ResetBody(token.value, newPassword))
      ensures request.Some? && outcome.Ok? ==> toast == SuccessToast(ResetToast)
      ensures request.Some? && !outcome.Ok? ==> toast == ErrorToast(FailureText(outcome, ResetErrorToast))
    {
      if newPassword != confirmPassword {
        return None, ErrorToast(MismatchToast);
      }
      if token.None? || token.value == "" {
        return None, ErrorToast(MissingTokenToast);
      }
      request := Some(ResetBody(token.value, newPassword));
      if outcome.Ok? {
        toast := SuccessToast(ResetToast);
      } else {
        toast := ErrorToast(FailureText(outcome, ResetErrorToast));
      }
    }
  }
}
