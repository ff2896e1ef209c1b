/**
 * The forgotten-password page: an address that does not have the e-mail shape
 * of `^[^\s@]+@[^\s@]+\.[^\s@]+$` is refused before any request; otherwise the
 * reset link is requested with the loading flag raised, and the field is
 * cleared once the link is sent.
 */
module ForgotPassword {
  import opened Common
  import SignupPage

  /** `validateEmail`: the same expression as on the sign-up page. */
  function ValidateEmail(email: string): (ok: bool)
    ensures ok <==> SignupPage.EmailPattern(email)
  {
    SignupPage.EmailPatternIsShape(email);
    SignupPage.EmailShaped(email)
  }

  /** The sign-up page's e-mail validator accepts exactly the addresses this page
      accepts that are at most 100 characters long. */
  lemma SameShapeAsSignup(email: string)
    ensures SignupPage.ValidateEmail(email) == "" <==> ValidateEmail(email) && |email| <= 100
  {
    SignupPage.ValidateEmailMatchesPattern(email);
  }

  const InvalidEmailToast := "Please enter a valid email address."
  const SentToast := "Reset link sent to your email."
  const SendErrorToast := "Error sending reset link."

  /** The request body `{ email }`. */
  datatype ResetLinkRequest = ResetLinkRequest(email: string)

  class ForgotPasswordForm {
    var email: string
    var loading: bool

    constructor ()
      ensures email == "" && !loading
    {
      email := "";
      loading := false;
    }

    method EditEmail(value: string)
      modifies this`email
      ensures email == value
    {
      email := value;
    }

    /** `handleSubmit`: a refused address only raises a toast and never touches
        the loading flag; otherwise loading is on while the request runs and off
        after it on every path, and only an ok response clears the field. */
    method HandleSubmit(outcome: Outcome<()>) returns (request: Option<ResetLinkRequest>, toast: Toast, loadingDuringRequest: bool)
      modifies this`email, this`loading
      ensures !ValidateEmail(old(email)) ==>
        request == None && toast == ErrorToast(InvalidEmailToast) && email == old(email) && loading == old(loading)
      ensures ValidateEmail(old(email)) ==>
        request == Some(ResetLinkRequest(old(email))) && loadingDuringRequest && !loading
      ensures ValidateEmail(old(email)) && outcome.Ok? ==> toast == SuccessToast(SentToast) && email == ""
      ensures ValidateEmail(old(email)) && !outcome.Ok? ==> toast == ErrorToast(SendErrorToast) && email == old(email)
    {
      if !ValidateEmail(email) {
        return None, ErrorToast(InvalidEmailToast), loading;
      }
      loading := true;
      request := Some(ResetLinkRequest(email));
      loadingDuringRequest := loading;
      if outcome.Ok? {
        toast := SuccessToast(SentToast);
        email := "";
      } else {
        toast := ErrorToast(SendErrorToast);
      }
      loading := false;
    }
  }
}
