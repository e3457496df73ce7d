/** The sign-up form: three local checks run in a fixed order before the sign-up call, and the
    form's `error` and `loading` state follow every path through the submit handler. */
module Signup {
  import opened Types

  const PasswordMismatch := "Passwords do not match"
  const PasswordTooShort := "Password must be at least 8 characters"
  const TermsNotAccepted := "Please accept the terms and conditions"
  const FallbackError := "An error occurred"
  const MinPasswordLength := 8

  /** The form may go on to the sign-up call. */
  predicate CanSignUp(password: string, confirmPassword: string, termsAccepted: bool) {
    password == confirmPassword && |password| >= MinPasswordLength && termsAccepted
  }

  /** The message of the first local check that fails, if any. */
  function FirstValidationError(password: string, confirmPassword: string, termsAccepted: bool): (r: Option<string>)
    ensures r.None? <==> CanSignUp(password, confirmPassword, termsAccepted)
    ensures r.Some? ==> r.value in {PasswordMismatch, PasswordTooShort, TermsNotAccepted}
    ensures password != confirmPassword ==> r == Some(PasswordMismatch)
    ensures r == Some(PasswordTooShort) <==> password == confirmPassword && |password| < MinPasswordLength
    ensures r == Some(TermsNotAccepted) <==> password == confirmPassword && |password| >= MinPasswordLength && !termsAccepted
  {
    if password != confirmPassword then Some(PasswordMismatch)
    else if |password| < MinPasswordLength then Some(PasswordTooShort)
    else if !termsAccepted then Some(TermsNotAccepted)
    else None
  }

  /** `error.message || "An error occurred"`: the message shown for a failed sign-up is never empty,
      and is the returned message whenever that has text. */
  function ErrorText(message: string): (r: string)
    ensures r != ""
    ensures message != "" ==> r == message
    ensures message == "" ==> r == FallbackError
  {
    if message == "" then FallbackError else message
  }

  /** What `signUp` is called with: the credentials, and the full name as user metadata. */
  datatype SignUpRequest = SignUpRequest(email: string, password: string, fullName: string)

  class SignUpForm {
    var fullName: string
    var email: string
    var password: string
    var confirmPassword: string
    var termsAccepted: bool
    var loading: bool
    var error: string

    constructor ()
      ensures fullName == "" && email == "" && password == "" && confirmPassword == ""
      ensures !termsAccepted && !loading && error == ""
    {
      fullName, email, password, confirmPassword := "", "", "", "";
      termsAccepted, loading, error := false, false, "";
    }

    /** `handleSubmit`. `reply` is the answer of the sign-up call (a returned or a thrown error both
        land in the same handler); it is ignored when a local check fails and no call is made.
        The returned request is the call made, if any. */
    method HandleSubmit(reply: StoreReply<()>) returns (request: Option<SignUpRequest>)
      modifies this`loading, this`error
      ensures request.Some? <==> CanSignUp(password, confirmPassword, termsAccepted)
      ensures request.Some? ==> request.value == SignUpRequest(email, password, fullName)
      ensures !loading
      ensures var failed := FirstValidationError(password, confirmPassword, termsAccepted);
        error == if failed.Some? then failed.value
                 else if reply.Error? then ErrorText(reply.message)
                 else ""
    {
      loading := true;
      error := "";

      if password != confirmPassword {
        error := PasswordMismatch;
        loading := false;
        return None;
      }

      if |password| < MinPasswordLength {
        error := PasswordTooShort;
        loading := false;
        return None;
      }

      if !termsAccepted {
        error := TermsNotAccepted;
        loading := false;
        return None;
      }

      request := Some(SignUpRequest(email, password, fullName));
      if reply.Error? {
        error := ErrorText(reply.message);
      }
      loading := false;
    }
  }
}
