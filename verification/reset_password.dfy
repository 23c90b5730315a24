/**
 * The reset-password page: the length check comes before the match check,
 * and only a password that passes both is accepted.
 */
module ResetPassword {
  import opened Wrappers
  import opened FormChecks
  import AuthModal

  datatype ResetState = ResetState(isLoading: bool, error: string, success: bool)

  function ResetChecks(password: string, confirmPassword: string): seq<Check> {
    [Check(|password| < 6, AuthModal.LengthMessage),
     Check(password != confirmPassword, AuthModal.MismatchMessage)]
  }

  /** `handleResetPassword`; the simulated request always completes. */
  function HandleResetPassword(s: ResetState, password: string, confirmPassword: string): (r: ResetState)
    ensures !r.isLoading
    ensures |password| < 6 ==> r == s.(isLoading := false, error := AuthModal.LengthMessage)
    ensures |password| >= 6 && password != confirmPassword ==>
              r == s.(isLoading := false, error := AuthModal.MismatchMessage)
    ensures |password| >= 6 && password == confirmPassword ==>
              r == s.(isLoading := false, error := "", success := true)
    ensures r.success != s.success ==> |password| >= 6 && password == confirmPassword
  {
    ResetDecided(password, confirmPassword);
    match FirstFailure(ResetChecks(password, confirmPassword))
    case Some(m) => s.(isLoading := false, error := m)
    case None => s.(isLoading := false, error := "", success := true)
  }

  lemma ResetDecided(password: string, confirmPassword: string)
    ensures |password| < 6 ==> FirstFailure(ResetChecks(password, confirmPassword)) == Some(AuthModal.LengthMessage)
    ensures |password| >= 6 && password != confirmPassword ==>
              FirstFailure(ResetChecks(password, confirmPassword)) == Some(AuthModal.MismatchMessage)
    ensures |password| >= 6 && password == confirmPassword ==>
              FirstFailure(ResetChecks(password, confirmPassword)).None?
  {
    var cs := ResetChecks(password, confirmPassword);
    if |password| < 6 {
      FirstFailureAt(cs, 0);
    } else if password != confirmPassword {
      FirstFailureAt(cs, 1);
    }
  }

  /** A short password is reported as short even when the two entries differ. */
  lemma LengthReportedBeforeMismatch(s: ResetState, password: string, confirmPassword: string)
    requires |password| < 6 && password != confirmPassword
    ensures HandleResetPassword(s, password, confirmPassword).error == AuthModal.LengthMessage
  {
  }
}
