/**
 * The stand-alone login and sign-up form. Problems are reported as error
 * toasts (only their text is modelled); the captcha is spent after every
 * hosted call, successful or not; success redirects home with a toast
 * parameter. The hosted auth service and the phone-number check are inputs.
 */
module AuthForm {
  import opened Wrappers
  import opened FormChecks
  import opened Query
  import HomeToast
  import AuthModal

  const CaptchaMessage: string := "Please complete the captcha verification"
  const LoginFallback: string := "An error occurred during login"
  const SignupFallback: string := "An error occurred during signup"

  datatype FormState = FormState(
    loading: bool,
    signupStep: int,
    captchaToken: Option<string>,
    toast: Option<string>,
    redirect: Option<(string, Params)>)

  datatype Outcome = Outcome(state: FormState, called: bool)

  /** The page a successful login or sign-up goes to: home, with a toast parameter. */
  function Home(toastType: string): (string, Params) {
    ("/", [(HomeToast.ToastKey, toastType)])
  }

  /** After a hosted call: the captcha is spent, and the error is toasted (with a
      fallback text) or the page redirects. */
  function AfterCall(s: FormState, serviceError: Option<string>, fallback: string, toastType: string)
    : (r: FormState)
    ensures r.captchaToken.None? && !r.loading
    ensures serviceError.Some? ==> r.toast == Some(MessageOr(serviceError.value, fallback)) && r.redirect == s.redirect
    ensures serviceError.None? ==> r.redirect == Some(Home(toastType)) && r.toast == s.toast
  {
    match serviceError
    case Some(m) => s.(toast := Some(MessageOr(m, fallback)), captchaToken := None, loading := false)
    case None => s.(redirect := Some(Home(toastType)), captchaToken := None, loading := false)
  }

  /** `handleLogin`: only the captcha is checked (not the fields); the captcha is
      spent after the attempt whatever its result. */
  function HandleLogin(s: FormState, email: string, password: string, serviceError: Option<string>)
    : (o: Outcome)
    ensures o.called <==> HasToken(s.captchaToken)
    ensures !o.called ==> o.state == s.(toast := Some(CaptchaMessage), loading := false)
    ensures o.called ==> o.state.captchaToken.None?
    ensures o.called && serviceError.None? ==> o.state.redirect == Some(Home("login"))
    ensures !o.state.loading
  {
    if !HasToken(s.captchaToken) then Outcome(s.(toast := Some(CaptchaMessage), loading := false), false)
    else Outcome(AfterCall(s, serviceError, LoginFallback, "login"), true)
  }

  /** The home page greets a successful login with its toast and then cleans the
      address back to `/`. */
  lemma LoginRedirectShowsToast(s: FormState, email: string, password: string)
    requires HasToken(s.captchaToken)
    ensures var target := HandleLogin(s, email, password, None).state.redirect.value;
            HomeToast.ToastEffect(target.0, target.1)
            == HomeToast.EffectResult(HomeToast.Config("login"), Some("/"))
  {
    HomeToast.OnlyToastParamLeavesBarePath("/", "login");
  }

  function BasicSignupChecks(captcha: Option<string>, d: AuthModal.SignupData): seq<Check> {
    [Check(!HasToken(captcha), CaptchaMessage),
     Check(d.email == "" || d.password == "" || d.confirmPassword == "", AuthModal.RequiredMessage),
     Check(d.password != d.confirmPassword, AuthModal.MismatchMessage),
     Check(|d.password| < 6, AuthModal.LengthMessage),
     Check(!d.acceptedTerms, AuthModal.TermsMessage)]
  }

  /** `handleBasicSignup`: the same five checks, in the same order, as the modal's. */
  function HandleBasicSignup(s: FormState, d: AuthModal.SignupData): (r: FormState)
    ensures AuthModal.BasicSignupValid(s.captchaToken, d) ==> r == s.(signupStep := 2)
    ensures !AuthModal.BasicSignupValid(s.captchaToken, d) ==> r.signupStep == s.signupStep && r.toast.Some?
    ensures !AuthModal.BasicSignupValid(s.captchaToken, d) ==> r == s.(toast := FirstFailure(BasicSignupChecks(s.captchaToken, d)))
    ensures !HasToken(s.captchaToken) ==> r.toast == Some(CaptchaMessage)
    ensures HasToken(s.captchaToken) && !AuthModal.BasicSignupValid(s.captchaToken, d) ==>
              r.toast == FirstFailure(AuthModal.BasicSignupChecks(s.captchaToken, d))
  {
    BasicSignupDecided(s.captchaToken, d);
    match FirstFailure(BasicSignupChecks(s.captchaToken, d))
    case Some(m) => s.(toast := Some(m))
    case None => s.(signupStep := 2)
  }

  /** The form and the modal agree: apart from the captcha's wording they report
      the same message for the same input. */
  lemma BasicSignupDecided(captcha: Option<string>, d: AuthModal.SignupData)
    ensures FirstFailure(BasicSignupChecks(captcha, d)).None? <==> AuthModal.BasicSignupValid(captcha, d)
    ensures !HasToken(captcha) ==> FirstFailure(BasicSignupChecks(captcha, d)) == Some(CaptchaMessage)
    ensures HasToken(captcha) ==>
              FirstFailure(BasicSignupChecks(captcha, d)) == FirstFailure(AuthModal.BasicSignupChecks(captcha, d))
  {
    AuthModal.BasicSignupDecided(captcha, d);
    if !HasToken(captcha) {
      FirstFailureAt(BasicSignupChecks(captcha, d), 0);
    } else {
      BasicSignupAgrees(captcha, d);
    }
  }

  lemma BasicSignupAgrees(captcha: Option<string>, d: AuthModal.SignupData)
    requires HasToken(captcha)
    ensures FirstFailure(BasicSignupChecks(captcha, d)) == FirstFailure(AuthModal.BasicSignupChecks(captcha, d))
  {
    var cs := BasicSignupChecks(captcha, d);
    var ms := AuthModal.BasicSignupChecks(captcha, d);
    assert cs[1..] == ms[1..];
    SameAfterPassingHead(cs, ms);
  }

  function FullSignupChecks(captcha: Option<string>, d: AuthModal.SignupData, phoneValid: bool): seq<Check> {
    [Check(!HasToken(captcha), CaptchaMessage),
     Check(d.firstName == "" || d.lastName == "" || d.contactNumber == "", AuthModal.RequiredMessage),
     Check(!phoneValid, AuthModal.PhoneMessage)]
  }

  /** `handleFullSignup`: captcha, names and contact, then the phone; there is no
      student-document check here. A failure is toasted and nothing is called. */
  function HandleFullSignup(s: FormState, d: AuthModal.SignupData, phoneValid: bool,
                            serviceError: Option<string>): (o: Outcome)
    ensures o.called <==> HasToken(s.captchaToken) && d.firstName != "" && d.lastName != ""
                          && d.contactNumber != "" && phoneValid
    ensures !o.called ==>
              o.state == s.(toast := FirstFailure(FullSignupChecks(s.captchaToken, d, phoneValid)), loading := false)
    ensures !HasToken(s.captchaToken) ==> o.state.toast == Some(CaptchaMessage)
    ensures HasToken(s.captchaToken) && (d.firstName == "" || d.lastName == "" || d.contactNumber == "")
            ==> o.state.toast == Some(AuthModal.RequiredMessage)
    ensures HasToken(s.captchaToken) && d.firstName != "" && d.lastName != "" && d.contactNumber != ""
            && !phoneValid
            ==> o.state.toast == Some(AuthModal.PhoneMessage)
    ensures o.called ==> o.state.captchaToken.None?
    ensures o.called && serviceError.Some? ==> o.state.toast == Some(MessageOr(serviceError.value, SignupFallback))
    ensures o.called && serviceError.None? ==> o.state.redirect == Some(Home("signUp"))
    ensures !o.state.loading
  {
    FullSignupDecided(s.captchaToken, d, phoneValid);
    match FirstFailure(FullSignupChecks(s.captchaToken, d, phoneValid))
    case Some(m) => Outcome(s.(toast := Some(m), loading := false), false)
    case None => Outcome(AfterCall(s, serviceError, SignupFallback, "signUp"), true)
  }

  /** Which of the form's three checks reports, case by case. */
  lemma FullSignupDecided(captcha: Option<string>, d: AuthModal.SignupData, phoneValid: bool)
    ensures FirstFailure(FullSignupChecks(captcha, d, phoneValid)).None? <==>
              HasToken(captcha) && d.firstName != "" && d.lastName != "" && d.contactNumber != "" && phoneValid
    ensures !HasToken(captcha) ==> FirstFailure(FullSignupChecks(captcha, d, phoneValid)) == Some(CaptchaMessage)
    ensures HasToken(captcha) && (d.firstName == "" || d.lastName == "" || d.contactNumber == "") ==>
              FirstFailure(FullSignupChecks(captcha, d, phoneValid)) == Some(AuthModal.RequiredMessage)
    ensures HasToken(captcha) && d.firstName != "" && d.lastName != "" && d.contactNumber != "" && !phoneValid ==>
              FirstFailure(FullSignupChecks(captcha, d, phoneValid)) == Some(AuthModal.PhoneMessage)
  {
    var cs := FullSignupChecks(captcha, d, phoneValid);
    if !HasToken(captcha) {
      FirstFailureAt(cs, 0);
    } else if d.firstName == "" || d.lastName == "" || d.contactNumber == "" {
      FirstFailureAt(cs, 1);
    } else if !phoneValid {
      FirstFailureAt(cs, 2);
    }
  }

  /** A student without a document is refused by the modal but accepted here. */
  lemma StudentDocumentOnlyInModal(m: AuthModal.ModalState, s: FormState, d: AuthModal.SignupData,
                                   serviceError: Option<string>)
    requires HasToken(m.captchaToken) && HasToken(s.captchaToken)
    requires d.firstName != "" && d.lastName != "" && d.contactNumber != ""
    requires d.memberType == Student && !d.hasDocument
    ensures !AuthModal.HandleFullSignup(m, d, true, serviceError).called
    ensures HandleFullSignup(s, d, true, serviceError).called
  {
  }

  /** The Create Account button. */
  function CreateAccountEnabled(loading: bool, captcha: Option<string>, phoneValid: bool): (b: bool)
    ensures b <==> HasToken(captcha) && phoneValid && !loading
  {
    !loading && HasToken(captcha) && phoneValid
  }

  /** A submit the button allows fails, if at all, only for a missing name or contact. */
  lemma EnabledCreateAccount(s: FormState, d: AuthModal.SignupData, phoneValid: bool,
                             serviceError: Option<string>)
    requires CreateAccountEnabled(s.loading, s.captchaToken, phoneValid)
    ensures !HandleFullSignup(s, d, phoneValid, serviceError).called ==>
              HandleFullSignup(s, d, phoneValid, serviceError).state.toast == Some(AuthModal.RequiredMessage)
  {
    if d.firstName == "" || d.lastName == "" || d.contactNumber == "" {
      FirstFailureAt(FullSignupChecks(s.captchaToken, d, phoneValid), 1);
    }
  }
}
