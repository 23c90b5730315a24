/**
 * The sign-in / sign-up modal: the ordered validation of its four handlers,
 * what each does once its checks pass, and the reset on closing. The hosted
 * auth service is an input: its error message, or `None` when it accepts.
 * The phone-number check is an input too.
 */
module AuthModal {
  import opened Wrappers
  import opened FormChecks

  const CaptchaMessage: string := "Please complete the captcha"
  const LoginFieldsMessage: string := "Please fill in all fields"
  const RequiredMessage: string := "Please fill in all required fields"
  const MismatchMessage: string := "Passwords do not match"
  const LengthMessage: string := "Password must be at least 6 characters long"
  const TermsMessage: string := "Please accept the terms and conditions"
  const DocumentMessage: string := "Students must upload a verification document"
  const PhoneMessage: string := "Please enter a valid phone number"
  const EmailMessage: string := "Please enter your email address"

  datatype Tab = LoginTab | SignupTab

  datatype ModalState = ModalState(
    activeTab: Tab,
    signupStep: int,
    showForgotPassword: bool,
    error: string,
    captchaToken: Option<string>,
    phoneTouched: bool,
    isLoading: bool,
    open: bool)

  datatype LoginData = LoginData(email: string, password: string)

  datatype SignupData = SignupData(
    firstName: string,
    lastName: string,
    email: string,
    password: string,
    confirmPassword: string,
    contactNumber: string,
    memberType: MemberType,
    hasDocument: bool,
    acceptedTerms: bool)

  /** A handler's result: the new state, and whether the hosted call was made. */
  datatype Outcome = Outcome(state: ModalState, called: bool)

  function LoginChecks(captcha: Option<string>, d: LoginData): seq<Check> {
    [Check(!HasToken(captcha), CaptchaMessage),
     Check(d.email == "" || d.password == "", LoginFieldsMessage)]
  }

  /** A handler with a hosted call: the first failing check's message is shown and
      nothing is called; otherwise the call's error is shown, or `accepted` is the
      state after success. Loading ends either way. */
  function Run(s: ModalState, cs: seq<Check>, serviceError: Option<string>, accepted: ModalState)
    : (o: Outcome)
    ensures o.called <==> FirstFailure(cs).None?
    ensures !o.called ==> o.state == s.(error := FirstFailure(cs).value, isLoading := false)
    ensures o.called && serviceError.Some? ==> o.state == s.(error := serviceError.value, isLoading := false)
    ensures o.called && serviceError.None? ==> o.state == accepted
  {
    match FirstFailure(cs)
    case Some(m) => Outcome(s.(error := m, isLoading := false), false)
    case None =>
      match serviceError
      case Some(m) => Outcome(s.(error := m, isLoading := false), true)
      case None => Outcome(accepted, true)
  }

  /** The state after a successful sign-in or sign-up: the captcha is spent and the
      modal closes. */
  function SignedIn(s: ModalState): ModalState {
    s.(error := "", captchaToken := None, isLoading := false, open := false)
  }

  /** `handleLogin`: the captcha is checked before the fields; sign-in happens only
      when both pass. */
  function HandleLogin(s: ModalState, d: LoginData, serviceError: Option<string>): (o: Outcome)
    ensures o.called <==> HasToken(s.captchaToken) && d.email != "" && d.password != ""
    ensures !HasToken(s.captchaToken) ==> o.state.error == CaptchaMessage
    ensures HasToken(s.captchaToken) && (d.email == "" || d.password == "") ==>
              o.state.error == LoginFieldsMessage
    ensures !o.state.isLoading
    ensures o.called && serviceError.None? ==> !o.state.open && o.state.captchaToken.None?
  {
    LoginDecided(s.captchaToken, d);
    Run(s.(error := ""), LoginChecks(s.captchaToken, d), serviceError, SignedIn(s))
  }

  lemma LoginDecided(captcha: Option<string>, d: LoginData)
    ensures FirstFailure(LoginChecks(captcha, d)).None? <==> HasToken(captcha) && d.email != "" && d.password != ""
    ensures !HasToken(captcha) ==> FirstFailure(LoginChecks(captcha, d)) == Some(CaptchaMessage)
    ensures HasToken(captcha) && (d.email == "" || d.password == "") ==>
              FirstFailure(LoginChecks(captcha, d)) == Some(LoginFieldsMessage)
  {
    var cs := LoginChecks(captcha, d);
    if !HasToken(captcha) {
      FirstFailureAt(cs, 0);
    } else if d.email == "" || d.password == "" {
      FirstFailureAt(cs, 1);
    }
  }

  function BasicSignupChecks(captcha: Option<string>, d: SignupData): seq<Check> {
    [Check(!HasToken(captcha), CaptchaMessage),
     Check(d.email == "" || d.password == "" || d.confirmPassword == "", RequiredMessage),
     Check(d.password != d.confirmPassword, MismatchMessage),
     Check(|d.password| < 6, LengthMessage),
     Check(!d.acceptedTerms, TermsMessage)]
  }

  predicate BasicSignupValid(captcha: Option<string>, d: SignupData) {
    HasToken(captcha) && d.email != "" && d.password != "" && d.confirmPassword != ""
    && d.password == d.confirmPassword && |d.password| >= 6 && d.acceptedTerms
  }

  /** `handleBasicSignup`: five checks in order; the second step opens only when all
      pass. */
  function HandleBasicSignup(s: ModalState, d: SignupData): (r: ModalState)
    ensures BasicSignupValid(s.captchaToken, d) ==> r == s.(error := "", signupStep := 2)
    ensures !BasicSignupValid(s.captchaToken, d) ==> r.signupStep == s.signupStep && r.error != ""
    ensures !HasToken(s.captchaToken) ==> r.error == CaptchaMessage
    ensures HasToken(s.captchaToken) && (d.email == "" || d.password == "" || d.confirmPassword == "")
            ==> r.error == RequiredMessage
    ensures HasToken(s.captchaToken) && d.email != "" && d.password != "" && d.confirmPassword != ""
            && d.password != d.confirmPassword
            ==> r.error == MismatchMessage
    ensures HasToken(s.captchaToken) && d.email != "" && d.password != ""
            && d.password == d.confirmPassword && |d.password| < 6
            ==> r.error == LengthMessage
    ensures HasToken(s.captchaToken) && d.email != "" && d.password != "" && d.confirmPassword != ""
            && d.password == d.confirmPassword && |d.password| >= 6 && !d.acceptedTerms
            ==> r.error == TermsMessage
  {
    var cs := BasicSignupChecks(s.captchaToken, d);
    BasicSignupDecided(s.captchaToken, d);
    match FirstFailure(cs)
    case Some(m) => s.(error := m)
    case None => s.(error := "", signupStep := 2)
  }

  /** Which of the five checks reports, case by case. */
  lemma BasicSignupDecided(captcha: Option<string>, d: SignupData)
    ensures FirstFailure(BasicSignupChecks(captcha, d)).None? <==> BasicSignupValid(captcha, d)
    ensures FirstFailure(BasicSignupChecks(captcha, d)).Some? ==>
              FirstFailure(BasicSignupChecks(captcha, d)).value != ""
    ensures !HasToken(captcha) ==> FirstFailure(BasicSignupChecks(captcha, d)) == Some(CaptchaMessage)
    ensures HasToken(captcha) && (d.email == "" || d.password == "" || d.confirmPassword == "") ==>
              FirstFailure(BasicSignupChecks(captcha, d)) == Some(RequiredMessage)
    ensures HasToken(captcha) && d.email != "" && d.password != "" && d.confirmPassword != ""
            && d.password != d.confirmPassword ==>
              FirstFailure(BasicSignupChecks(captcha, d)) == Some(MismatchMessage)
    ensures HasToken(captcha) && d.email != "" && d.password != ""
            && d.password == d.confirmPassword && |d.password| < 6 ==>
              FirstFailure(BasicSignupChecks(captcha, d)) == Some(LengthMessage)
    ensures HasToken(captcha) && d.email != "" && d.password != "" && d.confirmPassword != ""
            && d.password == d.confirmPassword && |d.password| >= 6 && !d.acceptedTerms ==>
              FirstFailure(BasicSignupChecks(captcha, d)) == Some(TermsMessage)
  {
    var cs := BasicSignupChecks(captcha, d);
    if !HasToken(captcha) {
      FirstFailureAt(cs, 0);
    } else if d.email == "" || d.password == "" || d.confirmPassword == "" {
      FirstFailureAt(cs, 1);
    } else if d.password != d.confirmPassword {
      FirstFailureAt(cs, 2);
    } else if |d.password| < 6 {
      FirstFailureAt(cs, 3);
    } else if !d.acceptedTerms {
      FirstFailureAt(cs, 4);
    }
  }

  function FullSignupChecks(captcha: Option<string>, d: SignupData, phoneValid: bool): seq<Check> {
    [Check(!HasToken(captcha), CaptchaMessage),
     Check(d.firstName == "" || d.lastName == "" || d.contactNumber == "", RequiredMessage),
     Check(d.memberType == Student && !d.hasDocument, DocumentMessage),
     Check(!phoneValid, PhoneMessage)]
  }

  /** `handleFullSignup`: captcha, names and contact, the student document, then the
      phone number; the account is requested only when all four pass, and success
      spends the captcha and closes the modal. */
  function HandleFullSignup(s: ModalState, d: SignupData, phoneValid: bool, serviceError: Option<string>)
    : (o: Outcome)
    ensures o.called <==> HasToken(s.captchaToken) && d.firstName != "" && d.lastName != ""
                          && d.contactNumber != "" && (d.memberType == Student ==> d.hasDocument) && phoneValid
    ensures !o.called ==> Some(o.state.error) == FirstFailure(FullSignupChecks(s.captchaToken, d, phoneValid))
    ensures !HasToken(s.captchaToken) ==> o.state.error == CaptchaMessage
    ensures HasToken(s.captchaToken) && (d.firstName == "" || d.lastName == "" || d.contactNumber == "")
            ==> o.state.error == RequiredMessage
    ensures HasToken(s.captchaToken) && d.firstName != "" && d.lastName != "" && d.contactNumber != ""
            && d.memberType == Student && !d.hasDocument
            ==> o.state.error == DocumentMessage
    ensures HasToken(s.captchaToken) && d.firstName != "" && d.lastName != "" && d.contactNumber != ""
            && (d.memberType == Student ==> d.hasDocument) && !phoneValid
            ==> o.state.error == PhoneMessage
    ensures o.called && serviceError.Some? ==> o.state.error == serviceError.value && o.state.open == s.open
    ensures o.called && serviceError.None? ==> !o.state.open && o.state.captchaToken.None? && o.state.error == ""
    ensures !o.state.isLoading
  {
    FullSignupDecided(s.captchaToken, d, phoneValid);
    Run(s.(error := ""), FullSignupChecks(s.captchaToken, d, phoneValid), serviceError, SignedIn(s))
  }

  /** Which of the four checks reports, case by case. */
  lemma FullSignupDecided(captcha: Option<string>, d: SignupData, phoneValid: bool)
    ensures FirstFailure(FullSignupChecks(captcha, d, phoneValid)).None? <==>
              HasToken(captcha) && d.firstName != "" && d.lastName != "" && d.contactNumber != ""
              && (d.memberType == Student ==> d.hasDocument) && phoneValid
    ensures !HasToken(captcha) ==> FirstFailure(FullSignupChecks(captcha, d, phoneValid)) == Some(CaptchaMessage)
    ensures HasToken(captcha) && (d.firstName == "" || d.lastName == "" || d.contactNumber == "") ==>
              FirstFailure(FullSignupChecks(captcha, d, phoneValid)) == Some(RequiredMessage)
    ensures HasToken(captcha) && d.firstName != "" && d.lastName != "" && d.contactNumber != ""
            && d.memberType == Student && !d.hasDocument ==>
              FirstFailure(FullSignupChecks(captcha, d, phoneValid)) == Some(DocumentMessage)
    ensures HasToken(captcha) && d.firstName != "" && d.lastName != "" && d.contactNumber != ""
            && (d.memberType == Student ==> d.hasDocument) && !phoneValid ==>
              FirstFailure(FullSignupChecks(captcha, d, phoneValid)) == Some(PhoneMessage)
  {
    var cs := FullSignupChecks(captcha, d, phoneValid);
    if !HasToken(captcha) {
      FirstFailureAt(cs, 0);
    } else if d.firstName == "" || d.lastName == "" || d.contactNumber == "" {
      FirstFailureAt(cs, 1);
    } else if d.memberType == Student && !d.hasDocument {
      FirstFailureAt(cs, 2);
    } else if !phoneValid {
      FirstFailureAt(cs, 3);
    }
  }

  function ForgotPasswordChecks(captcha: Option<string>, email: string): seq<Check> {
    [Check(email == "", EmailMessage),
     Check(!HasToken(captcha), CaptchaMessage)]
  }

  /** `handleForgotPassword`: unlike the other handlers it checks the e-mail before
      the captcha. On success the captcha is spent and the form closes. */
  function HandleForgotPassword(s: ModalState, email: string, serviceError: Option<string>): (o: Outcome)
    ensures o.called <==> email != "" && HasToken(s.captchaToken)
    ensures email == "" ==> o.state.error == EmailMessage
    ensures email != "" && !HasToken(s.captchaToken) ==> o.state.error == CaptchaMessage
    ensures o.called && serviceError.None? ==>
              o.state == s.(error := "", captchaToken := None, showForgotPassword := false, isLoading := false)
  {
    ForgotPasswordDecided(s.captchaToken, email);
    Run(s.(error := ""), ForgotPasswordChecks(s.captchaToken, email), serviceError,
        s.(error := "", captchaToken := None, showForgotPassword := false, isLoading := false))
  }

  lemma ForgotPasswordDecided(captcha: Option<string>, email: string)
    ensures FirstFailure(ForgotPasswordChecks(captcha, email)).None? <==> email != "" && HasToken(captcha)
    ensures email == "" ==> FirstFailure(ForgotPasswordChecks(captcha, email)) == Some(EmailMessage)
    ensures email != "" && !HasToken(captcha) ==>
              FirstFailure(ForgotPasswordChecks(captcha, email)) == Some(CaptchaMessage)
  {
    var cs := ForgotPasswordChecks(captcha, email);
    if email == "" {
      FirstFailureAt(cs, 0);
    } else if !HasToken(captcha) {
      FirstFailureAt(cs, 1);
    }
  }

  /** With neither an e-mail nor a captcha, the login and forgot-password forms
      report different problems. */
  lemma CheckOrderDiffers(s: ModalState, serviceError: Option<string>)
    requires s.captchaToken.None?
    ensures HandleLogin(s, LoginData("", ""), serviceError).state.error == CaptchaMessage
    ensures HandleForgotPassword(s, "", serviceError).state.error == EmailMessage
  {
  }

  /** `handleClose`: back to the default tab and the first step, no error, no captcha. */
  function HandleClose(s: ModalState, defaultTab: Tab): (r: ModalState)
    ensures r.activeTab == defaultTab && r.signupStep == 1 && !r.showForgotPassword
    ensures r.error == "" && r.captchaToken.None? && !r.phoneTouched && !r.open
    ensures r.isLoading == s.isLoading
  {
    s.(activeTab := defaultTab, signupStep := 1, showForgotPassword := false, error := "",
       captchaToken := None, phoneTouched := false, open := false)
  }

  /** Closing twice is closing once, and after closing every handler that needs a
      captcha refuses until a new one is solved. */
  lemma CloseResets(s: ModalState, defaultTab: Tab, d: LoginData, sd: SignupData, phoneValid: bool,
                    serviceError: Option<string>)
    ensures HandleClose(HandleClose(s, defaultTab), defaultTab) == HandleClose(s, defaultTab)
    ensures !HandleLogin(HandleClose(s, defaultTab), d, serviceError).called
    ensures HandleBasicSignup(HandleClose(s, defaultTab), sd).signupStep == 1
    ensures !HandleFullSignup(HandleClose(s, defaultTab), sd, phoneValid, serviceError).called
  {
  }
}
