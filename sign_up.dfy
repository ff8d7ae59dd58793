// The sign-up screen of src/app/auth/sign-up.tsx: its reducer state, the
// rule that enables the submit button, and the submit handler's decision tree
// over the account-creation outcome.

module SignUp {
  import opened Types
  import opened Firebase

  /** SignUpState */
  datatype SignUpState = SignUpState(
    email: string,
    password: string,
    isAgreed: bool,
    isTermsModalVisible: bool,
    isSecurityModalVisible: bool)

  /** SignUpAction; the reducer's `default` branch receives any other action. */
  datatype SignUpAction =
    | SetEmail(email: string)
    | SetPassword(password: string)
    | SetIsAgreed(isAgreed: bool)
    | SetTermsModalVisible(termsVisible: bool)
    | SetSecurityModalVisible(securityVisible: bool)
    | UnknownSignUpAction(tag: string)

  const InitialState: SignUpState := SignUpState("", "", false, false, false)

  /** `signUpReducer(state, action)`: each action replaces only its own
      field; an unknown action returns the state unchanged. */
  function SignUpReduce(state: SignUpState, action: SignUpAction): (r: SignUpState)
    ensures r.email == (if action.SetEmail? then action.email else state.email)
    ensures r.password == (if action.SetPassword? then action.password else state.password)
    ensures r.isAgreed == (if action.SetIsAgreed? then action.isAgreed else state.isAgreed)
    ensures r.isTermsModalVisible == (if action.SetTermsModalVisible? then action.termsVisible else state.isTermsModalVisible)
    ensures r.isSecurityModalVisible == (if action.SetSecurityModalVisible? then action.securityVisible else state.isSecurityModalVisible)
  {
    match action
    case SetEmail(email) => state.(email := email)
    case SetPassword(password) => state.(password := password)
    case SetIsAgreed(agreed) => state.(isAgreed := agreed)
    case SetTermsModalVisible(visible) => state.(isTermsModalVisible := visible)
    case SetSecurityModalVisible(visible) => state.(isSecurityModalVisible := visible)
    case UnknownSignUpAction(_) => state
  }

  /** The submit button's `disabled`. */
  predicate SubmitDisabled(s: SignUpState)
  {
    s.email == "" || s.password == "" || !s.isAgreed
  }

  /** The submit button's opacity. */
  function SubmitOpacity(s: SignUpState): real
  {
    if s.email == "" || s.password == "" || !s.isAgreed then 0.5 else 1.0
  }

  /** The button is dimmed exactly when it is disabled; it starts disabled,
      and is enabled once both fields are filled and the terms accepted. */
  lemma SubmitEnablement(s: SignUpState, email: string, password: string)
    ensures SubmitOpacity(s) == 0.5 <==> SubmitDisabled(s)
    ensures SubmitOpacity(s) == 1.0 <==> !SubmitDisabled(s)
    ensures SubmitDisabled(InitialState)
    ensures SubmitDisabled(SignUpReduce(s, SetIsAgreed(false)))
    ensures email != "" && password != "" ==>
              !SubmitDisabled(SignUpReduce(SignUpReduce(SignUpReduce(s, SetEmail(email)), SetPassword(password)), SetIsAgreed(true)))
  {
  }

  /** The close buttons of the two modals. */
  function CloseTermsModal(s: SignUpState): (r: SignUpState)
    ensures !r.isTermsModalVisible && r == s.(isTermsModalVisible := false)
    ensures SubmitDisabled(r) == SubmitDisabled(s)
  {
    SignUpReduce(s, SetTermsModalVisible(false))
  }

  function CloseSecurityModal(s: SignUpState): (r: SignUpState)
    ensures !r.isSecurityModalVisible && r == s.(isSecurityModalVisible := false)
    ensures SubmitDisabled(r) == SubmitDisabled(s)
  {
    SignUpReduce(s, SetSecurityModalVisible(false))
  }

  const EmailAlreadyInUse: string := "auth/email-already-in-use"
  const LogInRoute: string := "/auth/log-in"
  const VerificationSentTitle: string := "確認メールを送信しました。メールを確認してください。"
  const RegistrationFailedTitle: string := "登録に失敗しました"
  const AlreadyRegisteredTitle: string := "登録済みのメールアドレスです"
  const VerificationResentTitle: string := "確認メールを再送信しました。メールを確認してください。"

  /** What `createUserWithEmailAndPassword` resolves to, or the error it throws. */
  datatype SignUpResult = UserCredential | NoUserCredential | SignUpFailed(error: Error)

  /** How the `catch` block of `handleSubmitPress` continues the log `prior`
      for the caught `error`: the already-registered alert unless the
      current user is unverified, in which case the verification email is
      re-sent and the app goes to log-in (or the re-send's failure escapes);
      any other Firebase error shows its message; anything else a generic
      text with the error. */
  predicate CatchEnds(prior: seq<Effect>, log: seq<Effect>, error: Error, current: Option<CurrentUser>, resend: Outcome)
  {
    && (error.FirebaseError? && error.code == EmailAlreadyInUse ==>
          && (current.None? ==> log == prior + [Alert(AlreadyRegisteredTitle, "")])
          && (current.Some? && current.value.emailVerified ==> log == prior + [Alert(AlreadyRegisteredTitle, "")])
          && (current.Some? && !current.value.emailVerified && resend.Ok? ==>
                log == prior + [SendEmailVerification, Alert(VerificationResentTitle, ""), Navigate(LogInRoute)])
          && (current.Some? && !current.value.emailVerified && resend.Err? ==>
                log == prior + [SendEmailVerification, Rejected(resend.error)]))
    && (error.FirebaseError? && error.code != EmailAlreadyInUse ==> log == prior + [Alert(error.message, "")])
    && (error.OtherError? ==> log == prior + [Alert(UnexpectedErrorPrefix + error.display, "")])
  }

  /** The `catch` block of `handleSubmitPress`, continuing the handler's log
      `prior`. `current` is `auth.currentUser` when the error is handled;
      `resend` is the outcome of re-sending the verification email to an
      unverified user. */
  method HandleCaughtError(prior: seq<Effect>, error: Error, current: Option<CurrentUser>, resend: Outcome)
    returns (log: seq<Effect>)
    ensures CatchEnds(prior, log, error, current, resend)
    ensures |log| > |prior| && forall k :: 0 <= k < |prior| ==> log[k] == prior[k]
    // a verification email is re-sent only to an unverified current user
    ensures SendEmailVerification in log[|prior|..] <==>
              error.FirebaseError? && error.code == EmailAlreadyInUse && current.Some? && !current.value.emailVerified
    // the only navigation it adds is its last step, two steps after a verification email
    ensures forall k :: |prior| <= k < |log| && log[k] == Navigate(LogInRoute) ==>
              k == |log| - 1 && k >= |prior| + 2 && log[k - 2] == SendEmailVerification
  {
    var tail: seq<Effect>;
    if error.OtherError? {
      tail := [Alert(UnexpectedErrorPrefix + error.display, "")];
    } else if error.code != EmailAlreadyInUse {
      tail := [Alert(error.message, "")];
    } else if current.None? || current.value.emailVerified {
      tail := [Alert(AlreadyRegisteredTitle, "")];
    } else if resend.Err? {
      tail := [SendEmailVerification, Rejected(resend.error)];
    } else {
      tail := [SendEmailVerification, Alert(VerificationResentTitle, ""), Navigate(LogInRoute)];
    }
    log := prior + tail;
    assert log[|prior|..] == tail;
  }

  /** `handleSubmitPress(email, password)`: create the account; with a
      credential send the verification email, alert and go to log-in; with
      none alert; a thrown error goes to the `catch` block, after the
      creation alone or after the creation and the first verification email. */
  method HandleSubmitPress(email: string, password: string, created: SignUpResult, verification: Outcome,
                           current: Option<CurrentUser>, resend: Outcome) returns (log: seq<Effect>)
    ensures |log| >= 2 && log[0] == CreateUser(email, password)
    // success: the verification email goes out before the alert and the navigation
    ensures created.UserCredential? && verification.Ok? ==>
              log == [CreateUser(email, password), SendEmailVerification, Alert(VerificationSentTitle, ""), Navigate(LogInRoute)]
    ensures created.NoUserCredential? ==> log == [CreateUser(email, password), Alert(RegistrationFailedTitle, "")]
    // a failed creation goes straight to the catch block
    ensures created.SignUpFailed? ==>
              CatchEnds([CreateUser(email, password)], log, created.error, current, resend)
    // a failed first verification email goes to the catch block after it
    ensures created.UserCredential? && verification.Err? ==>
              CatchEnds([CreateUser(email, password), SendEmailVerification], log, verification.error, current, resend)
    // every navigation to log-in follows a verification email and its alert
    ensures forall k :: 0 <= k < |log| && log[k] == Navigate(LogInRoute) ==>
              k == |log| - 1 && k >= 2 && log[k - 2] == SendEmailVerification
  {
    log := [CreateUser(email, password)];
    match created {
      case UserCredential =>
        log := log + [SendEmailVerification];
        if verification.Ok? {
          log := log + [Alert(VerificationSentTitle, ""), Navigate(LogInRoute)];
          return;
        }
        log := HandleCaughtError(log, verification.error, current, resend);
      case NoUserCredential =>
        log := log + [Alert(RegistrationFailedTitle, "")];
      case SignUpFailed(e) =>
        log := HandleCaughtError(log, e, current, resend);
    }
  }
}
