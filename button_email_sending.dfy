// The email-change button of
// src/components/AccountSetting/ButtonEmailSending.tsx: disabled while the
// field is empty; on press it sets the email language to Japanese, asks for
// a verification of the new address, and maps failures to messages.

module ButtonEmailSending {
  import opened Types
  import opened Firebase

  const LanguageCode: string := "ja"
  const InvalidNewEmail: string := "auth/invalid-new-email"
  const InvalidEmailTitle: string := "無効なメールアドレスが入力されました"

  /** The button's `disabled` and its opacity. */
  predicate Disabled(emailInput: string)
  {
    |emailInput| == 0
  }

  function Opacity(emailInput: string): real
  {
    if |emailInput| == 0 then 0.7 else 1.0
  }

  /** The button is disabled, and dimmed, exactly when the field is empty. */
  lemma ButtonStyle(emailInput: string)
    ensures Disabled(emailInput) <==> emailInput == ""
    ensures Disabled(emailInput) <==> Opacity(emailInput) == 0.7
    ensures !Disabled(emailInput) <==> Opacity(emailInput) == 1.0
  {
  }

  /** The alert for a rejected request: the two known codes get their own
      message, anything else its raw message. */
  function EmailErrorAlert(e: Error): (alert: Effect)
    ensures alert.Alert? && alert.message == ""
    ensures e == FirebaseError(InvalidNewEmail, e.message) ==> alert.title == InvalidEmailTitle
    ensures e == FirebaseError(RequiresRecentLogin, e.message) ==> alert.title == ReLoginTitle
    ensures !(e.FirebaseError? && e.code in {InvalidNewEmail, RequiresRecentLogin}) ==> alert.title == e.message
  {
    if e.FirebaseError? && e.code == InvalidNewEmail then Alert(InvalidEmailTitle, "")
    else if e.FirebaseError? && e.code == RequiresRecentLogin then Alert(ReLoginTitle, "")
    else Alert(e.message, "")
  }

  /** `handleEmailSending(email)`: nothing without a user or with an empty
      address; otherwise set the language code, then request the
      verification, and show the dialog only when it succeeds. */
  method HandleEmailSending(user: Option<CurrentUser>, email: string, requested: Outcome) returns (log: seq<Effect>)
    ensures user.None? || email == "" ==> log == []
    ensures user.Some? && email != "" ==>
              |log| == 3 && log[0] == SetLanguageCode(LanguageCode) && log[1] == VerifyBeforeUpdateEmail(email)
    ensures ShowDialog in log <==> user.Some? && email != "" && requested.Ok?
    ensures user.Some? && email != "" && requested.Err? ==> log[2] == EmailErrorAlert(requested.error)
  {
    log := [];
    if user.None? || email == "" {
      return;
    }
    log := log + [SetLanguageCode(LanguageCode)];
    log := log + [VerifyBeforeUpdateEmail(email)];
    if requested.Ok? {
      log := log + [ShowDialog];
    } else {
      log := log + [EmailErrorAlert(requested.error)];
    }
  }
}
