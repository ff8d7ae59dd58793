// The password-change button of
// src/components/AccountSetting/ButtonPasswordSending.tsx: enabled once both
// fields hold text; on press it checks the two entries agree, changes the
// password, sends a verification email, and maps failures to messages.

module ButtonPasswordSending {
  import opened Types
  import opened Firebase

  /** The two password fields (EditPassWordType's `new` and `confirm`). */
  datatype PassWordInput = PassWordInput(newPassWord: string, confirm: string)

  const MismatchTitle: string := "新しいパスワードが一致しません"
  const WeakPassword: string := "auth/weak-password"
  const WeakPasswordTitle: string := "パスワードは半角英数字記号6文字以上入力して下さい。"

  /** `buttonEnable()` */
  predicate ButtonEnable(input: PassWordInput)
  {
    !(|input.confirm| == 0 || |input.newPassWord| == 0)
  }

  /** The button's `disabled` and its opacity. */
  predicate Disabled(input: PassWordInput)
  {
    !ButtonEnable(input)
  }

  function Opacity(input: PassWordInput): real
  {
    if !ButtonEnable(input) then 0.7 else 1.0
  }

  /** The button is disabled, and dimmed, exactly when a field is empty. */
  lemma ButtonStyle(input: PassWordInput)
    ensures !ButtonEnable(input) <==> input.newPassWord == "" || input.confirm == ""
    ensures Disabled(input) <==> Opacity(input) == 0.7
    ensures !Disabled(input) <==> Opacity(input) == 1.0
  {
  }

  /** The alert for a caught error: the two known codes get their own
      message, any other Firebase error its message, anything else a generic
      text with the error. */
  function PasswordErrorAlert(e: Error): (alert: Effect)
    ensures alert.Alert? && alert.message == ""
    ensures e == FirebaseError(WeakPassword, e.message) ==> alert.title == WeakPasswordTitle
    ensures e == FirebaseError(RequiresRecentLogin, e.message) ==> alert.title == ReLoginTitle
    ensures e.FirebaseError? && e.code !in {WeakPassword, RequiresRecentLogin} ==> alert.title == e.message
    ensures e.OtherError? ==> alert.title == UnexpectedErrorPrefix + e.display
  {
    match e
    case FirebaseError(code, message) =>
      if code == WeakPassword then Alert(WeakPasswordTitle, "")
      else if code == RequiresRecentLogin then Alert(ReLoginTitle, "")
      else Alert(message, "")
    case OtherError(_, display) => Alert(UnexpectedErrorPrefix + display, "")
  }

  /** `handlePasswordSending()`: nothing without a user; a mismatch alert and
      no request when the entries differ; otherwise change the password, send
      the verification email, and show the dialog only when both succeed. */
  method HandlePasswordSending(user: Option<CurrentUser>, input: PassWordInput,
                               updated: Outcome, verified: Outcome) returns (log: seq<Effect>)
    ensures user.None? ==> log == []
    ensures user.Some? && input.confirm != input.newPassWord ==> log == [Alert(MismatchTitle, "")]
    ensures forall k :: 0 <= k < |log| && log[k].UpdatePassword? ==>
              k == 0 && log[k].password == input.newPassWord && input.confirm == input.newPassWord
    ensures ShowDialog in log <==> user.Some? && input.confirm == input.newPassWord && updated.Ok? && verified.Ok?
    ensures ShowDialog in log ==> log == [UpdatePassword(input.newPassWord), SendEmailVerification, ShowDialog]
    ensures SendEmailVerification in log ==> updated.Ok?
    // a failure: the password change is always attempted first, and the mapped alert ends the log
    ensures user.Some? && input.confirm == input.newPassWord && updated.Err? ==>
              log == [UpdatePassword(input.newPassWord), PasswordErrorAlert(updated.error)]
    ensures user.Some? && input.confirm == input.newPassWord && updated.Ok? && verified.Err? ==>
              log == [UpdatePassword(input.newPassWord), SendEmailVerification, PasswordErrorAlert(verified.error)]
  {
    log := [];
    if user.None? {
      return;
    }
    if input.confirm != input.newPassWord {
      log := log + [Alert(MismatchTitle, "")];
      return;
    }
    log := log + [UpdatePassword(input.newPassWord)];
    if updated.Err? {
      log := log + [PasswordErrorAlert(updated.error)];
      return;
    }
    log := log + [SendEmailVerification];
    if verified.Err? {
      log := log + [PasswordErrorAlert(verified.error)];
      return;
    }
    log := log + [ShowDialog];
  }
}
