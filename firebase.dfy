// The backend as the handlers see it: the signed-in user, the outcome of each
// awaited call, and the observable steps a handler takes (backend requests,
// alerts, navigation, dialogs), which the handlers return as an ordered log.

module Firebase {
  import opened Types

  /** A thrown value: a FirebaseError with its code and message, or anything
      else, with its `message` and what `String(error)` shows. */
  datatype Error =
    | FirebaseError(code: string, message: string)
    | OtherError(message: string, display: string)

  /** The outcome of one awaited backend call. */
  datatype Outcome = Ok | Err(error: Error)

  /** The outcome of one awaited backend read. */
  datatype Fetch<+T> = Fetched(value: T) | FetchFailed(error: Error)

  /** `auth.currentUser` when someone is signed in. */
  datatype CurrentUser = CurrentUser(uid: string, emailVerified: bool)

  /** One observable step of a handler, in the order it happens. */
  datatype Effect =
    | Alert(title: string, message: string)        // Alert.alert(title[, message]); "" when absent
    | Navigate(route: string)                      // router.push / router.replace
    | ShowDialog                                   // setDialogVisible(true)
    | QueryPriorityTypes                           // getDocs on priorityType where disabled == false
    | SetPriorityTypes(types: seq<PriorityType>)   // the setter passed to getPriorityType
    | CreateUser(email: string, password: string)  // createUserWithEmailAndPassword
    | SendEmailVerification                        // sendEmailVerification(user)
    | UpdatePassword(password: string)             // updatePassword(user, password)
    | SetLanguageCode(code: string)                // auth.languageCode = code
    | VerifyBeforeUpdateEmail(email: string)       // verifyBeforeUpdateEmail(user, email)
    | ConfirmDelete                                // the two-button delete confirmation
    | DeleteDoc(path: string)                      // deleteDoc(doc(db, path))
    | Rejected(error: Error)                       // the handler's promise rejects with error

  /** The second line of the trial-mode alerts. */
  const ChooseCancelMessage: string := "キャンセルを選択して下さい"
  /** The alert title for a caught error that is not a FirebaseError; the
      error's text follows it. */
  const UnexpectedErrorPrefix: string := "予期せぬエラーが発生しました\n"
  /** The error code for a sensitive change after a long time signed in,
      and the alert the account-setting buttons show for it. */
  const RequiresRecentLogin: string := "auth/requires-recent-login"
  const ReLoginTitle: string := "長期間ログインされていない為、再ログイン後に操作を行って下さい。"

  /** What the screens show for a caught error:
      `error instanceof FirebaseError ? error.message : String(error)`. */
  function ErrorMessage(e: Error): string
  {
    match e
    case FirebaseError(_, message) => message
    case OtherError(_, display) => display
  }
}
