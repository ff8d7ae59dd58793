# ImpulseBuyStop — a verified model of the client's decision rules

ImpulseBuyStop is a React Native shopping-list client over Firebase. It keeps
"things I nearly bought" per user, ordered by update time or by a priority
chosen from a server-side catalog, and it has a read-only trial mode over a
fixed sample account (`sample9999`). Persistence, live queries and
authentication belong to Firebase. What the client decides for itself is
modelled here, in Dafny:

- **Priority catalog** (`PriorityUtils`):
  - the enabled-entry filter and projection;
  - the catalog fetch handler;
  - the code-to-name lookup.
- **List screen** (`List`):
  - the reducer and its initial state;
  - the loading / no-data / list classification and the "add" guard;
  - the choice of collection (the user's own or the sample data);
  - the snapshot-to-record loop;
  - the effect that (re)opens the live query whenever the catalog or the sort changes.
- **Sort-key codec** (`SortKey`):
  - a `(SortType, OrderByDirection)` pair written as `"<type>:<order>"` and read back with JavaScript's `split(":")`;
  - the four-entry `SORT_OPTIONS` table.
- **The three sort pickers** (`ListSort`, `ListSortAndroid`, `ListSortIos`): each stores the chosen key and hands the parsed pair to the list's setters. On iOS an action-sheet index is mapped to a key, and index 0 means cancel.
- **Unsubscribe registry** (`UnsubscribeContext`):
  - a provider with one nullable slot for the live query's teardown;
  - its React state setter;
  - the hook that throws outside a provider.
- **Delete button of a list row** (`BuyListItem`):
  - its guard, confirm and delete sequence;
  - the row's render guard.
- **Sign-up screen** (`SignUp`): the reducer, the submit-enable rule, and the submit handler's decision tree.
- **Account-setting buttons**:
  - `ButtonPasswordSending`: the password button's validation and error-to-message mapping;
  - `ButtonEmailSending`: the email button's guard and error-to-message mapping.

## How backend calls and effects are modelled

Backend calls are abstracted as follows:

- **Calls become parameters.** Every call into Firebase is replaced by its outcome, passed in as a parameter. The `Firebase` module defines these outcomes:
  - `Outcome`: `Ok`, or `Err` carrying an `Error`.
  - `Fetch<T>`: a fetched value, or the failure.
  - `SignUpResult`: a user credential, no credential, or a thrown error.
- **Errors.** An `Error` is one of two kinds:
  - a `FirebaseError(code, message)`;
  - any other thrown value, with its `message` and the text `String(error)` shows.
- **Handlers return an effect log.** A handler is a method that returns the ordered log of what it does (`seq<Effect>`): backend requests, alerts, navigation, dialogs.
  - Its contract states the order and the branches.
  - An alert given only a title has the message `""`.

Other conventions:

- **Screen state.** Reducers are pure functions. React's `useReducer` and `useState` state that changes over time is held in classes:
  - `List.ListScreen` for the list screen;
  - `UnsubscribeContext.UnsubscribeProvider` for the registry;
  - one class per sort picker.
- **Teardowns.** A teardown function returned by `onSnapshot` is an opaque handle (`Teardown = nat`).
- **The registry setter.** React's setter accepts a value or an updater. `list.tsx` calls `setUnsubscribe(() => unsubscribe)`, and React treats that argument as an updater, so the slot ends up holding the teardown itself. `List.ListScreen.RunListEffect` states this.

## Model

| member | source | states |
|---|---|---|
| Types.SortTypeOf | types/list.ts:2 | a string names a SortType iff it is `updatedAt` or `priority`, and the name maps back to it |
| Types.OrderOf | types/list.ts:5 | a string names an OrderByDirection iff it is `asc` or `desc`, and the name maps back to it |
| Types.NamesRoundTrip | types/list.ts:2-8 | reading back the name of every SortType and OrderByDirection gives the same value |
| PriorityUtils.PipelineIsEnabledOnly | src/utils/priorityUtils.ts:19-24 | the map-to-null-then-filter pipeline equals the recursive "keep the enabled entries, projected to {id, name}" definition |
| PriorityUtils.EnabledOnlyAppend | src/utils/priorityUtils.ts:19-24 | filtering distributes over concatenation, so input order is kept |
| PriorityUtils.EnabledMembership | src/utils/priorityUtils.ts:19-24 | an entry is in the filtered catalog iff some input document whose `disabled` is not true projects to it |
| PriorityUtils.EnabledOnlyMembership | src/utils/priorityUtils.ts:19-24 | the same membership iff, for the recursive definition |
| PriorityUtils.EnabledLength | src/utils/priorityUtils.ts:22-24 | the filtered catalog is no longer than the input, and equally long iff every document is enabled |
| PriorityUtils.EnabledOnlyLength | src/utils/priorityUtils.ts:22-24 | the same length bound and iff, for the recursive definition |
| PriorityUtils.EnabledIdempotent | src/utils/priorityUtils.ts:22-24 | filtering an already filtered catalog again changes nothing |
| PriorityUtils.EnabledOnlyOfAsDocs | src/utils/priorityUtils.ts:22-24 | catalog entries read back as documents are all kept unchanged |
| PriorityUtils.GetPriorityType | src/utils/priorityUtils.ts:11-34 | with no user, nothing happens; on success the setter receives exactly the filtered catalog; on failure the fetch-failed alert shows the error's message, and the setter is never called |
| PriorityUtils.FindById | src/utils/priorityUtils.ts:40 | `find`: None iff no entry has the id, otherwise the first entry with that id |
| PriorityUtils.GetPriorityName | src/utils/priorityUtils.ts:37-42 | an empty catalog or no match gives `''`; otherwise the name of the first matching entry; the result is always `''` or the name of an entry with that id |
| SortKey.Split | src/app/ImpulseBuyStop/listSort.tsx:23 | `split` gives at least one piece, no piece holds the separator, and joining the pieces rebuilds the string |
| SortKey.SplitNoSeparator | src/app/ImpulseBuyStop/listSortAndroid.tsx:64 | a string without the separator splits into itself alone |
| SortKey.SplitAtSeparator | src/app/ImpulseBuyStop/listSortAndroid.tsx:64 | splitting `a + ":" + b`, where `a` holds no separator, gives `a` followed by the pieces of `b` |
| SortKey.SplitJoin | src/app/ImpulseBuyStop/listSortAndroid.tsx:64 | splitting undoes joining pieces that hold no separator |
| SortKey.ParseFormat | src/app/ImpulseBuyStop/listSortAndroid.tsx:59-64 | splitting `${type}:${order}` gives back the two names, and parsing it gives back the pair |
| SortKey.FormatParse | src/app/ImpulseBuyStop/listSortAndroid.tsx:59-64 | a key that parses to a pair starts with that pair's formatted key, followed by nothing or a further `:`; with exactly two pieces it equals the formatted key |
| SortKey.LabelOf | src/app/ImpulseBuyStop/listSortAndroid.tsx:31-36 | `SORT_OPTIONS[key]` is the caption stored with that key in the table |
| SortKey.FormattedKeyIsSortOptionKey | src/app/ImpulseBuyStop/listSortAndroid.tsx:26 | every `${SortType}:${OrderByDirection}` is one of the four `SortOptionKey`s |
| SortKey.SortOptionKeyParses | src/app/ImpulseBuyStop/listSortAndroid.tsx:64 | each of the four keys splits into a valid pair that formats back to the key |
| SortKey.SortOptionsTable | src/app/ImpulseBuyStop/listSortAndroid.tsx:26-36 | four keys, pairwise distinct, with four distinct labels; every SortType × OrderByDirection pair has its key there; every key parses and re-formats to itself |
| SortKey.KeyIndex | src/app/ImpulseBuyStop/listSortAndroid.tsx:31-36 | every pair's formatted key sits at a position in the table |
| SortKey.PriorityLabels | src/app/ImpulseBuyStop/listSortAndroid.tsx:33-34 | `priority:asc` is labelled high-first and `priority:desc` low-first; the update-time keys are newest-first and oldest-first |
| ListSort.PickerItemsMatchSortOptions | src/app/ImpulseBuyStop/listSort.tsx:36-39 | the four picker items are exactly the table's entries, in order, and every value parses to a valid pair |
| ListSort.ListSortPicker.constructor | src/app/ImpulseBuyStop/listSort.tsx:19-21 | the initial picker value is `type + ':' + order`, and it parses back to the props' pair |
| ListSort.ListSortPicker.HandlePickerChange | src/app/ImpulseBuyStop/listSort.tsx:22-27 | the picker value becomes the selection, and the two setters receive the parsed pair, which formats back to the selection |
| ListSortAndroid.PickerItemsAreEntries | src/app/ImpulseBuyStop/listSortAndroid.tsx:81-88 | the picker lists exactly the `SORT_OPTIONS` entries, with value = key and label = its caption, and every key is offered |
| ListSortAndroid.ListSortAndroidPicker.constructor | src/app/ImpulseBuyStop/listSortAndroid.tsx:59-60 | the initial key is `${type}:${order}`, and it parses back to the props' pair |
| ListSortAndroid.ListSortAndroidPicker.HandlePickerChange | src/app/ImpulseBuyStop/listSortAndroid.tsx:62-70 | `sortKey` becomes the selection, and both setters receive the parsed pair, which formats back to it |
| ListSortIos.SortLabelsTable | src/app/ImpulseBuyStop/listSortIos.tsx:30-38 | five labels, `キャンセル` at the cancel index 0, and label i+1 is the caption of the i-th key, never the cancel label |
| ListSortIos.ListSortIosPicker.constructor | src/app/ImpulseBuyStop/listSortIos.tsx:61-62 | the initial key is `${type}:${order}`, and it parses back to the props' pair |
| ListSortIos.ListSortIosPicker.DisplayedLabel | src/app/ImpulseBuyStop/listSortIos.tsx:92 | the shown label is the caption `SORT_OPTIONS` gives the current key |
| ListSortIos.ListSortIosPicker.HandlePickerChange | src/app/ImpulseBuyStop/listSortIos.tsx:64-76 | index 0 changes nothing and calls no setter; index i in 1..4 sets the key to the (i-1)-th key, passes its parsed pair to both setters, and shows label i |
| UnsubscribeContext.UnsubscribeProvider.constructor | src/app/UnsubscribeContext.tsx:22 | the slot starts null |
| UnsubscribeContext.UnsubscribeProvider.SetUnsubscribe | src/app/UnsubscribeContext.tsx:22-26 | `setUnsubscribe(null)` empties the slot and an updater is applied to the held value and its result stored; either way the old teardown is dropped without being called. A plain value can only be null, since React treats a function argument as an updater |
| UnsubscribeContext.UnsubscribeProvider.TeardownCalls | src/components/AccountSettingModal.tsx:32 | a consumer calls the held teardown exactly when there is one, at most once |
| UnsubscribeContext.UseUnsubscribe | src/app/UnsubscribeContext.tsx:12-18 | the hook throws, with its message, exactly outside a provider, and returns the provider otherwise |
| List.InitialStateIsLoadingNewestFirst | src/app/ImpulseBuyStop/list.tsx:93-98 | the screen starts loading, with an empty catalog, on `updatedAt:desc`, which is labelled newest-first |
| List.ListReduce | src/app/ImpulseBuyStop/list.tsx:101-114 | each action replaces exactly its own field and keeps the other three; an unknown action keeps the state |
| List.ListReduceCommutesAndOverwrites | src/app/ImpulseBuyStop/list.tsx:101-114 | actions on different fields commute; of two actions on the same field the later one wins |
| List.BuyList | src/app/ImpulseBuyStop/list.tsx:49-71 | spinner iff items is null, no-data message iff items is empty, the list of exactly those items otherwise |
| List.HandleAddPress | src/app/ImpulseBuyStop/list.tsx:28-42 | nothing without a user; only the trial alert in trial mode; the editor is opened iff there is a user and not trial mode |
| List.ScopePath | src/app/ImpulseBuyStop/list.tsx:154-161 | trial mode reads `buyItem/sample9999/items`, otherwise `buyItem/<uid>/items` |
| List.ScopeIsSampleIff | src/app/ImpulseBuyStop/list.tsx:154-161 | the sample collection is read iff trial mode is on or the uid is `sample9999` itself |
| List.ToItem | src/app/ImpulseBuyStop/list.tsx:177-182 | a record copies the document id, body and time, and resolves its priority code through the catalog (`''` for a missing code) |
| List.MapSnapshotAppend | src/app/ImpulseBuyStop/list.tsx:170-185 | the mapping distributes over concatenation, so the records follow snapshot order |
| List.MapSnapshotMembership | src/app/ImpulseBuyStop/list.tsx:170-185 | a record is in the list iff some document with data maps to it |
| List.MapSnapshotLength | src/app/ImpulseBuyStop/list.tsx:170-185 | the list is no longer than the snapshot, and equally long iff every document has data |
| List.EmptySnapshotShowsNoData | src/app/ImpulseBuyStop/list.tsx:170-188 | a snapshot with no document that has data shows the no-data message, not the spinner |
| List.ReadBackCreatedItem | src/app/ImpulseBuyStop/list.tsx:177-182 | a stored body, time and code read back as that body and time and the name of the first catalog entry for the code |
| List.BuildItems | src/app/ImpulseBuyStop/list.tsx:170-185 | the `forEach`/`push` loop produces exactly the snapshot mapping |
| List.ListScreen.constructor | src/app/ImpulseBuyStop/list.tsx:123 | the screen starts in the initial state with no live query |
| List.ListScreen.Dispatch | src/app/ImpulseBuyStop/list.tsx:123 | the new state is the reducer applied to the old one; the live query is untouched |
| List.ListScreen.RunListEffect | src/app/ImpulseBuyStop/list.tsx:147-209 | the previous live query is closed first; without a user nothing opens; with one the items reset to `[]`, a query opens over the scope path in the current order with the current catalog, and the registry holds its teardown |
| List.ListScreen.OnSnapshot | src/app/ImpulseBuyStop/list.tsx:168-203 | a snapshot replaces the items with its mapping through the query's catalog; a mapping error alerts and leaves the items as they were |
| List.ListScreen.OnSortSelected | src/app/ImpulseBuyStop/list.tsx:205-218 | the sort becomes the picked pair and the catalog is kept; iff the pair changed the old listener is closed and, for a user, the items reset to `[]`, a listener on the user's collection opens in the new order with the current catalog and the registry holds its teardown (without a user nothing opens and the registry is kept); otherwise nothing else changes |
| List.ListScreen.OnPickerChange | src/app/ImpulseBuyStop/list.tsx:214-218 | the picker holds the chosen key, which parses to the screen's new sort; the catalog is kept; iff the key differs from the old sort the old listener is closed and, for a user, the items reset to `[]`, a listener on the user's collection opens in the key's order and the registry holds its teardown; otherwise nothing else changes |
| List.ListScreen.OnPriorityTypesLoaded | src/app/ImpulseBuyStop/list.tsx:135-144 | the catalog is stored and the old listener is always closed; for a user the items reset to `[]`, a listener on the user's collection opens in the current order with the new catalog and the registry holds its teardown; without a user nothing opens and the registry is kept |
| SortKey.FormatInjective | src/app/ImpulseBuyStop/listSort.tsx:19 | two pairs have the same key iff they are the same pair |
| BuyListItem.HandleDeletePress | src/components/BuyListItem.tsx:48-84 | nothing without a user; only the trial alert in trial mode; a delete happens iff there is a user, not trial mode and the destructive choice; it always targets `buyItem/<uid>/items/<id>` right after the confirmation; cancel does nothing more; the final alert reports success, or failure with the message |
| BuyListItem.RendersIffDocComplete | src/components/BuyListItem.tsx:95 | a listed record is drawn iff its source document has a non-empty body and an update time |
| SignUp.SignUpReduce | src/app/auth/sign-up.tsx:73-88 | each action replaces only its own field; an unknown action keeps the state |
| SignUp.SubmitEnablement | src/app/auth/sign-up.tsx:260-261 | opacity 0.5 iff submit is disabled; submit starts disabled, is disabled once the terms are unticked, and is enabled once both fields are filled and the terms ticked |
| SignUp.CloseTermsModal | src/app/auth/sign-up.tsx:277 | closing the terms modal hides only it and leaves submit enablement alone |
| SignUp.CloseSecurityModal | src/app/auth/sign-up.tsx:284 | closing the security modal hides only it and leaves submit enablement alone |
| SignUp.HandleCaughtError | src/app/auth/sign-up.tsx:181-206 | the catch block appends, after the unchanged prior log, exactly: for e-mail already in use, the already-registered alert, or, when the current user is unverified, the re-sent verification e-mail followed by the re-sent alert and the move to log-in (or by the re-send's rejection); for another Firebase error, its message; for anything else, the generic text plus the error. A verification e-mail is sent iff the user is unverified; the only navigation is the last step, two steps after that e-mail |
| SignUp.HandleSubmitPress | src/app/auth/sign-up.tsx:169-207 | account creation comes first; on success the log is exactly creation, verification e-mail, alert, move to log-in; no credential gives exactly creation and the failure alert; a failed creation, or a failed verification e-mail after it, keeps the steps so far and then appends exactly the catch block's tail (`CatchEnds`); every navigation follows a verification e-mail |
| ButtonPasswordSending.ButtonStyle | src/components/AccountSetting/ButtonPasswordSending.tsx:27-37 | `buttonEnable` is false iff a field is empty, and `disabled` and opacity 0.7 both follow it |
| ButtonPasswordSending.PasswordErrorAlert | src/components/AccountSetting/ButtonPasswordSending.tsx:59-79 | weak password and stale login get their own messages; any other Firebase error shows its message; anything else shows the generic text plus the error |
| ButtonPasswordSending.HandlePasswordSending | src/components/AccountSetting/ButtonPasswordSending.tsx:40-81 | nothing without a user; a mismatch shows only its alert and never changes the password; the dialog is shown iff both calls succeed, after the password change and the verification email in that order; a failed change logs exactly the change and its mapped alert, and a failed e-mail exactly the change, the e-mail and its mapped alert |
| ButtonEmailSending.ButtonStyle | src/components/AccountSetting/ButtonEmailSending.tsx:52-58 | disabled, and at opacity 0.7, exactly when the field is empty |
| ButtonEmailSending.EmailErrorAlert | src/components/AccountSetting/ButtonEmailSending.tsx:29-45 | invalid address and stale login get their own messages; anything else shows its raw message |
| ButtonEmailSending.HandleEmailSending | src/components/AccountSetting/ButtonEmailSending.tsx:18-47 | nothing without a user or with an empty address; otherwise the language is set to `ja` before the verification request; the dialog is shown iff it succeeds, else the mapped alert |

## Left out

- Firebase I/O: `getDocs`, `onSnapshot`, `deleteDoc`, `setDoc` and every auth call. Only their outcomes are modelled, as parameters. No network, timing or concurrency is modelled; the listener callback is a method called with one snapshot at a time.
- Server-side ordering: the `orderBy` in list.tsx is done by the server, so the model records the order in the open query but neither sorts nor invents tie-breaks.
- Presentation: layout, styles, icons, modals, web views, picker and action-sheet rendering, and router calls beyond the route a handler navigates to.
- Date formatting: `toLocaleDateString` in the list row is locale behaviour. Timestamps are opaque integers.
- `console.error` logging in the catalog fetch.
- `ButtonCancelMembershipSending.tsx`: its audit write is not awaited, so its existence check races with the write. That is a concurrency question, not a deterministic rule. Only its "call the held teardown if there is one" step is modelled, by `TeardownCalls`.
- `AccountSettingModal.tsx`'s email handler is a near-copy of `ButtonEmailSending`'s handler plus sign-out and navigation, so it is modelled once, as `ButtonEmailSending.HandleEmailSending`.
- Older or duplicate screens are not part of this model: `sign_up.tsx`, `create.tsx`, `edit.tsx`, `detail.tsx`, `log_in.tsx`, `index.tsx`, `accountSetting.tsx` and `PriorityPicker.tsx`.
- list.tsx imports `getpriorityType`/`getpriorityName` (lowercase) and passes `getpriorityType` an object, while priorityUtils.ts exports `getPriorityType`/`getPriorityName` and takes a setter function. The utility is modelled as written, and the list screen as if it called it. The mismatch is not reconciled.
- List.ListScreen.OnSnapshot: which step of the mapping throws is not modelled. The failure arrives as a parameter, and only its effect (an alert, items kept) is stated.
- List.ListScreen.OnSnapshot: an error thrown while mapping a snapshot only raises an alert, and SET_ITEMS is skipped, so the items keep their previous value and are not reset (list.tsx:189-201).
- List.MapSnapshot: every document that has data is mapped, whatever its fields hold (list.tsx:170-185). A record with an empty body or no time is not dropped here; the row's render guard hides it (BuyListItem.tsx:95, `BuyListItem.RendersIffDocComplete`).
- SortKey.ParseKey: the source destructures `split(":")` and casts the first two pieces to the two union types without checking them. The model returns the pair whenever those two pieces are names of the types, ignoring any further pieces just as the destructuring does, and returns None otherwise, where the source would carry an invalid string on. The pickers only ever receive keys from the table, which their `requires` state.
- List.ListScreen.RunListEffect: the catalog guard `!state.priorityType` is never true, because the catalog is always an array, so the model does not branch on it.
- Firebase.ErrorMessage: `String(error)` of a non-Firebase value is represented by that error's recorded display text, not computed.
