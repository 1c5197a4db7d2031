# Disposable-mailbox session and inbox controller, in Dafny

This project models the session and inbox controller of the App component
of a disposable-email client. The controller provisions a mailbox from a
remote mailbox service. It polls the mailbox for new messages and opens
single messages. When the service answers 401, it re-provisions a new
mailbox. The model is a Dafny class, `AppController.Controller`, whose
fields are the component's state:

- the held account;
- the message list;
- the selected message;
- the view (home or details);
- the loading and deleting flags;
- the poll reference, which is the interval handle kept in a ref.

Two logs sit beside these fields. `toasts` records every notification as
`(text, kind)`. `effects` records every service call and timer request in
the order issued.

The remote service is not modelled as code. Each service call is recorded in
`effects`, and the call's answer is passed to the controller as an
`Outcome` (`Ok(value)` or `Err(ApiError(status, message))`). Every `async`
operation is split at each `await`:

- a `Begin…` method runs up to the await and returns a value that stands for
  the suspended call;
- a `Complete…` method takes that value and the call's outcome and runs the
  rest of the operation.

So the in-between state (loading raised, poll cleared, call issued) can be
seen and stated. `GetNewEmail` chains the three steps of a provisioning for
callers that have all the answers at once.

The browser timer is modelled by `activePolls`, the intervals it still
runs, and `nextHandle`, its next handle. Handles are positive, so a held
handle is truthy, as browser interval ids are. The invariant
`Controller.Valid()` keeps three facts:

- the only interval the timer may run is the one the poll reference holds,
  so at most one recurring poll exists;
- the inbox is always newest first;
- a message is selected exactly while the details view is shown.

Every method keeps `Valid()`. Each method states its whole new state as an
update of the old one: `Now() == old(Now()).(field := …)`.

Two behaviours of the source are kept as written:

- **Polling can stop for good after a failed provisioning.**
  `BeginProvision` clears the armed interval but leaves the poll reference
  set. The polling effect re-runs only when the account changes. So when
  account creation fails, `CompleteCreate` and `GetNewEmail` end with
  `activePolls == {}` while `pollRef` is unchanged. After that, `PollArm`
  does nothing (`Scenarios.PollingStopsScenario`).
- **Recovery can recurse.** The error handler applies the 401 rule in every
  context, account creation included. On 401 it shows the session-expired
  toast and runs the synchronous part of a forced provisioning
  (`BeginProvision(true)`). It returns the suspended step as `again`. A 401
  from creation therefore yields another step to drive, and so on
  (`Scenarios.RecoveryRecursesScenario`).

Other consequences that the contracts state:

- After a 401 during provisioning or opening a message, the outer `finally`
  lowers the flags the nested provisioning has just raised. After openEmail,
  `isDeleting` stays raised. After checkInbox, which has no `finally`, both
  flags stay raised until the nested provisioning completes.
- The new-mail toast compares the fetched count with the count held when
  the check was *called*. The `InboxCheck` value carries that count.

The system's specification and its code disagree in three places. The model
follows the code:

- The specification's 401 scenario ends with the toast "New email generated!".
  The code re-provisions with `isDelete = true`, so the toast is
  "Account deleted. New email generated!".
- The specification applies the 401 rule to inbox operations only. The code
  applies it to account creation too.
- The specification says a poll is armed whenever an account is held and no
  poll is active. The code can leave polling stopped, as described above.

`scenarios.dfy` replays the described scenarios, and the two behaviours
above, as client methods. Their assertions follow from the contracts alone.

## Model

| member | source | states |
|---|---|---|
| `AppController.Controller.constructor` | App.tsx:11-20 | No account, empty inbox, nothing selected, home view, both flags down, no poll reference and no interval; the invariant holds |
| `AppController.Controller.Notify` | App.tsx:22-25 | A toast is appended to the log and nothing else changes |
| `AppController.Route` | App.tsx:29-34 | The handler recovers exactly when the status is 401; otherwise it reports the error's text |
| `AppController.ErrorText` | App.tsx:33 | The reported text is the error's message when present and non-empty, otherwise "An unknown error occurred"; never empty |
| `AppController.ErrorToast` | App.tsx:29-34 | The handler's single toast is of kind error: the session-expired text on 401, the error text otherwise |
| `AppController.Controller.HandleApiError` | App.tsx:27-35 | Exactly one error toast. On 401 that toast comes first, then a forced provisioning is begun (flags raised, poll cleared, delete or create issued) and its step returned. Otherwise nothing else changes and nothing is retried |
| `AppController.Controller.BeginProvision` | App.tsx:37-55 | Loading raised; deleting raised only when `isDelete`. The armed interval is cleared before any call, and the poll reference is kept. The first call is delete with the held account's id and token when `isDelete` and an account is held, and create otherwise |
| `AppController.Controller.CompleteDelete` | App.tsx:46-55 | Whatever the delete call returned, account creation is issued next; a failed delete changes nothing else |
| `AppController.Controller.CompleteCreate` | App.tsx:54-64 | Both flags are lowered on every path. Success: the returned account is held and the inbox emptied. Exactly one success toast is shown, then the polling effect re-runs. Failure: one error toast through the handler; account, inbox and poll reference unchanged |
| `AppController.Controller.GetNewEmail` | App.tsx:37-65 | The whole provisioning: the calls issued and their order, the new state on success, and on failure no running poll with the stale reference kept. Flags are down on every path |
| `Toasts.ProvisionNotice` | App.tsx:58 | The success toast says the old mailbox was deleted exactly when `isDelete` |
| `AppController.Controller.BeginCheckInbox` | App.tsx:67-71 | No account, or an empty token: nothing changes and no toast. Otherwise the listing is issued with the held token, and the held count is recorded |
| `AppController.Controller.CompleteCheckInbox` | App.tsx:70-78 | Success: the inbox becomes a permutation of the fetched list, newest first. The new-mail toast appears exactly when more messages were fetched than held. Failure: the error handler's outcome |
| `AppController.Controller.ReplaceInbox` | App.tsx:75 | The inbox becomes the fetched list sorted newest first, a permutation of it; nothing else changes |
| `NewestFirst.Compare` | App.tsx:75 | The comparator is negative exactly when the first message is newer, and zero exactly on equal timestamps |
| `NewestFirst.Sort` | App.tsx:75 | In place: afterwards creation times never increase, and the array holds the same messages |
| `Toasts.NewMailNotice` | App.tsx:72-73 | A toast exactly when fetched > held. It is a success toast whose text reads back as the count fetched − held, which is at least 1 and never negative |
| `Toasts.Decimal` | App.tsx:73 | The count is written as a non-empty string of digits with no leading zero |
| `Toasts.DecimalRoundTrip` | App.tsx:73 | Reading the written count back gives the count |
| `Toasts.NewMailCountOfText` | App.tsx:73 | The number in "You have N new email(s)!" reads back as N |
| `Scenarios.ThreeNewMailText` | App.tsx:72-73 | Two held and five fetched give the toast "You have 3 new email(s)!" |
| `AppController.Controller.BeginOpenEmail` | App.tsx:82-86 | No account: a no-op. Otherwise loading is raised and the message is fetched by id with the held token |
| `AppController.Controller.CompleteOpenEmail` | App.tsx:86-93 | Loading is lowered on every path. Success: the detail is selected and the details view shown. Failure: selection and view unchanged, and the handler's outcome applies |
| `AppController.Controller.GoHome` | App.tsx:96-100 | Nothing is selected and the home view is shown whatever the state before; then an inbox check begins |
| `AppController.Controller.PollTeardown` | App.tsx:118-122 | The armed interval is cleared and the poll reference reset, so no poll runs |
| `AppController.Controller.PollArm` | App.tsx:114-117 | Only with an account held and no poll reference, one inbox check begins and then one interval is armed under a fresh handle. Otherwise nothing changes |
| `AppController.Controller.RerunPollingEffect` | App.tsx:113-125 | On an account change the old interval is torn down before a new one is armed, so exactly one poll runs for the new account |
| `AppController.Controller.PollTick` | App.tsx:116 | Only an armed interval can fire, and firing runs an inbox check |
| `AppController.AtMostOnePoll` | App.tsx:113-123 | With the invariant, at most one recurring poll is active, and it is the one the poll reference holds |
| `AppController.Controller.NotifyCopied` | App.tsx:143 | The copy action shows "Copied to clipboard!" as a success toast |
| `AppController.Controller.NotifyTimerExpired` | App.tsx:144 | The mailbox timer's expiry shows its text as an error toast |

## Left out

- Rendering and screen selection (App.tsx:127-151) are not modelled; only the two toast callbacks at lines 143-144 are.
- The splash screen and its 2.5 s delay before the first provisioning (App.tsx:103-110) are left out. A client starts with `GetNewEmail(false, …)`.
- The toast's 3 s auto-dismiss (App.tsx:24) is left out, because it is a wall-clock timer. Toasts are an append-only log; the one on screen is the last entry.
- The 10 s poll period is left out. A poll firing is the `PollTick` step, allowed only while its interval is armed.
- The mailbox service client is not part of this model. Its calls are recorded in `effects` and their answers are passed in as `Outcome` values.
- Date parsing of `createdAt` (App.tsx:75) is left out; `createdAt` is an integer timestamp.
- React's stale closures are not modelled. Each operation reads the controller's state when it runs, and a suspended operation keeps only what its step value carries (`isDelete`, the held count).
- Races between an in-flight operation and user actions are left open. Completions may come in any order, with last write wins, but no interleaving property is stated.
- Console logging (App.tsx:28, 50) and the `context` argument of the error handler are left out, because they only feed the log.
- The `Domain` record (types.ts:2-9) is left out, because the controller never uses it.
- NewestFirst.Sort: does not state that messages with equal timestamps keep their fetched order, because the source relies on the engine's stable sort without stating it.
