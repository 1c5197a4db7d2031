/**
 * The session and inbox controller of the App component: it provisions a
 * disposable mailbox, keeps its inbox in sync by polling, opens messages, and
 * recovers from an expired session by provisioning a new mailbox.
 *
 * Every awaited service call is split in two: a `Begin` method runs the code
 * up to the `await` and records the call it issues, and a `Complete` method
 * takes what the call resolved to and runs the rest. The value a `Begin`
 * returns stands for the suspended async function and carries what its
 * closure captured.
 */
module AppController {
  import opened Wrappers
  import opened MailTypes
  import opened Service
  import opened Toasts
  import opened NewestFirst

  datatype View = Home | Details

  /** What the controller asks of the outside world, in order: service calls and timer requests. */
  datatype Effect = Remote(call: Call) | SetInterval(handle: nat) | ClearInterval(handle: nat)

  /** A suspended provisioning: waiting for the delete call, or for the create call. */
  datatype ProvisionStep = AwaitingDelete | AwaitingCreate(isDelete: bool)

  /** A suspended inbox check, with the number of messages held when it was called. */
  datatype InboxCheck = InboxCheck(held: nat)

  /** A suspended message fetch. */
  datatype DetailFetch = DetailFetch(id: string)

  /** How the shared error handler reacts to a failed call. */
  datatype Recovery = Reprovision | Report(text: string)

  /** The message an error shows: its own message when that is present and non-empty, else a fallback. */
  function ErrorText(e: ApiError): (text: string)
    ensures text != ""
    ensures e.message.Some? && e.message.value != "" ==> text == e.message.value
    ensures e.message.None? || e.message.value == "" ==> text == UnknownErrorText
  {
    if e.message.Some? && e.message.value != "" then e.message.value else UnknownErrorText
  }

  /** An expired session (status 401) is recovered from; every other failure is reported. */
  function Route(e: ApiError): (r: Recovery)
    ensures r == Reprovision <==> e.status == Some(Unauthorized)
    ensures r.Report? ==> r.text == ErrorText(e)
  {
    if e.status == Some(Unauthorized) then Reprovision else Report(ErrorText(e))
  }

  /** The single toast the error handler emits for `e`. */
  function ErrorToast(e: ApiError): (t: Toast)
    ensures t.kind == Error
    ensures e.status == Some(Unauthorized) ==> t.text == SessionExpiredText
    ensures e.status != Some(Unauthorized) ==> t.text == ErrorText(e)
  {
    match Route(e)
    case Reprovision => Toast(SessionExpiredText, Error)
    case Report(text) => Toast(text, Error)
  }

  /** The handles of the live poll named by the poll reference. */
  function HandleSet(ref: Option<nat>): set<nat> {
    if ref.Some? then {ref.value} else {}
  }

  /** A poll reference holding a handle gets that handle cleared. */
  function ClearEffects(ref: Option<nat>): seq<Effect> {
    if ref.Some? then [ClearInterval(ref.value)] else []
  }

  /** An inbox check only runs with an account whose token is non-empty. */
  predicate CanSync(account: Option<Account>) {
    account.Some? && account.value.token != ""
  }

  /** The call an inbox check issues, if any. */
  function InboxEffects(account: Option<Account>): seq<Effect> {
    if CanSync(account) then [Remote(GetMessages(account.value.token))] else []
  }

  /** Where a provisioning first waits: on deleting the held account, or on creating one. */
  function FirstStep(isDelete: bool, account: Option<Account>): ProvisionStep {
    if isDelete && account.Some? then AwaitingDelete else AwaitingCreate(isDelete)
  }

  /** The first call a provisioning issues. */
  function FirstCall(isDelete: bool, account: Option<Account>): Call {
    if isDelete && account.Some? then DeleteAccount(account.value.id, account.value.token) else CreateAccount
  }

  /** Every field of the controller, as one value. */
  datatype Snapshot = Snapshot(
    account: Option<Account>,
    messages: seq<Message>,
    selected: Option<MessageDetails>,
    view: View,
    isLoading: bool,
    isDeleting: bool,
    pollRef: Option<nat>,
    activePolls: set<nat>,
    nextHandle: nat,
    toasts: seq<Toast>,
    effects: seq<Effect>)

  class Controller {
    var account: Option<Account>
    var messages: seq<Message>
    var selected: Option<MessageDetails>
    var view: View
    var isLoading: bool
    var isDeleting: bool
    /** The poll reference: the handle of the interval last armed, until it is torn down. */
    var pollRef: Option<nat>
    /** The recurring intervals the timer still runs. */
    var activePolls: set<nat>
    /** The timer's next interval handle; handles are positive, so a held one is truthy. */
    var nextHandle: nat
    /** Every toast shown, oldest first. */
    var toasts: seq<Toast>
    /** Every service call and timer request issued, oldest first. */
    var effects: seq<Effect>

    ghost function Now(): Snapshot
      reads this
    {
      Snapshot(account, messages, selected, view, isLoading, isDeleting,
               pollRef, activePolls, nextHandle, toasts, effects)
    }

    /**
     * The controller's invariant: the only interval the timer may still run is
     * the one the poll reference holds, the inbox is ordered newest first, and
     * a message is selected exactly while the details view is shown.
     */
    ghost predicate Valid()
      reads this
    {
      && nextHandle >= 1
      && (pollRef.Some? ==> 1 <= pollRef.value < nextHandle)
      && activePolls <= HandleSet(pollRef)
      && IsNewestFirst(messages)
      && (selected.Some? <==> view == Details)
    }

    /** The state before the first provisioning: no account, empty inbox, home view, no poll. */
    constructor ()
      ensures Valid()
      ensures Now() == Snapshot(None, [], None, Home, false, false, None, {}, 1, [], [])
    {
      account := None;
      messages := [];
      selected := None;
      view := Home;
      isLoading := false;
      isDeleting := false;
      pollRef := None;
      activePolls := {};
      nextHandle := 1;
      toasts := [];
      effects := [];
    }

    /** Shows a toast. */
    method Notify(t: Toast)
      requires Valid()
      modifies this
      ensures Valid()
      ensures Now() == old(Now()).(toasts := old(toasts) + [t])
    {
      toasts := toasts + [t];
    }

    /** The toast of the copy-to-clipboard action. */
    method NotifyCopied()
      requires Valid()
      modifies this
      ensures Valid()
      ensures Now() == old(Now()).(toasts := old(toasts) + [Toast(CopiedText, Success)])
    {
      Notify(Toast(CopiedText, Success));
    }

    /** The toast shown when the mailbox timer runs out. */
    method NotifyTimerExpired()
      requires Valid()
      modifies this
      ensures Valid()
      ensures Now() == old(Now()).(toasts := old(toasts) + [Toast(TimerExpiredText, Error)])
    {
      Notify(Toast(TimerExpiredText, Error));
    }

    // ---- Provisioning (getNewEmail) ----

    /**
     * Provisioning up to its first await: raises the loading flag (and the
     * deleting flag when `isDelete`), clears the armed interval without
     * resetting the poll reference, and only then issues its first call:
     * deleting the held account when `isDelete`, creating one otherwise.
     */
    method BeginProvision(isDelete: bool) returns (step: ProvisionStep)
      requires Valid()
      modifies this
      ensures Valid()
      ensures step == FirstStep(isDelete, old(account))
      ensures Now() == old(Now()).(
        isLoading := true,
        isDeleting := isDelete || old(isDeleting),
        activePolls := {},
        effects := old(effects) + ClearEffects(old(pollRef)) + [Remote(FirstCall(isDelete, old(account)))])
    {
      isLoading := true;
      if isDelete {
        isDeleting := true;
      }
      if pollRef.Some? {
        effects := effects + [ClearInterval(pollRef.value)];
        activePolls := activePolls - {pollRef.value};
      }
      if isDelete && account.Some? {
        effects := effects + [Remote(DeleteAccount(account.value.id, account.value.token))];
        step := AwaitingDelete;
      } else {
        effects := effects + [Remote(CreateAccount)];
        step := AwaitingCreate(isDelete);
      }
    }

    /**
     * The delete call has resolved. Whatever it resolved to, provisioning goes
     * on to create the new account: a failed delete changes nothing else.
     */
    method CompleteDelete(step: ProvisionStep, deleted: Outcome<()>) returns (next: ProvisionStep)
      requires Valid()
      requires step == AwaitingDelete
      modifies this
      ensures Valid()
      ensures next == AwaitingCreate(true)
      ensures Now() == old(Now()).(effects := old(effects) + [Remote(CreateAccount)])
    {
      effects := effects + [Remote(CreateAccount)];
      next := AwaitingCreate(true);
    }

    /**
     * The shared error handler. On status 401 it shows the session-expired
     * toast and starts a forced provisioning, whose suspended step it returns;
     * on any other failure it shows the error's message and nothing else.
     */
    method HandleApiError(e: ApiError) returns (again: Option<ProvisionStep>)
      requires Valid()
      modifies this
      ensures Valid()
      ensures toasts == old(toasts) + [ErrorToast(e)]
      ensures Route(e) == Reprovision ==>
        again == Some(FirstStep(true, old(account))) &&
        Now() == old(Now()).(
          toasts := toasts,
          isLoading := true,
          isDeleting := true,
          activePolls := {},
          effects := old(effects) + ClearEffects(old(pollRef)) + [Remote(FirstCall(true, old(account)))])
      ensures Route(e).Report? ==> again == None && Now() == old(Now()).(toasts := toasts)
    {
      match Route(e)
      case Reprovision =>
        Notify(Toast(SessionExpiredText, Error));
        var step := BeginProvision(true);
        again := Some(step);
      case Report(text) =>
        Notify(Toast(text, Error));
        again := None;
    }

    /**
     * The create call has resolved. On success the new account replaces the
     * held one, the inbox is emptied, the success toast is shown, and, because
     * the account changed, the polling effect re-runs. On failure the error
     * handler takes over and the account, the inbox and the poll reference are
     * left as they were. Both flags are lowered on every path.
     */
    method CompleteCreate(step: ProvisionStep, created: Outcome<Account>)
      returns (inbox: Option<InboxCheck>, again: Option<ProvisionStep>)
      requires Valid()
      requires step.AwaitingCreate?
      modifies this
      ensures Valid()
      ensures !isLoading && !isDeleting
      ensures created.Ok? ==>
        var acc := created.value;
        && again == None
        && inbox == (if CanSync(Some(acc)) then Some(InboxCheck(0)) else None)
        && Now() == old(Now()).(
             account := Some(acc),
             messages := [],
             isLoading := false,
             isDeleting := false,
             toasts := old(toasts) + [ProvisionNotice(step.isDelete)],
             pollRef := Some(old(nextHandle)),
             activePolls := {old(nextHandle)},
             nextHandle := old(nextHandle) + 1,
             effects := old(effects) + ClearEffects(old(pollRef)) + InboxEffects(Some(acc))
                        + [SetInterval(old(nextHandle))])
      ensures created.Err? ==>
        var e := created.error;
        && inbox == None
        && again == (if Route(e) == Reprovision then Some(FirstStep(true, old(account))) else None)
        && Now() == old(Now()).(
             isLoading := false,
             isDeleting := false,
             toasts := old(toasts) + [ErrorToast(e)],
             activePolls := if Route(e) == Reprovision then {} else old(activePolls),
             effects := old(effects) +
                        (if Route(e) == Reprovision
                         then ClearEffects(old(pollRef)) + [Remote(FirstCall(true, old(account)))]
                         else []))
    {
      match created {
        case Ok(acc) =>
          account := Some(acc);
          messages := [];
          Notify(ProvisionNotice(step.isDelete));
          again := None;
          isLoading := false;
          isDeleting := false;
          // the account changed, so the polling effect re-runs after the update
          inbox := RerunPollingEffect();
        case Err(e) =>
          again := HandleApiError(e);
          isLoading := false;
          isDeleting := false;
          inbox := None;
      }
    }

    /**
     * A whole provisioning with the service's answers given up front: the
     * delete call's outcome (used only when `isDelete` and an account is held)
     * and the create call's outcome.
     */
    method GetNewEmail(isDelete: bool, deleted: Outcome<()>, created: Outcome<Account>)
      returns (inbox: Option<InboxCheck>, again: Option<ProvisionStep>)
      requires Valid()
      modifies this
      ensures Valid()
      ensures !isLoading && !isDeleting
      ensures
        var calls := old(effects) + ClearEffects(old(pollRef)) +
          (if isDelete && old(account).Some?
           then [Remote(DeleteAccount(old(account).value.id, old(account).value.token)), Remote(CreateAccount)]
           else [Remote(CreateAccount)]);
        && (created.Ok? ==>
             var acc := created.value;
             && again == None
             && inbox == (if CanSync(Some(acc)) then Some(InboxCheck(0)) else None)
             && Now() == old(Now()).(
                  account := Some(acc),
                  messages := [],
                  isLoading := false,
                  isDeleting := false,
                  toasts := old(toasts) + [ProvisionNotice(isDelete)],
                  pollRef := Some(old(nextHandle)),
                  activePolls := {old(nextHandle)},
                  nextHandle := old(nextHandle) + 1,
                  effects := calls + ClearEffects(old(pollRef)) + InboxEffects(Some(acc))
                             + [SetInterval(old(nextHandle))]))
        && (created.Err? ==>
             var e := created.error;
             && inbox == None
             && again == (if Route(e) == Reprovision then Some(FirstStep(true, old(account))) else None)
             && Now() == old(Now()).(
                  isLoading := false,
                  isDeleting := false,
                  toasts := old(toasts) + [ErrorToast(e)],
                  activePolls := {},
                  effects := calls +
                             (if Route(e) == Reprovision
                              then ClearEffects(old(pollRef)) + [Remote(FirstCall(true, old(account)))]
                              else [])))
    {
      var step := BeginProvision(isDelete);
      if step == AwaitingDelete {
        step := CompleteDelete(step, deleted);
      }
      assert step == AwaitingCreate(isDelete);
      assert Now() == old(Now()).(
        isLoading := true,
        isDeleting := isDelete || old(isDeleting),
        activePolls := {},
        effects := old(effects) + ClearEffects(old(pollRef)) +
          (if isDelete && old(account).Some?
           then [Remote(DeleteAccount(old(account).value.id, old(account).value.token)), Remote(CreateAccount)]
           else [Remote(CreateAccount)]));
      inbox, again := CompleteCreate(step, created);
    }

    // ---- Inbox synchronisation (checkInbox) ----

    /**
     * An inbox check up to its await: with no account, or an account whose
     * token is empty, it does nothing; otherwise it lists the messages with the
     * held account's token.
     */
    method BeginCheckInbox() returns (check: Option<InboxCheck>)
      requires Valid()
      modifies this
      ensures Valid()
      ensures !CanSync(old(account)) ==> check == None && Now() == old(Now())
      ensures CanSync(old(account)) ==>
        && check == Some(InboxCheck(|old(messages)|))
        && Now() == old(Now()).(effects := old(effects) + [Remote(GetMessages(old(account).value.token))])
    {
      if account.None? || account.value.token == "" {
        check := None;
        return;
      }
      effects := effects + [Remote(GetMessages(account.value.token))];
      check := Some(InboxCheck(|messages|));
    }

    /**
     * The listing has resolved. On success a new-mail toast is shown exactly
     * when more messages came back than were held, and the inbox becomes the
     * fetched messages, newest first. On failure the error handler takes over.
     */
    method CompleteCheckInbox(check: InboxCheck, fetched: Outcome<seq<Message>>)
      returns (again: Option<ProvisionStep>)
      requires Valid()
      modifies this
      ensures Valid()
      ensures fetched.Ok? ==>
        && again == None
        && multiset(messages) == multiset(fetched.value)
        && IsNewestFirst(messages)
        && Now() == old(Now()).(
             messages := messages,
             toasts := old(toasts) + Emitted(NewMailNotice(check.held, |fetched.value|)))
      ensures fetched.Err? ==>
        var e := fetched.error;
        && again == (if Route(e) == Reprovision then Some(FirstStep(true, old(account))) else None)
        && Now() == old(Now()).(
             toasts := old(toasts) + [ErrorToast(e)],
             isLoading := Route(e) == Reprovision || old(isLoading),
             isDeleting := Route(e) == Reprovision || old(isDeleting),
             activePolls := if Route(e) == Reprovision then {} else old(activePolls),
             effects := old(effects) +
                        (if Route(e) == Reprovision
                         then ClearEffects(old(pollRef)) + [Remote(FirstCall(true, old(account)))]
                         else []))
    {
      match fetched
      case Ok(list) =>
        var notice := NewMailNotice(check.held, |list|);
        if notice.Some? {
          Notify(notice.value);
        }
        ReplaceInbox(list);
        again := None;
      case Err(e) =>
        again := HandleApiError(e);
    }

    /** The fetched list, sorted in place newest first, becomes the inbox. */
    method ReplaceInbox(list: seq<Message>)
      requires Valid()
      modifies this
      ensures Valid()
      ensures multiset(messages) == multiset(list) && IsNewestFirst(messages)
      ensures Now() == old(Now()).(messages := messages)
    {
      var a := new Message[|list|](i requires 0 <= i < |list| => list[i]);
      assert a[..] == list;
      Sort(a);
      messages := a[..];
    }

    // ---- Reading a message (openEmail, goHome) ----

    /**
     * Opening a message up to its await: with no account it does nothing;
     * otherwise it raises the loading flag and fetches the message with the
     * held account's token.
     */
    method BeginOpenEmail(id: string) returns (fetch: Option<DetailFetch>)
      requires Valid()
      modifies this
      ensures Valid()
      ensures old(account).None? ==> fetch == None && Now() == old(Now())
      ensures old(account).Some? ==>
        && fetch == Some(DetailFetch(id))
        && Now() == old(Now()).(
             isLoading := true,
             effects := old(effects) + [Remote(GetMessageById(id, old(account).value.token))])
    {
      if account.None? {
        fetch := None;
        return;
      }
      isLoading := true;
      effects := effects + [Remote(GetMessageById(id, account.value.token))];
      fetch := Some(DetailFetch(id));
    }

    /**
     * The fetch has resolved. On success the message is selected and the
     * details view shown; on failure the error handler takes over and the
     * selection and the view stay as they were. The loading flag is lowered
     * on every path.
     */
    method CompleteOpenEmail(fetch: DetailFetch, detail: Outcome<MessageDetails>)
      returns (again: Option<ProvisionStep>)
      requires Valid()
      modifies this
      ensures Valid()
      ensures !isLoading
      ensures detail.Ok? ==>
        again == None &&
        Now() == old(Now()).(selected := Some(detail.value), view := Details, isLoading := false)
      ensures detail.Err? ==>
        var e := detail.error;
        && again == (if Route(e) == Reprovision then Some(FirstStep(true, old(account))) else None)
        && Now() == old(Now()).(
             toasts := old(toasts) + [ErrorToast(e)],
             isLoading := false,
             isDeleting := if Route(e) == Reprovision then true else old(isDeleting),
             activePolls := if Route(e) == Reprovision then {} else old(activePolls),
             effects := old(effects) +
                        (if Route(e) == Reprovision
                         then ClearEffects(old(pollRef)) + [Remote(FirstCall(true, old(account)))]
                         else []))
    {
      match detail {
        case Ok(d) =>
          selected := Some(d);
          view := Details;
          again := None;
        case Err(e) =>
          again := HandleApiError(e);
      }
      isLoading := false;
    }

    /** Back to the inbox: nothing is selected, the home view is shown, and an inbox check starts. */
    method GoHome() returns (check: Option<InboxCheck>)
      requires Valid()
      modifies this
      ensures Valid()
      ensures selected == None && view == Home
      ensures check == (if CanSync(old(account)) then Some(InboxCheck(|old(messages)|)) else None)
      ensures Now() == old(Now()).(
        selected := None,
        view := Home,
        effects := old(effects) + InboxEffects(old(account)))
    {
      selected := None;
      view := Home;
      check := BeginCheckInbox();
    }

    // ---- Polling (the effect that depends on the account) ----

    /** The effect's cleanup: clears the armed interval and resets the poll reference. */
    method PollTeardown()
      requires Valid()
      modifies this
      ensures Valid()
      ensures pollRef == None && activePolls == {}
      ensures Now() == old(Now()).(
        pollRef := None,
        activePolls := {},
        effects := old(effects) + ClearEffects(old(pollRef)))
    {
      if pollRef.Some? {
        effects := effects + [ClearInterval(pollRef.value)];
        activePolls := activePolls - {pollRef.value};
        pollRef := None;
      }
    }

    /**
     * The effect's body: with an account held and no poll reference, it runs
     * one inbox check at once and then arms a recurring poll under a fresh
     * handle; otherwise it does nothing.
     */
    method PollArm() returns (check: Option<InboxCheck>)
      requires Valid()
      modifies this
      ensures Valid()
      ensures !(old(account).Some? && old(pollRef).None?) ==> check == None && Now() == old(Now())
      ensures old(account).Some? && old(pollRef).None? ==>
        && check == (if CanSync(old(account)) then Some(InboxCheck(|old(messages)|)) else None)
        && Now() == old(Now()).(
             pollRef := Some(old(nextHandle)),
             activePolls := {old(nextHandle)},
             nextHandle := old(nextHandle) + 1,
             effects := old(effects) + InboxEffects(old(account)) + [SetInterval(old(nextHandle))])
    {
      check := None;
      if account.Some? && pollRef.None? {
        check := BeginCheckInbox();
        var h := nextHandle;
        effects := effects + [SetInterval(h)];
        pollRef := Some(h);
        activePolls := activePolls + {h};
        nextHandle := nextHandle + 1;
      }
    }

    /** The account changed: the previous effect is cleaned up before the new one runs. */
    method RerunPollingEffect() returns (check: Option<InboxCheck>)
      requires Valid()
      modifies this
      ensures Valid()
      ensures old(account).None? ==>
        check == None &&
        Now() == old(Now()).(pollRef := None, activePolls := {}, effects := old(effects) + ClearEffects(old(pollRef)))
      ensures old(account).Some? ==>
        && check == (if CanSync(old(account)) then Some(InboxCheck(|old(messages)|)) else None)
        && Now() == old(Now()).(
             pollRef := Some(old(nextHandle)),
             activePolls := {old(nextHandle)},
             nextHandle := old(nextHandle) + 1,
             effects := old(effects) + ClearEffects(old(pollRef)) + InboxEffects(old(account))
                        + [SetInterval(old(nextHandle))])
    {
      PollTeardown();
      check := PollArm();
    }

    /** An armed interval fires: it runs an inbox check. */
    method PollTick(h: nat) returns (check: Option<InboxCheck>)
      requires Valid()
      requires h in activePolls
      modifies this
      ensures Valid()
      ensures !CanSync(old(account)) ==> check == None && Now() == old(Now())
      ensures CanSync(old(account)) ==>
        && check == Some(InboxCheck(|old(messages)|))
        && Now() == old(Now()).(effects := old(effects) + [Remote(GetMessages(old(account).value.token))])
    {
      check := BeginCheckInbox();
    }
  }

  /** The timer never runs more than one recurring poll for the controller. */
  lemma AtMostOnePoll(c: Controller)
    requires c.Valid()
    ensures |c.activePolls| <= 1
    ensures c.activePolls != {} ==> c.pollRef.Some? && c.activePolls == {c.pollRef.value}
  {
    if c.pollRef.Some? {
      var h := c.pollRef.value;
      if c.activePolls != {} {
        assert c.activePolls == {h};
      }
    } else {
      assert c.activePolls == {};
    }
  }
}
