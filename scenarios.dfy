/**
 * Client runs of the controller, written as chains of calls whose outcomes
 * follow from the method contracts alone.
 */
module Scenarios {
  import opened Wrappers
  import opened MailTypes
  import opened Service
  import opened Toasts
  import opened NewestFirst
  import opened AppController

  function Msg(id: string, createdAt: int): Message {
    Message(id, Mailbox("sender@example.org", "Sender"), [], "subject", "intro", false, createdAt)
  }

  /** A fresh controller provisions, arms its poll, and the first inbox check finds two messages. */
  method FirstSyncScenario(a: Account)
    requires a.token != ""
  {
    var app := new Controller();
    var inbox, again := app.GetNewEmail(false, Ok(()), Ok(a));
    assert app.toasts == [Toast(CreatedText, Success)];
    assert inbox == Some(InboxCheck(0));
    var h := app.pollRef.value;
    assert app.activePolls == {h};
    again := app.CompleteCheckInbox(inbox.value, Ok([Msg("m1", 10), Msg("m2", 20)]));
    assert |app.messages| == 2;
  }

  /** Holding two messages, a poll that fetches the same two shows no toast. */
  method NoNewMailScenario(app: Controller, h: nat)
    requires app.Valid() && CanSync(app.account) && |app.messages| == 2
    requires h in app.activePolls
    modifies app
  {
    var shown := app.toasts;
    var check := app.PollTick(h);
    assert check == Some(InboxCheck(2));
    var again := app.CompleteCheckInbox(check.value, Ok([Msg("m2", 20), Msg("m1", 10)]));
    assert app.toasts == shown && |app.messages| == 2;
  }

  /** Five fetched against two held are reported as three new emails. */
  lemma ThreeNewMailText()
    ensures NewMailNotice(2, 5) == Some(Toast("You have 3 new email(s)!", Success))
  {
    assert NewMailNotice(2, 5) == Some(Toast(NewMailText(3), Success));
    assert Decimal(3) == "3";
    assert NewMailText(3) == "You have 3 new email(s)!";
  }

  /** Holding two messages, a poll that fetches five shows a toast for three. */
  method ThreeNewMailScenario(app: Controller, h: nat)
    requires app.Valid() && CanSync(app.account) && |app.messages| == 2
    requires h in app.activePolls
    modifies app
  {
    var three := Toast("You have 3 new email(s)!", Success);
    ThreeNewMailText();
    var shown := app.toasts;
    var check := app.PollTick(h);
    var five := [Msg("m1", 10), Msg("m2", 20), Msg("m3", 50), Msg("m4", 40), Msg("m5", 30)];
    assert Emitted(NewMailNotice(2, |five|)) == [three];
    var again := app.CompleteCheckInbox(check.value, Ok(five));
    assert app.toasts == shown + [three];
    assert |app.messages| == 5 && IsNewestFirst(app.messages);
  }

  /** A 401 while syncing: the session-expired toast, then the held account's deletion is issued. */
  method SessionExpiredScenario(app: Controller, a: Account)
    requires app.Valid() && app.account == Some(a) && a.token != ""
    modifies app
  {
    var before := |app.toasts|;
    var check := app.BeginCheckInbox();
    assert check == Some(InboxCheck(|app.messages|));
    var again := app.CompleteCheckInbox(check.value, Err(ApiError(Some(401), None)));
    assert again == Some(AwaitingDelete);
    assert app.toasts[before..] == [Toast(SessionExpiredText, Error)];
    assert app.effects[|app.effects| - 1] == Remote(DeleteAccount(a.id, a.token));
    assert app.activePolls == {} && app.isLoading && app.isDeleting;
  }

  /** The forced provisioning goes on: its delete fails, the new account replaces the old one. */
  method ReprovisionScenario(app: Controller, b: Account)
    requires app.Valid()
    modifies app
  {
    var before := |app.toasts|;
    var step := app.CompleteDelete(AwaitingDelete, Err(ApiError(Some(404), Some("gone"))));
    assert step == AwaitingCreate(true);
    var inbox, again := app.CompleteCreate(step, Ok(b));
    assert app.account == Some(b) && app.messages == [];
    assert app.toasts[before..] == [Toast(ReplacedText, Success)];
    assert !app.isLoading && !app.isDeleting;
    assert |app.activePolls| == 1;
  }

  /** A forced provisioning whose delete call fails still creates the account and says so. */
  method FailedDeleteScenario(a: Account, b: Account)
  {
    var app := new Controller();
    var inbox, again := app.GetNewEmail(false, Ok(()), Ok(a));
    var before := |app.effects|;
    var old_ref := app.pollRef;
    inbox, again := app.GetNewEmail(true, Err(ApiError(Some(500), Some("server error"))), Ok(b));
    assert app.effects[before] == ClearInterval(old_ref.value);
    assert app.effects[before + 1] == Remote(DeleteAccount(a.id, a.token));
    assert app.effects[before + 2] == Remote(CreateAccount);
    assert app.account == Some(b);
    assert app.toasts[|app.toasts| - 1] == Toast(ReplacedText, Success);
  }

  /**
   * A provisioning whose create call fails leaves no poll running, and the
   * poll reference still holds the cleared handle, so arming again does nothing.
   */
  method PollingStopsScenario(a: Account, b: Account)
  {
    var app := new Controller();
    var inbox, again := app.GetNewEmail(false, Ok(()), Ok(a));
    var h := app.pollRef.value;
    inbox, again := app.GetNewEmail(false, Ok(()), Err(ApiError(None, Some("network down"))));
    assert app.account == Some(a);
    assert app.activePolls == {} && app.pollRef == Some(h);
    assert app.toasts[|app.toasts| - 1] == Toast("network down", Error);
    var check := app.PollArm();
    assert check == None && app.activePolls == {};
    inbox, again := app.GetNewEmail(false, Ok(()), Ok(b));
    assert app.activePolls == {h + 1};
  }

  /** A 401 from the create call itself starts another forced provisioning, again and again. */
  method RecoveryRecursesScenario()
  {
    var app := new Controller();
    var unauthorized := ApiError(Some(401), Some("Unauthorized"));
    var inbox, again := app.GetNewEmail(false, Ok(()), Err(unauthorized));
    assert again == Some(AwaitingCreate(true));
    assert app.toasts == [Toast(SessionExpiredText, Error)];
    assert !app.isLoading && !app.isDeleting;
    inbox, again := app.CompleteCreate(again.value, Err(unauthorized));
    assert again == Some(AwaitingCreate(true));
    assert app.toasts == [Toast(SessionExpiredText, Error), Toast(SessionExpiredText, Error)];
    assert app.account == None;
  }

  /** Without an account, opening a message does nothing. */
  method OpenWithoutAccountScenario()
  {
    var app := new Controller();
    var fetch := app.BeginOpenEmail("m1");
    assert fetch == None && app.view == Home && app.effects == [];
  }

  /** A failed fetch leaves the home view and shows the fallback text. */
  method OpenFailsScenario(app: Controller, a: Account)
    requires app.Valid() && app.account == Some(a) && app.view == Home
    modifies app
  {
    var fetch := app.BeginOpenEmail("m1");
    assert app.isLoading;
    assert app.effects[|app.effects| - 1] == Remote(GetMessageById("m1", a.token));
    var again := app.CompleteOpenEmail(fetch.value, Err(ApiError(Some(404), None)));
    assert app.view == Home && app.selected == None && !app.isLoading;
    assert app.toasts[|app.toasts| - 1] == Toast(UnknownErrorText, Error);
  }

  /** A fetched message is shown; going home clears it and checks the inbox. */
  method ReadMessageScenario(app: Controller, d: MessageDetails)
    requires app.Valid() && CanSync(app.account)
    modifies app
  {
    var fetch := app.BeginOpenEmail("m1");
    var again := app.CompleteOpenEmail(fetch.value, Ok(d));
    assert app.view == Details && app.selected == Some(d);
    var check := app.GoHome();
    assert app.view == Home && app.selected == None;
    assert check == Some(InboxCheck(|app.messages|));
  }
}
