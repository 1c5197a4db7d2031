/**
 * The notifications ("toasts") the controller emits: their kinds, their fixed
 * texts, and the new-mail text with the count written in decimal.
 */
module Toasts {
  import opened Wrappers

  datatype ToastKind = Success | Error

  datatype Toast = Toast(text: string, kind: ToastKind)

  const CreatedText: string := "New email generated!"
  const ReplacedText: string := "Account deleted. New email generated!"
  const SessionExpiredText: string := "Session expired. Generating new email..."
  const UnknownErrorText: string := "An unknown error occurred"
  const CopiedText: string := "Copied to clipboard!"
  const TimerExpiredText: string := "Timer expired! Extend or get a new email."
  const NewMailPrefix: string := "You have "
  const NewMailSuffix: string := " new email(s)!"

  /** The success toast of a provisioning: which text tells whether the old mailbox was deleted. */
  function ProvisionNotice(isDelete: bool): (t: Toast)
    ensures t.kind == Success
    ensures t.text == ReplacedText <==> isDelete
    ensures t.text == CreatedText <==> !isDelete
  {
    Toast(if isDelete then ReplacedText else CreatedText, Success)
  }

  // Decimal rendering of a count, as a template literal prints a number.

  predicate IsDigit(c: char) {
    '0' <= c <= '9'
  }

  predicate AllDigits(s: string) {
    forall i :: 0 <= i < |s| ==> IsDigit(s[i])
  }

  function DigitChar(d: nat): (c: char)
    requires d < 10
    ensures IsDigit(c) && c as int - '0' as int == d
  {
    ('0' as int + d) as char
  }

  /** The decimal numeral of `n`: digits only, never empty, no leading zero. */
  function Decimal(n: nat): (s: string)
    ensures |s| >= 1 && AllDigits(s)
    ensures s[0] == '0' ==> n == 0 && s == "0"
    decreases n
  {
    if n < 10 then [DigitChar(n)] else Decimal(n / 10) + [DigitChar(n % 10)]
  }

  /** The number a string of decimal digits denotes. */
  function DigitsValue(s: string): nat
    requires AllDigits(s)
    decreases |s|
  {
    if s == [] then 0 else 10 * DigitsValue(s[..|s| - 1]) + (s[|s| - 1] as int - '0' as int)
  }

  /** Reading the numeral back gives the number that was written. */
  lemma {:induction false} DecimalRoundTrip(n: nat)
    ensures DigitsValue(Decimal(n)) == n
    decreases n
  {
    if n >= 10 {
      var s := Decimal(n);
      assert s[..|s| - 1] == Decimal(n / 10);
      DecimalRoundTrip(n / 10);
    }
  }

  /** The text of the new-mail toast for `n` new messages. */
  function NewMailText(n: nat): string {
    NewMailPrefix + Decimal(n) + NewMailSuffix
  }

  /** The count a new-mail text reports, or None when the text is not one. */
  function NewMailCount(text: string): Option<nat> {
    var p, q := |NewMailPrefix|, |NewMailSuffix|;
    if |text| > p + q && text[..p] == NewMailPrefix && text[|text| - q..] == NewMailSuffix
       && AllDigits(text[p..|text| - q])
    then Some(DigitsValue(text[p..|text| - q]))
    else None
  }

  /** The count can be read back from the toast text. */
  lemma NewMailCountOfText(n: nat)
    ensures NewMailCount(NewMailText(n)) == Some(n)
  {
    var t := NewMailText(n);
    var p, q := |NewMailPrefix|, |NewMailSuffix|;
    assert t[..p] == NewMailPrefix;
    assert t[|t| - q..] == NewMailSuffix;
    assert t[p..|t| - q] == Decimal(n);
    DecimalRoundTrip(n);
  }

  /**
   * The toast a successful inbox fetch emits: one exactly when more messages
   * were fetched than were held, reporting the difference.
   */
  function NewMailNotice(held: nat, fetched: nat): (t: Option<Toast>)
    ensures t.Some? <==> fetched > held
    ensures t.Some? ==> t.value.kind == Success && NewMailCount(t.value.text) == Some(fetched - held)
  {
    if fetched > held then
      NewMailCountOfText(fetched - held);
      Some(Toast(NewMailText(fetched - held), Success))
    else
      None
  }
}
