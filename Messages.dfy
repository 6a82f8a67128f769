/** What the orchestrator sends to the UI: events (crate::sync::messages)
    and status updates, on one channel. */
module Messages {
  import opened SyncTypes
  import Decimal

  const FORGET_FAILED_PREFIX: string := "Error forgetting old torrent "
  const FORGET_FAILED_SEPARATOR: string := ": "

  /** The message of an Error event, kept as the parts it is formatted from. */
  datatype ErrorMessage =
    | Text(text: string)
    | ForgetFailed(id: nat, cause: EngineError)

  /** Something that happened, sent to the UI. */
  datatype SyncEvent =
    | TorrentAdded(id: nat)
    | Error(message: ErrorMessage)

  /** One item on the outward UI channel: an event, or a status update. */
  datatype UiItem =
    | Event(event: SyncEvent)
    | Status(status: SyncStatus)

  /** The text the UI receives: the literal, or
      `format!("Error forgetting old torrent {}: {}", id, e)`. */
  function MessageText(m: ErrorMessage): string {
    match m
    case Text(text) => text
    case ForgetFailed(id, cause) =>
      FORGET_FAILED_PREFIX + Decimal.Digits(id) + FORGET_FAILED_SEPARATOR + cause.message
  }

  /** The length of the run of digits that starts a string. */
  function DigitRun(t: string): nat {
    if |t| == 0 || !Decimal.IsDigit(t[0]) then 0 else 1 + DigitRun(t[1..])
  }

  lemma {:induction false} DigitRunBeforeSeparator(d: string, m: string)
    requires Decimal.AllDigits(d)
    ensures DigitRun(d + FORGET_FAILED_SEPARATOR + m) == |d|
  {
    if |d| > 0 {
      assert (d + FORGET_FAILED_SEPARATOR + m)[1..] == d[1..] + FORGET_FAILED_SEPARATOR + m;
      DigitRunBeforeSeparator(d[1..], m);
    }
  }

  /** A digit string followed by ": " splits in one place only. */
  lemma SplitAtSeparator(d1: string, d2: string, m1: string, m2: string)
    requires Decimal.AllDigits(d1) && Decimal.AllDigits(d2)
    requires d1 + FORGET_FAILED_SEPARATOR + m1 == d2 + FORGET_FAILED_SEPARATOR + m2
    ensures d1 == d2 && m1 == m2
  {
    var t := d1 + FORGET_FAILED_SEPARATOR + m1;
    DigitRunBeforeSeparator(d1, m1);
    DigitRunBeforeSeparator(d2, m2);
    assert |d1| == |d2|;
    assert d1 == t[..|d1|] == d2;
    assert m1 == t[|d1| + 2..] == m2;
  }

  /** The text of a forget failure names the id and the engine's error
      unambiguously: two such texts are equal only for the same id and error. */
  lemma ForgetFailedTextDeterminesParts(id1: nat, e1: EngineError, id2: nat, e2: EngineError)
    requires MessageText(ForgetFailed(id1, e1)) == MessageText(ForgetFailed(id2, e2))
    ensures id1 == id2 && e1 == e2
  {
    var p := FORGET_FAILED_PREFIX;
    var rest1 := Decimal.Digits(id1) + FORGET_FAILED_SEPARATOR + e1.message;
    var rest2 := Decimal.Digits(id2) + FORGET_FAILED_SEPARATOR + e2.message;
    assert MessageText(ForgetFailed(id1, e1)) == p + rest1;
    assert MessageText(ForgetFailed(id2, e2)) == p + rest2;
    assert rest1 == (p + rest1)[|p|..] == (p + rest2)[|p|..] == rest2;
    Decimal.DigitsWellFormed(id1);
    Decimal.DigitsWellFormed(id2);
    SplitAtSeparator(Decimal.Digits(id1), Decimal.Digits(id2), e1.message, e2.message);
    Decimal.DigitsInjective(id1, id2);
  }
}
