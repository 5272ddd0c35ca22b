/** The notification sender's local side: the bounded log of email attempts kept in device
    storage under `@email_logs`, and the four `send*` calls, whose network outcome is a parameter
    here. A send never fails its caller: it logs `<type>` or `<type>_failed` and returns a flag. */
module EmailService {
  import opened Wrappers

  /** How many entries the log keeps. */
  const MaxLogs: nat := 50

  /** The data attached to an order email: the order details, and for a failure the reason. */
  datatype EmailData = OrderDetails(details: string) | OrderFailure(details: string, reason: Option<string>)

  datatype LogEntry = LogEntry(
    kind: string, to: string, username: string, data: Option<EmailData>, timestamp: string)

  /** `if (logs.length > 50) logs.splice(0, logs.length - 50)`: keep the newest entries. */
  function KeepNewest(logs: seq<LogEntry>): (r: seq<LogEntry>)
    ensures |r| == if |logs| > MaxLogs then MaxLogs else |logs|
    ensures r == logs[|logs| - |r|..]
  {
    if |logs| > MaxLogs then logs[|logs| - MaxLogs..] else logs
  }

  /** The log after `logEmail` appends `e` to `logs`: at most 50 entries, the newest last, the
      survivors a suffix in their original order, and nothing dropped while there was room. */
  lemma LogEmailShape(logs: seq<LogEntry>, e: LogEntry)
    ensures |KeepNewest(logs + [e])| <= MaxLogs
    ensures KeepNewest(logs + [e])[|KeepNewest(logs + [e])| - 1] == e
    ensures |logs| < MaxLogs ==> KeepNewest(logs + [e]) == logs + [e]
    ensures |logs| >= MaxLogs ==> KeepNewest(logs + [e]) == logs[|logs| - MaxLogs + 1..] + [e]
  {
    if |logs| >= MaxLogs {
      assert (logs + [e])[|logs| + 1 - MaxLogs..] == logs[|logs| - MaxLogs + 1..] + [e];
    }
  }

  /** The log obtained by logging the entries of `history` one after the other, starting from
      an empty log. */
  function Replay(history: seq<LogEntry>): (r: seq<LogEntry>)
    ensures |r| == if |history| > MaxLogs then MaxLogs else |history|
    ensures history != [] ==> r[|r| - 1] == history[|history| - 1]
  {
    if history == [] then []
    else KeepNewest(Replay(history[..|history| - 1]) + [history[|history| - 1]])
  }

  /** Truncating before or after an append gives the same log. */
  lemma TruncateThenAppend(h: seq<LogEntry>, e: LogEntry)
    ensures KeepNewest(KeepNewest(h) + [e]) == KeepNewest(h + [e])
  {
    if |h| > MaxLogs {
      var t := h[|h| - MaxLogs..];
      assert KeepNewest(t + [e]) == (t + [e])[1..];
      assert (t + [e])[1..] == h[|h| - MaxLogs + 1..] + [e];
      assert (h + [e])[|h| + 1 - MaxLogs..] == h[|h| - MaxLogs + 1..] + [e];
    }
  }

  /** Whatever was logged, the log holds exactly the newest 50 (or fewer) entries of the whole
      history, in the order they were logged. */
  lemma {:induction false} ReplayKeepsNewest(history: seq<LogEntry>)
    ensures Replay(history) == KeepNewest(history)
  {
    if history != [] {
      var init, last := history[..|history| - 1], history[|history| - 1];
      assert init + [last] == history;
      calc {
        Replay(history);
        KeepNewest(Replay(init) + [last]);
        { ReplayKeepsNewest(init); }
        KeepNewest(KeepNewest(init) + [last]);
        { TruncateThenAppend(init, last); }
        KeepNewest(history);
      }
    }
  }

  /** The email service with its log. */
  class Mailer {
    /** the content of `@email_logs`; None when the key is absent */
    var stored: Option<seq<LogEntry>>

    /** Every log this service writes keeps at most 50 entries. */
    predicate Valid()
      reads this
    {
      stored.None? || |stored.value| <= MaxLogs
    }

    constructor ()
      ensures stored == None && GetEmailLogs() == [] && Valid()
    {
      stored := None;
    }

    /** `getEmailLogs`: the stored log, or [] when nothing is stored; never more than 50 entries
        in a log this service wrote. */
    function GetEmailLogs(): (logs: seq<LogEntry>)
      reads this
      ensures stored.None? ==> logs == []
      ensures stored.Some? ==> logs == stored.value
      ensures Valid() ==> |logs| <= MaxLogs
    {
      if stored.Some? then stored.value else []
    }

    /** `logEmail`: read the log, push the entry, keep the newest 50, write it back. */
    method LogEmail(kind: string, to: string, username: string, data: Option<EmailData>, timestamp: string)
      modifies this
      ensures stored == Some(KeepNewest(old(GetEmailLogs()) + [LogEntry(kind, to, username, data, timestamp)]))
      ensures Valid()
    {
      var logs := if stored.Some? then stored.value else [];
      logs := logs + [LogEntry(kind, to, username, data, timestamp)];
      if |logs| > MaxLogs {
        logs := logs[|logs| - MaxLogs..];
      }
      stored := Some(logs);
    }

    /** `clearLogs`: remove the stored log. */
    method ClearLogs()
      modifies this
      ensures stored == None && GetEmailLogs() == [] && Valid()
    {
      stored := None;
    }

    /** The shared shape of the four `send*` calls: `delivered` is whether the relay answered
        with success in time. Success logs `kind` and returns true; any failure logs
        `failedKind` and returns false instead of throwing. */
    method Send(kind: string, failedKind: string, to: string, username: string,
                data: Option<EmailData>, delivered: bool, timestamp: string) returns (ok: bool)
      modifies this
      ensures ok == delivered && Valid()
      ensures stored == Some(KeepNewest(old(GetEmailLogs()) +
        [LogEntry(if delivered then kind else failedKind, to, username, data, timestamp)]))
    {
      if delivered {
        LogEmail(kind, to, username, data, timestamp);
        ok := true;
      } else {
        LogEmail(failedKind, to, username, data, timestamp);
        ok := false;
      }
    }

    /** `sendRegistrationEmail` */
    method SendRegistrationEmail(email: string, username: string, delivered: bool, timestamp: string)
      returns (ok: bool)
      modifies this
      ensures ok == delivered && Valid()
      ensures stored == Some(KeepNewest(old(GetEmailLogs()) +
        [LogEntry(if delivered then "registration" else "registration_failed", email, username, None, timestamp)]))
    {
      ok := Send("registration", "registration_failed", email, username, None, delivered, timestamp);
    }

    /** `sendLoginEmail` */
    method SendLoginEmail(email: string, username: string, delivered: bool, timestamp: string)
      returns (ok: bool)
      modifies this
      ensures ok == delivered && Valid()
      ensures stored == Some(KeepNewest(old(GetEmailLogs()) +
        [LogEntry(if delivered then "login" else "login_failed", email, username, None, timestamp)]))
    {
      ok := Send("login", "login_failed", email, username, None, delivered, timestamp);
    }

    /** `sendOrderSuccessEmail` */
    method SendOrderSuccessEmail(email: string, details: string, username: string, delivered: bool,
                                 timestamp: string) returns (ok: bool)
      modifies this
      ensures ok == delivered && Valid()
      ensures stored == Some(KeepNewest(old(GetEmailLogs()) +
        [LogEntry(if delivered then "order_success" else "order_success_failed", email, username,
                  Some(OrderDetails(details)), timestamp)]))
    {
      ok := Send("order_success", "order_success_failed", email, username, Some(OrderDetails(details)), delivered, timestamp);
    }

    /** `sendOrderFailureEmail`; the log keeps the reason as given, even when it is missing. */
    method SendOrderFailureEmail(email: string, details: string, username: string, reason: Option<string>,
                                 delivered: bool, timestamp: string) returns (ok: bool)
      modifies this
      ensures ok == delivered && Valid()
      ensures stored == Some(KeepNewest(old(GetEmailLogs()) +
        [LogEntry(if delivered then "order_failure" else "order_failure_failed", email, username,
                  Some(OrderFailure(details, reason)), timestamp)]))
    {
      ok := Send("order_failure", "order_failure_failed", email, username, Some(OrderFailure(details, reason)), delivered, timestamp);
    }
  }
}
