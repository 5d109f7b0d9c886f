/** The debug logger (src/kpf/logger.py): disabled by default, and when a
    message is rate limited it is printed at most once per interval for the
    same 50-character key. Time is an input, in integer milliseconds. */
module Logger {
  import opened Strings

  /** MESSAGE_INTERVAL, 2.0 seconds. */
  const MessageInterval := 2000

  /** Messages are grouped by their first 50 characters. */
  function MessageKey(message: string): (key: string)
    ensures |key| <= 50 && key <= message
    ensures |message| <= 50 ==> key == message
    ensures |message| > 50 ==> key == message[..50]
  {
    Take(message, 50)
  }

  /** `message_timestamps.get(key, 0)`. */
  function LastPrinted(stamps: map<string, int>, key: string): int
  {
    if key in stamps then stamps[key] else 0
  }

  predicate Suppressed(stamps: map<string, int>, message: string, now: int)
  {
    now - LastPrinted(stamps, MessageKey(message)) < MessageInterval
  }

  /** Whether one call prints, and the timestamp table after it. */
  datatype Emission = Emission(printed: bool, stamps: map<string, int>)

  function PrintEffect(enabled: bool, stamps: map<string, int>, message: string, rateLimit: bool, now: int): Emission
  {
    if !enabled then Emission(false, stamps)
    else if !rateLimit then Emission(true, stamps)
    else if Suppressed(stamps, message, now) then Emission(false, stamps)
    else Emission(true, stamps[MessageKey(message) := now])
  }

  class Debug {
    var enabled: bool
    var messageTimestamps: map<string, int>

    constructor ()
      ensures !enabled && messageTimestamps == map[]
    {
      enabled := false;
      messageTimestamps := map[];
    }

    /** `printed` stands for the line written to the console. */
    method Print(message: string, rateLimit: bool, now: int) returns (printed: bool)
      modifies this
      ensures enabled == old(enabled)
      ensures Emission(printed, messageTimestamps) ==
              PrintEffect(old(enabled), old(messageTimestamps), message, rateLimit, now)
    {
      if !enabled {
        return false;
      }
      if rateLimit {
        var messageKey := Take(message, 50);
        var lastTime := if messageKey in messageTimestamps then messageTimestamps[messageKey] else 0;
        if now - lastTime < MessageInterval {
          return false;
        }
        messageTimestamps := messageTimestamps[messageKey := now];
      }
      return true;
    }
  }

  /** A disabled logger prints nothing and records nothing; an enabled one
      prints every message that is not rate limited without recording it. */
  lemma DisabledOrUnlimited(stamps: map<string, int>, message: string, now: int)
    ensures PrintEffect(false, stamps, message, true, now) == Emission(false, stamps)
    ensures PrintEffect(false, stamps, message, false, now) == Emission(false, stamps)
    ensures PrintEffect(true, stamps, message, false, now) == Emission(true, stamps)
  {
  }

  /** A call changes at most the timestamp of its own key, and sets it to
      the current time exactly when it prints a rate-limited message. */
  lemma OnlyOwnKeyChanges(enabled: bool, stamps: map<string, int>, message: string, rateLimit: bool, now: int)
    ensures var e := PrintEffect(enabled, stamps, message, rateLimit, now);
      forall k :: k != MessageKey(message) ==> (k in e.stamps <==> k in stamps)
    ensures var e := PrintEffect(enabled, stamps, message, rateLimit, now);
      forall k :: k in stamps && k != MessageKey(message) ==> e.stamps[k] == stamps[k]
    ensures var e := PrintEffect(enabled, stamps, message, rateLimit, now);
      e.stamps != stamps ==> e.printed && rateLimit
    ensures var e := PrintEffect(enabled, stamps, message, rateLimit, now);
      e.printed && rateLimit ==> MessageKey(message) in e.stamps && e.stamps[MessageKey(message)] == now
  {
  }

  /** Two messages with the same first 50 characters share one window. */
  lemma SharedWindow(stamps: map<string, int>, m1: string, m2: string, now: int)
    requires |m1| >= 50 && |m2| >= 50 && m1[..50] == m2[..50]
    ensures Suppressed(stamps, m1, now) == Suppressed(stamps, m2, now)
  {
    assert MessageKey(m1) == m1[..50] && MessageKey(m2) == m2[..50];
  }

  /** A call to Print: its message, its rate_limit flag and the clock. */
  datatype Call = Call(message: string, rateLimit: bool, now: int)

  /** The timestamp table after the first `n` calls. */
  function StampsAfter(enabled: bool, stamps: map<string, int>, calls: seq<Call>, n: nat): map<string, int>
    requires n <= |calls|
  {
    if n == 0 then stamps
    else
      var c := calls[n - 1];
      PrintEffect(enabled, StampsAfter(enabled, stamps, calls, n - 1), c.message, c.rateLimit, c.now).stamps
  }

  /** Whether call `n` prints. */
  predicate PrintedAt(enabled: bool, stamps: map<string, int>, calls: seq<Call>, n: nat)
    requires n < |calls|
  {
    var c := calls[n];
    PrintEffect(enabled, StampsAfter(enabled, stamps, calls, n), c.message, c.rateLimit, c.now).printed
  }

  predicate ClockNeverGoesBack(calls: seq<Call>)
  {
    forall i, j :: 0 <= i < j < |calls| ==> calls[i].now <= calls[j].now
  }

  /** Once a rate-limited call prints, its key's timestamp never falls
      below that call's time while the clock does not go back. */
  lemma {:induction false} StampNeverFalls(enabled: bool, stamps: map<string, int>, calls: seq<Call>, i: nat, m: nat)
    requires i < m <= |calls| && ClockNeverGoesBack(calls)
    requires calls[i].rateLimit && PrintedAt(enabled, stamps, calls, i)
    ensures LastPrinted(StampsAfter(enabled, stamps, calls, m), MessageKey(calls[i].message)) >= calls[i].now
  {
    if m > i + 1 {
      StampNeverFalls(enabled, stamps, calls, i, m - 1);
      var c := calls[m - 1];
      OnlyOwnKeyChanges(enabled, StampsAfter(enabled, stamps, calls, m - 1), c.message, c.rateLimit, c.now);
    }
  }

  /** Rate limiting: two printed rate-limited calls with the same key are at
      least MESSAGE_INTERVAL apart, whatever was printed in between. */
  lemma RateLimitSpacing(enabled: bool, stamps: map<string, int>, calls: seq<Call>, i: nat, j: nat)
    requires i < j < |calls| && ClockNeverGoesBack(calls)
    requires calls[i].rateLimit && calls[j].rateLimit
    requires MessageKey(calls[i].message) == MessageKey(calls[j].message)
    requires PrintedAt(enabled, stamps, calls, i) && PrintedAt(enabled, stamps, calls, j)
    ensures calls[j].now - calls[i].now >= MessageInterval
  {
    StampNeverFalls(enabled, stamps, calls, i, j);
  }
}
