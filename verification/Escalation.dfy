/** Escalation signals: an incremental scan of the message history behind a watermark. */
module Escalation {
  import opened Options
  import opened Policies
  import opened Content

  const MAX_TAIL: nat := 10
  const RETRY_TEXT_LIMIT: nat := 500
  const TOOL_RESULT_LIMIT: nat := 2000

  datatype ScanState = ScanState(msgCount: nat, consecFailures: int, escalatedAt: int)

  datatype Signal = NoSignal | HeaderSignal | RetryText(pattern: string) | ToolFailures(consecutive: int)

  /** The request's `messages` value: usually a list, but callers may pass anything. */
  datatype Messages = MessageList(list: seq<Message>) | NotAList

  /** What every scan state descended from a fresh pin satisfies. */
  predicate Sound(s: ScanState) {
    0 <= s.escalatedAt <= s.msgCount && 0 <= s.consecFailures
  }

  /** There is a count only if there was a message to count. */
  predicate Countable(s: ScanState) {
    s.msgCount == 0 ==> s.consecFailures == 0
  }

  // ---------------------------------------------------------------- one message

  function ToolResultBlocks(c: Content): seq<Block> {
    if c.Blocks? then ToolResultsAmong(c.blocks) else []
  }

  function ToolResultsAmong(bs: seq<Block>): (r: seq<Block>)
    ensures forall b :: b in r <==> b in bs && b.ObjectBlock? && b.kind == "tool_result"
  {
    if bs == [] then []
    else (if bs[0].ObjectBlock? && bs[0].kind == "tool_result" then [bs[0]] else []) + ToolResultsAmong(bs[1..])
  }

  predicate TextFailed(c: Content, cfg: EscalationConfig) {
    var text := Flattened(c, TOOL_RESULT_LIMIT);
    text != "" && cfg.failureMarker(text)
  }

  predicate BlockFailed(b: Block, cfg: EscalationConfig)
    requires b.ObjectBlock?
  {
    b.isError || TextFailed(b.content, cfg)
  }

  function FailureFlags(bs: seq<Block>, cfg: EscalationConfig): (r: seq<bool>)
    requires forall b :: b in bs ==> b.ObjectBlock?
    ensures |r| == |bs|
  {
    seq(|bs|, i requires 0 <= i < |bs| => BlockFailed(bs[i], cfg))
  }

  /** The failure flags of a tool turn, in either client's shape, or None for any other message. */
  function ToolResultFailures(m: Message, cfg: EscalationConfig): (r: Option<seq<bool>>)
    ensures r.Some? ==> r.value != []
  {
    if m.NotAnObject? then None
    else if m.role == "user" then
      var blocks := ToolResultBlocks(m.content);
      if blocks != [] then Some(FailureFlags(blocks, cfg)) else None
    else if m.role == "tool" then Some([TextFailed(m.content, cfg)])
    else None
  }

  predicate ToolTurn(m: Message, cfg: EscalationConfig) {
    ToolResultFailures(m, cfg).Some?
  }

  function RetryHit(m: Message, cfg: EscalationConfig): Option<string> {
    if m.Message? && m.role == "user" && !ToolTurn(m, cfg)
    then cfg.retryPattern(Flattened(m.content, RETRY_TEXT_LIMIT))
    else None
  }

  // ---------------------------------------------------------------- the batch view

  /** Every tool-result flag in a stretch of history, in order. */
  function Results(ms: seq<Message>, cfg: EscalationConfig): seq<bool> {
    if ms == [] then []
    else Results(ms[..|ms| - 1], cfg) + ToolResultFailures(ms[|ms| - 1], cfg).GetOr([])
  }

  /** The running count of consecutive failures after some results, given the count before. */
  function Streak(carry: int, flags: seq<bool>): int {
    if flags == [] then carry
    else if flags[|flags| - 1] then Streak(carry, flags[..|flags| - 1]) + 1
    else 0
  }

  function CountFailed(flags: seq<bool>): nat {
    if flags == [] then 0
    else CountFailed(flags[..|flags| - 1]) + (if flags[|flags| - 1] then 1 else 0)
  }

  /** The streak is the longest failing suffix, extended by the carried count if nothing passed. */
  lemma {:induction false} StreakIsLongestFailingSuffix(carry: int, flags: seq<bool>)
    ensures (forall b :: b in flags ==> b) ==> Streak(carry, flags) == carry + |flags|
    ensures (exists b :: b in flags && !b) ==>
              var t := Streak(carry, flags);
              0 <= t < |flags| && !flags[|flags| - 1 - t] && forall i :: |flags| - t <= i < |flags| ==> flags[i]
  {
    if flags != [] {
      var init, last := flags[..|flags| - 1], flags[|flags| - 1];
      StreakIsLongestFailingSuffix(carry, init);
      assert last in flags && forall b :: b in flags <==> b in init || b == last;
    }
  }

  lemma {:induction false} StreakAppend(carry: int, a: seq<bool>, b: seq<bool>)
    ensures Streak(carry, a + b) == Streak(Streak(carry, a), b)
    ensures CountFailed(a + b) == CountFailed(a) + CountFailed(b)
  {
    if b == [] {
      assert a + b == a;
    } else {
      assert (a + b)[..|a + b| - 1] == a + b[..|b| - 1];
      StreakAppend(carry, a, b[..|b| - 1]);
    }
  }

  lemma {:induction false} StreakBound(carry: int, flags: seq<bool>)
    ensures 0 <= carry ==> 0 <= Streak(carry, flags) <= carry + CountFailed(flags)
  {
    if flags != [] {
      StreakBound(carry, flags[..|flags| - 1]);
    }
  }

  lemma {:induction false} ResultsAppend(a: seq<Message>, b: seq<Message>, cfg: EscalationConfig)
    ensures Results(a + b, cfg) == Results(a, cfg) + Results(b, cfg)
  {
    hide ToolResultFailures;
    if b == [] {
      assert a + b == a;
    } else {
      assert (a + b)[..|a + b| - 1] == a + b[..|b| - 1];
      ResultsAppend(a, b[..|b| - 1], cfg);
    }
  }

  /** A tool turn at position i ends with the streak at or over the threshold. */
  predicate Crosses(ms: seq<Message>, start: nat, i: nat, carry: int, cfg: EscalationConfig)
    requires start <= i < |ms|
  {
    ToolTurn(ms[i], cfg) && Streak(carry, Results(ms[start..i + 1], cfg)) >= cfg.consecutiveToolFailures
  }

  predicate SomeCrossing(ms: seq<Message>, start: nat, end: nat, carry: int, cfg: EscalationConfig)
    requires end <= |ms|
  {
    exists i :: start <= i < end && Crosses(ms, start, i, carry, cfg)
  }

  // ---------------------------------------------------------------- the incremental scan

  /** The scan state a call starts from: a history shorter than the watermark resets it. */
  function Rebased(n: nat, scan: ScanState): ScanState {
    if n < scan.msgCount then ScanState(Max(0, n - MAX_TAIL), 0, 0) else scan
  }

  function WindowStart(n: nat, scan: ScanState): nat {
    Max(Rebased(n, scan).msgCount, n - MAX_TAIL)
  }

  /** The first signal raised by the tool turns of ms[start..end]. */
  function ToolSignal(ms: seq<Message>, start: nat, end: nat, carry: int, cfg: EscalationConfig): (r: Signal)
    requires start <= end <= |ms|
    ensures r.NoSignal? || r.ToolFailures?
    ensures r.ToolFailures? ==> r.consecutive >= cfg.consecutiveToolFailures
    decreases end
  {
    if end == start then NoSignal
    else
      var before := ToolSignal(ms, start, end - 1, carry, cfg);
      if before.ToolFailures? then before
      else if Crosses(ms, start, end - 1, carry, cfg)
      then ToolFailures(Streak(carry, Results(ms[start..end], cfg)))
      else NoSignal
  }

  lemma {:induction false} ToolSignalExactlyOnCrossing(ms: seq<Message>, start: nat, end: nat, carry: int,
                                                       cfg: EscalationConfig)
    requires start <= end <= |ms|
    ensures ToolSignal(ms, start, end, carry, cfg).ToolFailures? <==> SomeCrossing(ms, start, end, carry, cfg)
    decreases end
  {
    hide Results, Streak, Crosses;
    if start < end {
      ToolSignalExactlyOnCrossing(ms, start, end - 1, carry, cfg);
      var last := Crosses(ms, start, end - 1, carry, cfg);
      assert SomeCrossing(ms, start, end, carry, cfg) <==> SomeCrossing(ms, start, end - 1, carry, cfg) || last by {
        if i :| start <= i < end && Crosses(ms, start, i, carry, cfg) {
          assert i < end - 1 || last;
        }
      }
    }
  }

  /** The signal raised by ms[start..end]. Only the last message of the history can raise a retry
      signal, only past the fence of the last escalation, and a tool signal takes precedence. */
  function WindowSignal(ms: seq<Message>, start: nat, end: nat, base: ScanState, cfg: EscalationConfig): Signal
    requires start <= end <= |ms|
  {
    var tool := ToolSignal(ms, start, end, base.consecFailures, cfg);
    var hit := if start < end == |ms| && base.escalatedAt <= end - 1 then RetryHit(ms[end - 1], cfg) else None;
    if tool.NoSignal? && hit.Some? then RetryText(hit.value) else tool
  }

  /** The header-free scan of a message list. */
  function Scanned(ms: seq<Message>, scan: ScanState, cfg: EscalationConfig): (r: (Signal, ScanState)) {
    var base, start := Rebased(|ms|, scan), WindowStart(|ms|, scan);
    (WindowSignal(ms, start, |ms|, base, cfg),
     ScanState(|ms|, Streak(base.consecFailures, Results(ms[start..], cfg)), base.escalatedAt))
  }

  /** What one call of the detector returns. */
  function Detected(messages: Messages, header: bool, scan: ScanState, cfg: EscalationConfig)
    : (r: (Signal, ScanState))
  {
    if header then
      var n := if messages.MessageList? then Max(|messages.list|, scan.msgCount) else scan.msgCount;
      (HeaderSignal, ScanState(n, 0, n))
    else if messages.NotAList? then (NoSignal, scan)
    else Scanned(messages.list, scan, cfg)
  }

  /** Marks an applied escalation: the evidence so far is spent. */
  function Consume(s: ScanState, count: int): ScanState {
    ScanState(Max(s.msgCount, count), 0, Max(s.escalatedAt, count))
  }

  /** How one more message moves the running count and the signal. */
  lemma OneMoreMessage(ms: seq<Message>, start: nat, i: nat, base: ScanState, cfg: EscalationConfig)
    requires start <= i < |ms|
    ensures var failures := ToolResultFailures(ms[i], cfg);
            var consec := Streak(base.consecFailures, Results(ms[start..i], cfg));
            Streak(base.consecFailures, Results(ms[start..i + 1], cfg))
            == if failures.Some? then Streak(consec, failures.value) else consec
    ensures var after := Streak(base.consecFailures, Results(ms[start..i + 1], cfg));
            var before := WindowSignal(ms, start, i, base, cfg);
            var failing := ToolResultFailures(ms[i], cfg).Some? && after >= cfg.consecutiveToolFailures;
            var tool := if failing && before.NoSignal? then ToolFailures(after) else before;
            var hit := if i == |ms| - 1 && base.escalatedAt <= i then RetryHit(ms[i], cfg) else None;
            WindowSignal(ms, start, i + 1, base, cfg)
            == if tool.NoSignal? && hit.Some? then RetryText(hit.value) else tool
  {
    assert ms[start..i + 1][..i - start] == ms[start..i];
    var failures := ToolResultFailures(ms[i], cfg);
    var seen := Results(ms[start..i], cfg);
    assert Results(ms[start..i + 1], cfg) == seen + failures.GetOr([]);
    if failures.Some? {
      StreakAppend(base.consecFailures, seen, failures.value);
    } else {
      assert seen + failures.GetOr([]) == seen;
    }
  }

  lemma EmptyWindow(ms: seq<Message>, start: nat, base: ScanState, cfg: EscalationConfig)
    requires start <= |ms|
    ensures ms[start..|ms|] == ms[start..]
    ensures Streak(base.consecFailures, Results(ms[start..start], cfg)) == base.consecFailures
    ensures WindowSignal(ms, start, start, base, cfg) == NoSignal
  {
  }

  method CountOn(before: int, failures: seq<bool>) returns (consec: int)
    ensures consec == Streak(before, failures)
  {
    consec := before;
    var j := 0;
    while j < |failures|
      invariant 0 <= j <= |failures|
      invariant consec == Streak(before, failures[..j])
    {
      assert failures[..j + 1][..j] == failures[..j];
      consec := if failures[j] then consec + 1 else 0;
      j := j + 1;
    }
    assert failures[..j] == failures;
  }

  /** The detector's loop over the window. */
  method ScanWindow(ms: seq<Message>, start: nat, base: ScanState, cfg: EscalationConfig)
    returns (signal: Signal, next: ScanState)
    requires start <= |ms|
    ensures signal == WindowSignal(ms, start, |ms|, base, cfg)
    ensures next == ScanState(|ms|, Streak(base.consecFailures, Results(ms[start..], cfg)), base.escalatedAt)
  {
    hide Results, Streak, WindowSignal, RetryHit, ToolResultFailures;
    var n := |ms|;
    var consec := base.consecFailures;
    signal := NoSignal;
    var i := start;
    EmptyWindow(ms, start, base, cfg);
    while i < n
      invariant start <= i <= n
      invariant consec == Streak(base.consecFailures, Results(ms[start..i], cfg))
      invariant signal == WindowSignal(ms, start, i, base, cfg)
    {
      OneMoreMessage(ms, start, i, base, cfg);
      var failures := ToolResultFailures(ms[i], cfg);
      if failures.Some? {
        consec := CountOn(consec, failures.value);
        if signal.NoSignal? && consec >= cfg.consecutiveToolFailures {
          signal := ToolFailures(consec);
        }
      }
      if i == n - 1 && i >= base.escalatedAt {
        var hit := RetryHit(ms[i], cfg);
        if hit.Some? && signal.NoSignal? {
          signal := RetryText(hit.value);
        }
      }
      i := i + 1;
    }
    next := ScanState(n, consec, base.escalatedAt);
  }

  /** The detector as the router runs it: one pass over the window, counting as it goes. */
  method Detect(messages: Messages, header: bool, scan: ScanState, cfg: EscalationConfig)
    returns (signal: Signal, next: ScanState)
    ensures (signal, next) == Detected(messages, header, scan, cfg)
  {
    if header {
      var n := if messages.MessageList? then |messages.list| else scan.msgCount;
      return HeaderSignal, ScanState(Max(n, scan.msgCount), 0, Max(n, scan.msgCount));
    }
    if messages.NotAList? {
      return NoSignal, scan;
    }
    var n := |messages.list|;
    var base := scan;
    if n < base.msgCount {
      base := ScanState(Max(0, n - MAX_TAIL), 0, 0);
    }
    var start := Max(base.msgCount, n - MAX_TAIL);
    assert base == Rebased(n, scan) && start == WindowStart(n, scan);
    signal, next := ScanWindow(messages.list, start, base, cfg);
  }
}
