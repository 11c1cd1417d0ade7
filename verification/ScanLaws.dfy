/** What repeated detector calls on one session add up to. */
module ScanLaws {
  import opened Options
  import opened Policies
  import opened Content
  import opened Escalation

  /** Soundness is kept by every call and every consumed escalation, and it keeps the window in
      bounds and short. */
  lemma SoundnessIsKept(messages: Messages, header: bool, scan: ScanState, cfg: EscalationConfig, count: nat)
    requires Sound(scan)
    ensures Sound(Detected(messages, header, scan, cfg).1)
    ensures Sound(Consume(scan, count))
    ensures messages.MessageList? ==>
              var n := |messages.list|;
              0 <= WindowStart(n, scan) <= n && n - WindowStart(n, scan) <= MAX_TAIL
  {
    if messages.MessageList? && !header {
      var n := |messages.list|;
      StreakBound(Rebased(n, scan).consecFailures, Results(messages.list[WindowStart(n, scan)..], cfg));
    }
  }

  lemma CountabilityIsKept(messages: Messages, header: bool, scan: ScanState, cfg: EscalationConfig, count: nat)
    requires Countable(scan)
    ensures Countable(Detected(messages, header, scan, cfg).1) && Countable(Consume(scan, count))
  {
    if messages.MessageList? && messages.list == [] {
      assert messages.list[WindowStart(0, scan)..] == [];
    }
  }

  /** A call looks at the messages past the watermark, but only at the last ten; after a shrink, at the
      last ten. A value that is no list is not looked at: it moves no watermark. */
  lemma WhatIsScanned(i: nat, n: nat, scan: ScanState, cfg: EscalationConfig)
    ensures InWindow(i, n, scan) <==> i < n && n - i <= 10 && (scan.msgCount <= n ==> scan.msgCount <= i)
    ensures Detected(NotAList, false, scan, cfg) == (NoSignal, scan)
    ensures Detected(NotAList, true, scan, cfg) == (HeaderSignal, ScanState(scan.msgCount, 0, scan.msgCount))
  {
  }

  /** Consuming an escalation marks everything up to the given count, and everything seen, as spent. */
  lemma WhatIsSpent(scan: ScanState, count: nat)
    ensures var spent := Consume(scan, count);
            && spent.msgCount == (if scan.msgCount <= count then count else scan.msgCount)
            && spent.escalatedAt == (if scan.escalatedAt <= count then count else scan.escalatedAt)
            && spent.consecFailures == 0
            && forall n, i :: spent.msgCount <= n && InWindow(i, n, spent) ==> scan.msgCount <= i && count <= i
  {
  }

  /** On a sound state the retry fence never decides anything: the watermark already covers it. */
  lemma FenceNeverDecides(ms: seq<Message>, scan: ScanState, cfg: EscalationConfig)
    requires Sound(scan)
    ensures Detected(MessageList(ms), false, scan, cfg).0
            == Detected(MessageList(ms), false, scan.(escalatedAt := 0), cfg).0
  {
  }

  /** On a sound state a retry signal is raised exactly when the history has new messages, the last
      one is a plain user message hitting a retry pattern, and no tool turn among those scanned
      crossed the threshold first. */
  lemma RetryFiresExactly(ms: seq<Message>, scan: ScanState, cfg: EscalationConfig, pattern: string)
    requires Sound(scan)
    ensures var n := |ms|;
            Detected(MessageList(ms), false, scan, cfg).0 == RetryText(pattern)
            <==> n > 0 && n != scan.msgCount
                 && ms[n - 1].Message? && ms[n - 1].role == "user" && !ToolTurn(ms[n - 1], cfg)
                 && cfg.retryPattern(Flattened(ms[n - 1].content, RETRY_TEXT_LIMIT)) == Some(pattern)
                 && !SomeCrossing(ms, WindowStart(n, scan), n, Rebased(n, scan).consecFailures, cfg)
  {
    hide Results, Streak, Crosses, Flattened, ToolTurn;
    ToolSignalExactlyOnCrossing(ms, WindowStart(|ms|, scan), |ms|, Rebased(|ms|, scan).consecFailures, cfg);
  }

  /** A header-free call repeated on the same history finds nothing and changes nothing, also
      when an escalation was consumed in between. */
  lemma ReplayFindsNothing(ms: seq<Message>, scan: ScanState, cfg: EscalationConfig)
    ensures var next := Detected(MessageList(ms), false, scan, cfg).1;
            && Detected(MessageList(ms), false, next, cfg) == (NoSignal, next)
            && Detected(MessageList(ms), false, Consume(next, |ms|), cfg) == (NoSignal, Consume(next, |ms|))
  {
    assert ms[|ms|..] == [];
  }

  predicate InWindow(i: int, n: nat, scan: ScanState) {
    WindowStart(n, scan) <= i < n
  }

  /** A call's window reaches below the watermark it was handed exactly when its history is not empty
      and shorter than that. */
  lemma WindowGoesBackExactlyOnShrink(n: nat, scan: ScanState)
    requires Sound(scan)
    ensures (exists i :: InWindow(i, n, scan) && i < scan.msgCount) <==> 0 < n < scan.msgCount
  {
    if 0 < n < scan.msgCount {
      assert InWindow(n - 1, n, scan);
    }
  }

  /** After a shrink the outcome no longer depends on the old state, so evidence spent on an
      earlier escalation counts afresh. */
  lemma ShrinkForgets(ms: seq<Message>, scan: ScanState, other: ScanState, cfg: EscalationConfig)
    requires |ms| < scan.msgCount && |ms| < other.msgCount
    ensures Detected(MessageList(ms), false, scan, cfg) == Detected(MessageList(ms), false, other, cfg)
  {
  }

  /** What a call after a shrink fires on: whatever the last MAX_TAIL messages show on their own,
      counted from zero, no matter what was spent before. */
  lemma ShrinkFiresExactly(ms: seq<Message>, scan: ScanState, cfg: EscalationConfig)
    requires |ms| < scan.msgCount
    ensures var n := |ms|;
            var crossed := SomeCrossing(ms, Max(0, n - MAX_TAIL), n, 0, cfg);
            var signal := Detected(MessageList(ms), false, scan, cfg).0;
            && (signal.ToolFailures? <==> crossed)
            && (signal.RetryText? <==> !crossed && n > 0 && RetryHit(ms[n - 1], cfg).Some?)
            && !signal.HeaderSignal?
  {
    hide Results, Streak, Crosses, RetryHit;
    ToolSignalExactlyOnCrossing(ms, Max(0, |ms| - MAX_TAIL), |ms|, 0, cfg);
  }

  // ---------------------------------------------------------------- one failing tool turn

  /** A tool turn of n failing results. */
  function FailingTurn(n: nat): Message {
    Message("user", Blocks(FailedResults(n)))
  }

  function FailedResults(n: nat): seq<Block> {
    if n == 0 then [] else FailedResults(n - 1) + [ObjectBlock("tool_result", true, None, Other(false))]
  }

  /** An assistant's answer: no tool result, and no retry text. */
  const ANSWER := Message("assistant", Text("Done."))

  function Quiet(n: nat): seq<Message> {
    seq(n, i => ANSWER)
  }

  lemma {:induction false} FailedResultsFail(n: nat)
    ensures |FailedResults(n)| == n
    ensures forall b :: b in FailedResults(n) ==> b.ObjectBlock? && b.kind == "tool_result" && b.isError
  {
    if n > 0 {
      FailedResultsFail(n - 1);
    }
  }

  lemma {:induction false} OnlyToolResults(bs: seq<Block>)
    requires forall b :: b in bs ==> b.ObjectBlock? && b.kind == "tool_result"
    ensures ToolResultsAmong(bs) == bs
  {
    if bs != [] {
      assert bs[0] in bs;
      OnlyToolResults(bs[1..]);
    }
  }

  lemma {:induction false} AllFailing(carry: int, flags: seq<bool>)
    requires forall i :: 0 <= i < |flags| ==> flags[i]
    ensures Streak(carry, flags) == carry + |flags|
  {
    if flags != [] {
      AllFailing(carry, flags[..|flags| - 1]);
    }
  }

  lemma {:induction false} QuietResults(ms: seq<Message>, cfg: EscalationConfig)
    requires forall i :: 0 <= i < |ms| ==> ms[i] == ANSWER
    ensures Results(ms, cfg) == []
  {
    if ms != [] {
      QuietResults(ms[..|ms| - 1], cfg);
    }
  }

  lemma {:induction false} QuietToolSignal(ms: seq<Message>, start: nat, end: nat, carry: int, cfg: EscalationConfig)
    requires start <= end <= |ms| && forall i :: start <= i < end ==> ms[i] == ANSWER
    ensures ToolSignal(ms, start, end, carry, cfg) == NoSignal
    decreases end
  {
    if start < end {
      QuietToolSignal(ms, start, end - 1, carry, cfg);
    }
  }

  lemma {:induction false} ToolSignalStays(ms: seq<Message>, start: nat, mid: nat, end: nat, carry: int,
                                           cfg: EscalationConfig)
    requires start <= mid <= end <= |ms| && ToolSignal(ms, start, mid, carry, cfg).ToolFailures?
    ensures ToolSignal(ms, start, end, carry, cfg) == ToolSignal(ms, start, mid, carry, cfg)
    decreases end
  {
    hide Crosses, Results, Streak;
    if mid < end {
      ToolSignalStays(ms, start, mid, end - 1, carry, cfg);
    }
  }

  lemma FailingTurnResults(n: nat, cfg: EscalationConfig)
    requires n > 0
    ensures var failures := ToolResultFailures(FailingTurn(n), cfg);
            failures.Some? && |failures.value| == n && forall i :: 0 <= i < n ==> failures.value[i]
  {
    FailedResultsFail(n);
    var bs := FailedResults(n);
    OnlyToolResults(bs);
    forall i | 0 <= i < n ensures FailureFlags(bs, cfg)[i] {
      assert bs[i] in bs;
    }
  }

  lemma CountAtFailingTurn(ms: seq<Message>, start: nat, p: nat, n: nat, carry: int, cfg: EscalationConfig)
    requires start <= p < |ms| && n > 0 && ms[p] == FailingTurn(n)
    requires forall i :: start <= i < p ==> ms[i] == ANSWER
    ensures ToolTurn(ms[p], cfg) && Streak(carry, Results(ms[start..p + 1], cfg)) == carry + n
  {
    hide FailingTurn, ToolResultFailures, Streak;
    var quiet := ms[start..p];
    QuietResults(quiet, cfg);
    FailingTurnResults(n, cfg);
    var flags := ToolResultFailures(FailingTurn(n), cfg).value;
    assert ms[start..p + 1][..p - start] == quiet;
    assert [] + flags == flags;
    AllFailing(carry, flags);
  }

  lemma LoneFailingTurn(ms: seq<Message>, start: nat, p: nat, n: nat, carry: int, cfg: EscalationConfig)
    requires start <= p < |ms| && n > 0 && ms[p] == FailingTurn(n)
    requires forall i :: start <= i < p ==> ms[i] == ANSWER
    requires carry + n >= cfg.consecutiveToolFailures
    ensures ToolSignal(ms, start, |ms|, carry, cfg) == ToolFailures(carry + n)
  {
    hide FailingTurn, Streak, Results, ToolTurn;
    QuietToolSignal(ms, start, p, carry, cfg);
    CountAtFailingTurn(ms, start, p, n, carry, cfg);
    ToolSignalStays(ms, start, p + 1, |ms|, carry, cfg);
  }

  /** A single failing tool turn among new messages raises a tool signal if it brings the count to
      the threshold, wherever in the window it stands. */
  lemma FailingTurnFires(p: nat, n: nat, q: nat, scan: ScanState, cfg: EscalationConfig)
    requires var base := Rebased(p + 1 + q, scan);
             n > 0 && WindowStart(p + 1 + q, scan) <= p && base.consecFailures + n >= cfg.consecutiveToolFailures
    ensures Detected(MessageList(Quiet(p) + [FailingTurn(n)] + Quiet(q)), false, scan, cfg).0
            == ToolFailures(Rebased(p + 1 + q, scan).consecFailures + n)
  {
    hide FailingTurn, RetryHit, ToolSignal, Streak, Results;
    var ms := Quiet(p) + [FailingTurn(n)] + Quiet(q);
    LoneFailingTurn(ms, WindowStart(|ms|, scan), p, n, Rebased(|ms|, scan).consecFailures, cfg);
  }

  /** Spent evidence does fire again, at every threshold: a failing tool turn and one more message,
      an escalation, and then the one more message is dropped. On the unshrunk history the same
      call finds nothing. */
  lemma SpentEvidenceFiresAgain(cfg: EscalationConfig)
    ensures var n := Max(1, cfg.consecutiveToolFailures);
            var long, short := [FailingTurn(n), ANSWER], [FailingTurn(n)];
            var first := Detected(MessageList(long), false, ScanState(0, 0, 0), cfg);
            var spent := Consume(first.1, |long|);
            && first.0 == ToolFailures(n)
            && Detected(MessageList(long), false, spent, cfg).0 == NoSignal
            && Detected(MessageList(short), false, spent, cfg).0 == ToolFailures(n)
  {
    hide Detected;
    var n := Max(1, cfg.consecutiveToolFailures);
    var long := [FailingTurn(n), ANSWER];
    assert long == Quiet(0) + [FailingTurn(n)] + Quiet(1);
    assert [FailingTurn(n)] == Quiet(0) + [FailingTurn(n)] + Quiet(0);
    var scan := ScanState(0, 0, 0);
    FailingTurnFires(0, n, 1, scan, cfg);
    WatermarkIsLength(long, scan, cfg);
    ReplayFindsNothing(long, scan, cfg);
    FailingTurnFires(0, n, 0, Consume(Detected(MessageList(long), false, scan, cfg).1, 2), cfg);
  }

  /** Nor need the firing call be the one that shrinks: after an empty history the very same messages,
      grown back, raise the same signal again. */
  lemma RegrownHistoryFiresAgain(cfg: EscalationConfig)
    ensures var n := Max(1, cfg.consecutiveToolFailures);
            var long := [FailingTurn(n), ANSWER];
            var first := Detected(MessageList(long), false, ScanState(0, 0, 0), cfg);
            var (nothing, restarted) := Detected(MessageList([]), false, Consume(first.1, |long|), cfg);
            && first.0 == ToolFailures(n)
            && nothing == NoSignal && restarted.msgCount == 0
            && Detected(MessageList(long), false, restarted, cfg).0 == ToolFailures(n)
  {
    var n := Max(1, cfg.consecutiveToolFailures);
    assert [FailingTurn(n), ANSWER] == Quiet(0) + [FailingTurn(n)] + Quiet(1);
    FailingTurnFires(0, n, 1, ScanState(0, 0, 0), cfg);
  }

  lemma WatermarkIsLength(ms: seq<Message>, scan: ScanState, cfg: EscalationConfig)
    ensures Detected(MessageList(ms), false, scan, cfg).1.msgCount == |ms|
  {
  }

  // ---------------------------------------------------------------- incremental = batch

  predicate Within(cuts: seq<nat>, n: nat) {
    forall i :: 0 <= i < |cuts| ==> cuts[i] <= n
  }

  function LastCut(from: nat, cuts: seq<nat>): nat {
    if cuts == [] then from else cuts[|cuts| - 1]
  }

  /** The scan state after detector calls on growing prefixes of one history. */
  function Chained(ms: seq<Message>, cuts: seq<nat>, scan: ScanState, cfg: EscalationConfig): (r: ScanState)
    requires Sound(scan)
    requires Within(cuts, |ms|)
    ensures Sound(r)
  {
    if cuts == [] then scan
    else
      var before := Chained(ms, cuts[..|cuts| - 1], scan, cfg);
      var prefix := MessageList(ms[..cuts[|cuts| - 1]]);
      SoundnessIsKept(prefix, false, before, cfg, 0);
      Detected(prefix, false, before, cfg).1
  }

  predicate SomeCallRaised(ms: seq<Message>, cuts: seq<nat>, scan: ScanState, cfg: EscalationConfig)
    requires Sound(scan)
    requires Within(cuts, |ms|)
  {
    cuts != []
    && (SomeCallRaised(ms, cuts[..|cuts| - 1], scan, cfg)
        || Detected(MessageList(ms[..cuts[|cuts| - 1]]), false,
                    Chained(ms, cuts[..|cuts| - 1], scan, cfg), cfg).0.ToolFailures?)
  }

  /** Each cut is at most MAX_TAIL messages past the one before. */
  predicate SmallGaps(from: nat, cuts: seq<nat>) {
    cuts == []
    || (SmallGaps(from, cuts[..|cuts| - 1])
        && var previous := LastCut(from, cuts[..|cuts| - 1]);
           previous <= cuts[|cuts| - 1] <= previous + MAX_TAIL)
  }

  lemma CrossingsShift(ms: seq<Message>, start: nat, mid: nat, i: nat, end: nat, carry: int, cfg: EscalationConfig)
    requires start <= mid <= i < end <= |ms|
    ensures Crosses(ms[..end], mid, i, Streak(carry, Results(ms[start..mid], cfg)), cfg)
            <==> Crosses(ms, start, i, carry, cfg)
  {
    assert ms[start..i + 1] == ms[start..mid] + ms[mid..i + 1];
    assert ms[..end][mid..i + 1] == ms[mid..i + 1];
    ResultsAppend(ms[start..mid], ms[mid..i + 1], cfg);
    StreakAppend(carry, Results(ms[start..mid], cfg), Results(ms[mid..i + 1], cfg));
  }

  lemma CrossingsSplit(ms: seq<Message>, start: nat, mid: nat, end: nat, carry: int, cfg: EscalationConfig)
    requires start <= mid <= end <= |ms|
    ensures SomeCrossing(ms, start, end, carry, cfg)
            <==> SomeCrossing(ms, start, mid, carry, cfg)
                 || SomeCrossing(ms[..end], mid, end, Streak(carry, Results(ms[start..mid], cfg)), cfg)
  {
    var carried := Streak(carry, Results(ms[start..mid], cfg));
    if i :| start <= i < end && Crosses(ms, start, i, carry, cfg) {
      if mid <= i {
        CrossingsShift(ms, start, mid, i, end, carry, cfg);
      }
    }
    if i :| mid <= i < end && Crosses(ms[..end], mid, i, carried, cfg) {
      CrossingsShift(ms, start, mid, i, end, carry, cfg);
    }
  }

  /** One more call of a chain, expressed in batch terms: with no shrink and a small gap, the
      window is exactly the new messages. */
  lemma OneMoreCall(ms: seq<Message>, start: nat, mid: nat, end: nat, carry: int, fence: int, cfg: EscalationConfig)
    requires start <= mid <= end <= |ms| && end <= mid + MAX_TAIL
    ensures var carried := Streak(carry, Results(ms[start..mid], cfg));
            var (signal, next) := Detected(MessageList(ms[..end]), false, ScanState(mid, carried, fence), cfg);
            && next == ScanState(end, Streak(carry, Results(ms[start..end], cfg)), fence)
            && (SomeCrossing(ms, start, end, carry, cfg)
                <==> SomeCrossing(ms, start, mid, carry, cfg) || signal.ToolFailures?)
  {
    var seen := Results(ms[start..mid], cfg);
    var scan := ScanState(mid, Streak(carry, seen), fence);
    var prefix := ms[..end];
    assert Rebased(end, scan) == scan && WindowStart(end, scan) == mid;
    assert prefix[mid..] == ms[mid..end];
    assert ms[start..end] == ms[start..mid] + ms[mid..end];
    ResultsAppend(ms[start..mid], ms[mid..end], cfg);
    StreakAppend(carry, seen, Results(ms[mid..end], cfg));
    CrossingsSplit(ms, start, mid, end, carry, cfg);
    ToolSignalExactlyOnCrossing(prefix, mid, end, Streak(carry, seen), cfg);
  }

  /** The incremental scan refines the batch scan: chained calls on growing prefixes end with the
      streak of the whole stretch since the watermark, and some call raises a tool signal exactly
      when the batch scan has a tool turn ending over the threshold. */
  lemma {:induction false} IncrementalRefinesBatch(ms: seq<Message>, cuts: seq<nat>, scan: ScanState,
                                                   cfg: EscalationConfig)
    requires Sound(scan) && scan.msgCount <= |ms|
    requires Within(cuts, |ms|)
    requires SmallGaps(scan.msgCount, cuts)
    ensures scan.msgCount <= LastCut(scan.msgCount, cuts) <= |ms|
    ensures Chained(ms, cuts, scan, cfg)
            == ScanState(LastCut(scan.msgCount, cuts),
                         Streak(scan.consecFailures, Results(ms[scan.msgCount..LastCut(scan.msgCount, cuts)], cfg)),
                         scan.escalatedAt)
    ensures SomeCallRaised(ms, cuts, scan, cfg)
            <==> SomeCrossing(ms, scan.msgCount, LastCut(scan.msgCount, cuts), scan.consecFailures, cfg)
  {
    var start, carry := scan.msgCount, scan.consecFailures;
    if cuts == [] {
      assert ms[start..start] == [];
    } else {
      var init, end := cuts[..|cuts| - 1], cuts[|cuts| - 1];
      IncrementalRefinesBatch(ms, init, scan, cfg);
      OneMoreCall(ms, start, LastCut(start, init), end, carry, scan.escalatedAt, cfg);
    }
  }

  lemma {:induction false} StreakForgets(a: int, b: int, flags: seq<bool>)
    ensures Streak(a, flags) == Streak(b, flags) <==> a == b || exists f :: f in flags && !f
  {
    if flags != [] {
      var init, last := flags[..|flags| - 1], flags[|flags| - 1];
      StreakForgets(a, b, init);
      assert last in flags && forall f :: f in flags <==> f in init || f == last;
    }
  }

  /** Past MAX_TAIL the oldest new messages are skipped. One call still agrees with the batch
      count exactly when a scanned result passed, or the skipped ones leave the count as it was. */
  lemma LongGapAgreesExactly(ms: seq<Message>, scan: ScanState, cfg: EscalationConfig)
    requires Sound(scan) && scan.msgCount + MAX_TAIL < |ms|
    ensures var tail := |ms| - MAX_TAIL;
            Detected(MessageList(ms), false, scan, cfg).1.consecFailures
            == Streak(scan.consecFailures, Results(ms[scan.msgCount..], cfg))
            <==> (exists f :: f in Results(ms[tail..], cfg) && !f)
                 || Streak(scan.consecFailures, Results(ms[scan.msgCount..tail], cfg)) == scan.consecFailures
  {
    var tail := |ms| - MAX_TAIL;
    assert ms[scan.msgCount..] == ms[scan.msgCount..tail] + ms[tail..];
    ResultsAppend(ms[scan.msgCount..tail], ms[tail..], cfg);
    StreakAppend(scan.consecFailures, Results(ms[scan.msgCount..tail], cfg), Results(ms[tail..], cfg));
    StreakForgets(scan.consecFailures, Streak(scan.consecFailures, Results(ms[scan.msgCount..tail], cfg)),
                  Results(ms[tail..], cfg));
  }

  // ---------------------------------------------------------------- evidence accounting

  /** The failing tool results one call looks at. */
  function FailuresScanned(messages: Messages, header: bool, scan: ScanState, cfg: EscalationConfig): nat
  {
    if header || messages.NotAList? then 0
    else CountFailed(Results(messages.list[Min(WindowStart(|messages.list|, scan), |messages.list|)..], cfg))
  }

  lemma CrossingIsPaidFor(ms: seq<Message>, start: nat, carry: nat, cfg: EscalationConfig)
    requires start <= |ms|
    requires SomeCrossing(ms, start, |ms|, carry, cfg)
    ensures cfg.consecutiveToolFailures <= carry + CountFailed(Results(ms[start..], cfg))
  {
    var i :| start <= i < |ms| && Crosses(ms, start, i, carry, cfg);
    hide Results, Streak, CountFailed;
    var a, b := ms[start..i + 1], ms[i + 1..];
    StreakBound(carry, Results(a, cfg));
    assert ms[start..] == a + b;
    ResultsAppend(a, b, cfg);
    StreakAppend(carry, Results(a, cfg), Results(b, cfg));
  }

  /** A tool signal is paid for by failures: those carried in plus those just scanned reach the
      threshold. The count carried on never exceeds the same budget. */
  lemma SignalIsPaidFor(messages: Messages, header: bool, scan: ScanState, cfg: EscalationConfig)
    requires Sound(scan)
    ensures var (signal, next) := Detected(messages, header, scan, cfg);
            var budget := scan.consecFailures + FailuresScanned(messages, header, scan, cfg);
            && 0 <= next.consecFailures <= budget
            && (signal.ToolFailures? ==> cfg.consecutiveToolFailures <= budget)
  {
    if !header && messages.MessageList? {
      var ms := messages.list;
      var base, start := Rebased(|ms|, scan), WindowStart(|ms|, scan);
      StreakBound(base.consecFailures, Results(ms[start..], cfg));
      ToolSignalExactlyOnCrossing(ms, start, |ms|, base.consecFailures, cfg);
      if Detected(messages, header, scan, cfg).0.ToolFailures? {
        CrossingIsPaidFor(ms, start, base.consecFailures, cfg);
      }
    }
  }
}
