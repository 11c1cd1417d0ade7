/** What one request on a pinned session answers, in terms of its history alone. */
module Turns {
  import opened Options
  import opened Policies
  import opened Content
  import opened Escalation
  import opened Evidence
  import opened ToolResults
  import opened StateMachine

  /** The retry pattern that the last message of a history hits within its first 500 characters, if it
      is a new user message without tool results. */
  function RetryAsked(ms: seq<Message>, scan: ScanState, cfg: EscalationConfig): Option<string> {
    var n := |ms|;
    if n == 0 || n == scan.msgCount then None
    else
      match ms[n - 1]
      case Message(role, content) =>
        if role == "user" && VerdictsOf(ms[n - 1], cfg) == [] then
          var text := Flat(content);
          cfg.retryPattern(if |text| <= 500 then text else text[..500])
        else None
      case NotAnObject => None
  }

  /** Some scanned turn with tool results leaves the count at the threshold. */
  ghost predicate ToolsFailed(ms: seq<Message>, scan: ScanState, cfg: EscalationConfig) {
    exists i :: WindowStart(|ms|, scan) <= i < |ms| && VerdictsOf(ms[i], cfg) != []
                && CountAt(ms, scan, i + 1, cfg) >= cfg.consecutiveToolFailures
  }

  /** A detector call, for every history and every sound scan state: which signal it raises. */
  lemma DetectsExactly(ms: seq<Message>, header: bool, scan: ScanState, cfg: EscalationConfig)
    requires Sound(scan)
    ensures var signal := Detected(MessageList(ms), header, scan, cfg).0;
            && (signal.HeaderSignal? <==> header)
            && (signal.ToolFailures? <==> !header && ToolsFailed(ms, scan, cfg))
            && (signal.RetryText? <==> !header && !ToolsFailed(ms, scan, cfg) && RetryAsked(ms, scan, cfg).Some?)
            && (signal.RetryText? ==> Some(signal.pattern) == RetryAsked(ms, scan, cfg))
            && (signal.ToolFailures? ==>
                  CrossingOf(ms, scan, cfg).Some?
                  && signal.consecutive == CountAt(ms, scan, CrossingOf(ms, scan, cfg).value + 1, cfg))
  {
    hide Results, Streak, VerdictsOf, ToolTurn;
    if !header {
      ToolSignalNeedsResults(ms, scan, cfg);
      var start, carry := WindowStart(|ms|, scan), Rebased(|ms|, scan).consecFailures;
      SignalAtFirstCrossing(ms, start, |ms|, carry, cfg);
      if ms != [] {
        VerdictsAreTheFlags(ms[|ms| - 1], cfg);
      }
    }
  }

  /** The scan state a turn leaves, given whether its escalation was applied. */
  function ScanAfter(ms: seq<Message>, header: bool, applied: bool, scan: ScanState, cfg: EscalationConfig): ScanState {
    var n := |ms|;
    var mark := if header then Max(n, scan.msgCount) else n;
    if header || applied then ScanState(mark, 0, if header then mark else Max(Rebased(n, scan).escalatedAt, n))
    else ScanState(n, CountAt(ms, scan, n, cfg), Rebased(n, scan).escalatedAt)
  }

  /** One request on a pinned session, for every pin, descendant and turn. The tier rises by one if and
      only if neither the cap nor the top is reached, and the header is set, or tool results reached
      the threshold, or the last message asks for a retry; the reason logged is the first of these. */
  lemma TurnEscalatesExactly(p: PoliciesConfig, pin: Record, r: Record, t: Turn)
    requires p.Valid() && DescendsFrom(p, pin, r)
    ensures var o, cfg := ServeTurn(p, r, t), p.escalation;
            var failed, asked := ToolsFailed(t.messages, r.scan, cfg), RetryAsked(t.messages, r.scan, cfg);
            var position := p.Position(pin.policyName) + r.escalations;
            var room := r.escalations < cfg.maxEscalations && position < |p.tiers| - 1;
            var raised := room && (t.escalateHeader || failed || asked.Some?);
            && DescendsFrom(p, pin, o.record)
            && o.record.escalations == r.escalations + (if raised then 1 else 0)
            && p.TierIndex(o.record.policyName) == Some(p.Position(pin.policyName) + o.record.escalations)
            && (o.applied.NoSignal? <==> !raised)
            && (o.applied.HeaderSignal? <==> raised && t.escalateHeader)
            && (o.applied.ToolFailures? <==> raised && !t.escalateHeader && failed)
            && (o.applied.RetryText? <==> raised && !t.escalateHeader && !failed)
            && (o.applied.RetryText? ==> Some(o.applied.pattern) == asked)
            && o.record.scan == ScanAfter(t.messages, t.escalateHeader, raised, r.scan, cfg)
  {
    hide Detected, ToolsFailed, RetryAsked, DescendsFrom, CountAt, CrossingOf;
    DescendantIsSound(p, pin, r);
    DetectsExactly(t.messages, t.escalateHeader, r.scan, p.escalation);
    NextScan(t.messages, t.escalateHeader, r.scan, p.escalation);
    EscalateDescendant(p, pin, r);
    TurnKeepsDescent(p, pin, r, t);
    EscalateDescendant(p, pin, ServeTurn(p, r, t).record);
  }

  lemma NextScan(ms: seq<Message>, header: bool, scan: ScanState, cfg: EscalationConfig)
    ensures var next := Detected(MessageList(ms), header, scan, cfg).1;
            next == ScanAfter(ms, header, false, scan, cfg)
            && (!header ==> Consume(next, |ms|) == ScanAfter(ms, header, true, scan, cfg))
            && (header ==> Consume(next, |ms|) == next)
  {
    hide Results, Streak, WindowSignal;
    assert !header ==> ms[WindowStart(|ms|, scan)..|ms|] == ms[WindowStart(|ms|, scan)..];
  }
}
