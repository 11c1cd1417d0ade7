/** A pinned session served one request after another. */
module Serial {
  import opened Options
  import opened Policies
  import opened Content
  import opened Escalation
  import opened ScanLaws
  import opened StateMachine

  /** The record after serving some turns on a freshly pinned session. */
  function Served(p: PoliciesConfig, pin: Record, turns: seq<Turn>): (r: Record)
    requires p.Valid() && pin.Pinned?
    ensures r.Pinned?
  {
    if turns == [] then pin
    else ServeTurn(p, Served(p, pin, turns[..|turns| - 1]), turns[|turns| - 1]).record
  }

  /** The signal behind the escalation that the last turn applied, if it applied one. */
  function AppliedLast(p: PoliciesConfig, pin: Record, turns: seq<Turn>): Signal
    requires p.Valid() && pin.Pinned? && turns != []
  {
    ServeTurn(p, Served(p, pin, turns[..|turns| - 1]), turns[|turns| - 1]).applied
  }

  /** How many turns applied an escalation because of tool failures. */
  function ToolEscalations(p: PoliciesConfig, pin: Record, turns: seq<Turn>): nat
    requires p.Valid() && pin.Pinned?
  {
    if turns == [] then 0
    else ToolEscalations(p, pin, turns[..|turns| - 1])
         + (if AppliedLast(p, pin, turns).ToolFailures? then 1 else 0)
  }

  /** How many turns applied an escalation for any reason. */
  function Escalations(p: PoliciesConfig, pin: Record, turns: seq<Turn>): nat
    requires p.Valid() && pin.Pinned?
  {
    if turns == [] then 0
    else Escalations(p, pin, turns[..|turns| - 1]) + (if AppliedLast(p, pin, turns).NoSignal? then 0 else 1)
  }

  /** The failing tool results scanned over all the turns. */
  function FailuresSeen(p: PoliciesConfig, pin: Record, turns: seq<Turn>): nat
    requires p.Valid() && pin.Pinned?
  {
    if turns == [] then 0
    else
      var last := turns[|turns| - 1];
      FailuresSeen(p, pin, turns[..|turns| - 1])
      + FailuresScanned(MessageList(last.messages), last.escalateHeader,
                        Served(p, pin, turns[..|turns| - 1]).scan, p.escalation)
  }

  // ---------------------------------------------------------------- one turn

  /** The conditional write is a pure optimisation: when it is skipped, the unconditional one would
      have written the record already there. */
  lemma SkippedWriteIsNoChange(p: PoliciesConfig, r: Record, t: Turn)
    requires p.Valid() && r.Pinned?
    ensures var o := ServeTurn(p, r, t);
            && (o.write <==> o.record != r)
            && (o.applied.NoSignal? <==> o.record.escalations == r.escalations)
  {
    hide Scanned, Detected;
  }

  /** Replaying a request is idempotent exactly when it carries no escalation header or nothing is
      left to escalate: same record, no write, no escalation. */
  lemma ReplayIsIdempotentExactly(p: PoliciesConfig, r: Record, t: Turn)
    requires p.Valid() && r.Pinned?
    ensures var once := ServeTurn(p, r, t).record;
            ServeTurn(p, once, t) == PinnedOutcome(once, false, NoSignal)
            <==> !t.escalateHeader || Escalate(p, once).None?
  {
    ReplayFindsNothing(t.messages, r.scan, p.escalation);
    hide Scanned, Anchor;
  }

  // ---------------------------------------------------------------- whole sessions

  lemma {:induction false} ServedDescends(p: PoliciesConfig, pin: Record, turns: seq<Turn>)
    requires p.Valid() && WellPinned(p, pin)
    ensures DescendsFrom(p, pin, Served(p, pin, turns))
    ensures Served(p, pin, turns).escalations == Escalations(p, pin, turns)
  {
    if turns == [] {
      PinDescendsFromItself(p, pin);
    } else {
      hide ServeTurn, DescendsFrom;
      var init := turns[..|turns| - 1];
      ServedDescends(p, pin, init);
      TurnKeepsDescent(p, pin, Served(p, pin, init), turns[|turns| - 1]);
    }
  }

  /** The ratchet: over any session the tier never falls, and one turn moves it by at most one. */
  lemma {:induction false} Ratchet(p: PoliciesConfig, pin: Record, turns: seq<Turn>, m: nat)
    requires p.Valid() && WellPinned(p, pin) && m <= |turns|
    ensures p.TierIndex(Served(p, pin, turns[..m]).policyName).Some?
    ensures p.TierIndex(Served(p, pin, turns).policyName).Some?
    ensures var earlier, later := Served(p, pin, turns[..m]).policyName, Served(p, pin, turns).policyName;
            var rise := p.Position(later) - p.Position(earlier);
            0 <= rise <= |turns| - m
            && rise == Escalations(p, pin, turns) - Escalations(p, pin, turns[..m])
  {
    ServedDescends(p, pin, turns);
    ServedDescends(p, pin, turns[..m]);
    TierGapIsEscalationGap(p, pin, Served(p, pin, turns[..m]), Served(p, pin, turns));
    EscalationsGrowSlowly(p, pin, turns, m);
  }

  lemma {:induction false} EscalationsGrowSlowly(p: PoliciesConfig, pin: Record, turns: seq<Turn>, m: nat)
    requires p.Valid() && pin.Pinned? && m <= |turns|
    ensures 0 <= Escalations(p, pin, turns) - Escalations(p, pin, turns[..m]) <= |turns| - m
  {
    hide AppliedLast;
    if m == |turns| {
      assert turns[..m] == turns;
    } else {
      var init := turns[..|turns| - 1];
      assert init[..m] == turns[..m];
      EscalationsGrowSlowly(p, pin, init, m);
    }
  }

  /** Escalations are capped by the configured maximum and by the room above the pin. */
  lemma EscalationsAreCapped(p: PoliciesConfig, pin: Record, turns: seq<Turn>)
    requires p.Valid() && WellPinned(p, pin)
    ensures Escalations(p, pin, turns)
            <= Min(Max(0, p.escalation.maxEscalations), |p.tiers| - 1 - p.Position(pin.policyName))
  {
    ServedDescends(p, pin, turns);
  }

  /** The price of all tool-failure escalations: the threshold, once for each. */
  function Price(p: PoliciesConfig, pin: Record, turns: seq<Turn>): int
    requires p.Valid() && pin.Pinned?
  {
    if turns == [] then 0
    else Price(p, pin, turns[..|turns| - 1])
         + (if AppliedLast(p, pin, turns).ToolFailures? then p.escalation.consecutiveToolFailures else 0)
  }

  lemma {:induction false} PriceIsThresholdTimesCount(p: PoliciesConfig, pin: Record, turns: seq<Turn>)
    requires p.Valid() && pin.Pinned?
    ensures Price(p, pin, turns) == p.escalation.consecutiveToolFailures * ToolEscalations(p, pin, turns)
  {
    hide AppliedLast, ServeTurn, Served;
    if turns != [] {
      PriceIsThresholdTimesCount(p, pin, turns[..|turns| - 1]);
      AddOneMore(p.escalation.consecutiveToolFailures, ToolEscalations(p, pin, turns[..|turns| - 1]));
    }
  }

  lemma AddOneMore(a: int, n: nat)
    ensures a * (n + 1) == a * n + a
  {
  }

  /** Amortised cost of tool-failure escalations: each one is paid for by a threshold's worth of
      failing results, and no failing result pays twice. */
  lemma {:induction false} EscalationsArePaidFor(p: PoliciesConfig, pin: Record, turns: seq<Turn>)
    requires p.Valid() && WellPinned(p, pin)
    ensures Price(p, pin, turns) + Served(p, pin, turns).scan.consecFailures <= FailuresSeen(p, pin, turns)
  {
    if turns != [] {
      var init := turns[..|turns| - 1];
      EscalationsArePaidFor(p, pin, init);
      ServedDescends(p, pin, init);
      PaymentStep(p, pin, turns);
    }
  }

  lemma PaymentStep(p: PoliciesConfig, pin: Record, turns: seq<Turn>)
    requires p.Valid() && pin.Pinned? && turns != []
    requires var init := turns[..|turns| - 1];
             && Sound(Served(p, pin, init).scan)
             && Price(p, pin, init) + Served(p, pin, init).scan.consecFailures <= FailuresSeen(p, pin, init)
    ensures Price(p, pin, turns) + Served(p, pin, turns).scan.consecFailures <= FailuresSeen(p, pin, turns)
  {
    hide Served, Price, FailuresSeen, ServeTurn, FailuresScanned, Sound;
    LastTurn(p, pin, turns);
    OneTurnIsPaidFor(p, Served(p, pin, turns[..|turns| - 1]), turns[|turns| - 1]);
  }

  /** What the last turn adds to each of the running totals. */
  lemma LastTurn(p: PoliciesConfig, pin: Record, turns: seq<Turn>)
    requires p.Valid() && pin.Pinned? && turns != []
    ensures var init, last := turns[..|turns| - 1], turns[|turns| - 1];
            var before := Served(p, pin, init);
            var o := ServeTurn(p, before, last);
            && Served(p, pin, turns) == o.record
            && Price(p, pin, turns)
               == Price(p, pin, init) + (if o.applied.ToolFailures? then p.escalation.consecutiveToolFailures else 0)
            && FailuresSeen(p, pin, turns)
               == FailuresSeen(p, pin, init)
                  + FailuresScanned(MessageList(last.messages), last.escalateHeader, before.scan, p.escalation)
  {
    hide ServeTurn, FailuresScanned;
  }

  lemma OneTurnIsPaidFor(p: PoliciesConfig, r: Record, t: Turn)
    requires p.Valid() && r.Pinned? && Sound(r.scan)
    ensures var o := ServeTurn(p, r, t);
            (if o.applied.ToolFailures? then p.escalation.consecutiveToolFailures else 0)
            + o.record.scan.consecFailures
            <= r.scan.consecFailures
               + FailuresScanned(MessageList(t.messages), t.escalateHeader, r.scan, p.escalation)
  {
    SignalIsPaidFor(MessageList(t.messages), t.escalateHeader, r.scan, p.escalation);
    hide Detected, FailuresScanned;
  }

  /** Each turn's history extends the one before, starting from at least n messages. */
  predicate AppendOnly(turns: seq<Turn>, n: nat) {
    turns == []
    || (AppendOnly(turns[..|turns| - 1], n)
        && n <= |turns[|turns| - 1].messages|
        && (|turns| >= 2 ==> turns[|turns| - 2].messages <= turns[|turns| - 1].messages))
  }

  lemma SuffixFailsNoMore(ms: seq<Message>, i: nat, j: nat, cfg: EscalationConfig)
    requires i <= j <= |ms|
    ensures CountFailed(Results(ms[i..], cfg))
            == CountFailed(Results(ms[i..j], cfg)) + CountFailed(Results(ms[j..], cfg))
  {
    assert ms[i..] == ms[i..j] + ms[j..];
    ResultsAppend(ms[i..j], ms[j..], cfg);
    StreakAppend(0, Results(ms[i..j], cfg), Results(ms[j..], cfg));
  }

  /** With append-only histories the scan windows are disjoint: every failing result since the pin
      is counted at most once over the whole session. */
  lemma {:induction false} WindowsAreDisjoint(p: PoliciesConfig, pin: Record, turns: seq<Turn>)
    requires p.Valid() && pin.Pinned? && turns != [] && AppendOnly(turns, pin.scan.msgCount)
    ensures var last := turns[|turns| - 1].messages;
            && Served(p, pin, turns).scan.msgCount == |last|
            && FailuresSeen(p, pin, turns) <= CountFailed(Results(last[pin.scan.msgCount..], p.escalation))
  {
    var init := turns[..|turns| - 1];
    if init != [] {
      WindowsAreDisjoint(p, pin, init);
    }
    WindowStep(p, pin, turns);
  }

  lemma WindowStep(p: PoliciesConfig, pin: Record, turns: seq<Turn>)
    requires p.Valid() && pin.Pinned? && turns != [] && AppendOnly(turns, pin.scan.msgCount)
    requires var init := turns[..|turns| - 1];
             if init == [] then Served(p, pin, init) == pin && FailuresSeen(p, pin, init) == 0
             else var last := init[|init| - 1].messages;
                  && Served(p, pin, init).scan.msgCount == |last|
                  && pin.scan.msgCount <= |last|
                  && FailuresSeen(p, pin, init) <= CountFailed(Results(last[pin.scan.msgCount..], p.escalation))
    ensures var last := turns[|turns| - 1].messages;
            && Served(p, pin, turns).scan.msgCount == |last|
            && FailuresSeen(p, pin, turns) <= CountFailed(Results(last[pin.scan.msgCount..], p.escalation))
  {
    hide Served, FailuresSeen, ServeTurn, FailuresScanned, Results, CountFailed;
    var init, last := turns[..|turns| - 1], turns[|turns| - 1];
    var n, ms, cfg := pin.scan.msgCount, last.messages, p.escalation;
    var mark := Served(p, pin, init).scan.msgCount;
    if init != [] {
      HistoryExtends(init[|init| - 1].messages, ms, n, cfg);
    }
    WatermarkFollowsHistory(p, Served(p, pin, init), last);
    LastTurn(p, pin, turns);
    SuffixFailsNoMore(ms, mark, Max(mark, |ms| - MAX_TAIL), cfg);
  }

  lemma HistoryExtends(earlier: seq<Message>, ms: seq<Message>, n: nat, cfg: EscalationConfig)
    requires n <= |earlier| && earlier <= ms
    ensures CountFailed(Results(ms[n..], cfg))
            == CountFailed(Results(earlier[n..], cfg)) + CountFailed(Results(ms[|earlier|..], cfg))
  {
    assert ms[n..|earlier|] == earlier[n..];
    SuffixFailsNoMore(ms, n, |earlier|, cfg);
  }

  lemma WatermarkFollowsHistory(p: PoliciesConfig, r: Record, t: Turn)
    requires p.Valid() && r.Pinned? && r.scan.msgCount <= |t.messages|
    ensures ServeTurn(p, r, t).record.scan.msgCount == |t.messages|
    ensures FailuresScanned(MessageList(t.messages), t.escalateHeader, r.scan, p.escalation)
            <= CountFailed(Results(t.messages[Max(r.scan.msgCount, |t.messages| - MAX_TAIL)..], p.escalation))
  {
    hide Results, CountFailed, WindowSignal, Streak, Escalate;
  }

  /** The two together: over an append-only session, threshold times escalations plus the current
      count is at most the number of failing tool results since the pin. */
  lemma EscalationsNeedDistinctFailures(p: PoliciesConfig, pin: Record, turns: seq<Turn>)
    requires p.Valid() && WellPinned(p, pin)
    requires turns != [] && AppendOnly(turns, pin.scan.msgCount)
    ensures p.escalation.consecutiveToolFailures * ToolEscalations(p, pin, turns)
            + Served(p, pin, turns).scan.consecFailures
            <= CountFailed(Results(turns[|turns| - 1].messages[pin.scan.msgCount..], p.escalation))
  {
    EscalationsArePaidFor(p, pin, turns);
    PriceIsThresholdTimesCount(p, pin, turns);
    WindowsAreDisjoint(p, pin, turns);
  }
}
