/** Which tool results count as failures, and what they do to the detector. */
module ToolResults {
  import opened Policies
  import opened Content
  import opened Escalation
  import opened ScanLaws

  /** A text hits the failure marker within its first 2000 characters. */
  predicate Marked(text: string, cfg: EscalationConfig) {
    text != "" && cfg.failureMarker(if |text| <= 2000 then text else text[..2000])
  }

  predicate IsToolResult(b: Block) {
    b.ObjectBlock? && b.kind == "tool_result"
  }

  /** A tool result failed if it is flagged, or if its text is marked. */
  predicate Failed(b: Block, cfg: EscalationConfig)
    requires IsToolResult(b)
  {
    b.isError || Marked(Flat(b.content), cfg)
  }

  /** The verdicts on the tool results among some blocks, in order. */
  function Verdicts(bs: seq<Block>, cfg: EscalationConfig): seq<bool> {
    if bs == [] then []
    else Verdicts(bs[..|bs| - 1], cfg)
         + if IsToolResult(bs[|bs| - 1]) then [Failed(bs[|bs| - 1], cfg)] else []
  }

  /** The verdicts of a message. A client sends tool results either as blocks of a user message, which
      may hold other blocks too, or each as a message of its own. */
  function VerdictsOf(m: Message, cfg: EscalationConfig): seq<bool> {
    match m
    case NotAnObject => []
    case Message(role, content) =>
      if role == "tool" then [Marked(Flat(content), cfg)]
      else if role == "user" && content.Blocks? then Verdicts(content.blocks, cfg)
      else []
  }

  lemma MarkedIsTextFailed(c: Content, cfg: EscalationConfig)
    ensures TextFailed(c, cfg) <==> Marked(Flat(c), cfg)
  {
  }

  lemma {:induction false} ToolResultsAppend(bs: seq<Block>, b: Block)
    ensures ToolResultsAmong(bs + [b]) == ToolResultsAmong(bs) + if IsToolResult(b) then [b] else []
  {
    if bs == [] {
      assert [] + [b] == [b] && [b][1..] == [];
    } else {
      assert (bs + [b])[1..] == bs[1..] + [b];
      ToolResultsAppend(bs[1..], b);
    }
  }

  lemma {:induction false} FlagsAreVerdicts(bs: seq<Block>, cfg: EscalationConfig)
    ensures FailureFlags(ToolResultsAmong(bs), cfg) == Verdicts(bs, cfg)
  {
    hide TextFailed, Marked, Flat;
    if bs != [] {
      var init, last := bs[..|bs| - 1], bs[|bs| - 1];
      FlagsAreVerdicts(init, cfg);
      assert bs == init + [last];
      ToolResultsAppend(init, last);
      if IsToolResult(last) {
        MarkedIsTextFailed(last.content, cfg);
        OneMoreFlag(ToolResultsAmong(init), last, cfg);
      }
    }
  }

  lemma OneMoreFlag(bs: seq<Block>, b: Block, cfg: EscalationConfig)
    requires b.ObjectBlock? && forall x :: x in bs ==> x.ObjectBlock?
    ensures FailureFlags(bs + [b], cfg) == FailureFlags(bs, cfg) + [BlockFailed(b, cfg)]
  {
    hide BlockFailed;
  }

  /** The detector's failure flags are these verdicts, for every message in either client's shape. */
  lemma VerdictsAreTheFlags(m: Message, cfg: EscalationConfig)
    ensures ToolResultFailures(m, cfg).GetOr([]) == VerdictsOf(m, cfg)
    ensures ToolTurn(m, cfg) <==> VerdictsOf(m, cfg) != []
  {
    if m.Message? && m.role == "tool" {
      MarkedIsTextFailed(m.content, cfg);
    } else if m.Message? && m.role == "user" && m.content.Blocks? {
      FlagsAreVerdicts(m.content.blocks, cfg);
    }
  }

  // ---------------------------------------------------------------- what they do to the detector

  /** The count after the first messages of a call's window, up to position i. */
  function CountAt(ms: seq<Message>, scan: ScanState, i: nat, cfg: EscalationConfig): int
    requires WindowStart(|ms|, scan) <= i <= |ms|
  {
    Streak(Rebased(|ms|, scan).consecFailures, Results(ms[WindowStart(|ms|, scan)..i], cfg))
  }

  predicate AllFailed(verdicts: seq<bool>) {
    verdicts != [] && forall i :: 0 <= i < |verdicts| ==> verdicts[i]
  }

  predicate LastPassed(verdicts: seq<bool>) {
    verdicts != [] && !verdicts[|verdicts| - 1]
  }

  /** What a message at any position of the window does, for every history, scan state, marker and
      text: failing results add to the count, and raise a tool signal once they bring it to the
      threshold; a turn whose last result passed leaves no count; a message without tool results
      changes nothing. The call ends with the count after the last message. */
  lemma WhatAMessageDoes(ms: seq<Message>, scan: ScanState, i: nat, cfg: EscalationConfig)
    requires WindowStart(|ms|, scan) <= i < |ms|
    ensures var verdicts := VerdictsOf(ms[i], cfg);
            var before, after := CountAt(ms, scan, i, cfg), CountAt(ms, scan, i + 1, cfg);
            var (signal, next) := Detected(MessageList(ms), false, scan, cfg);
            && (AllFailed(verdicts) ==> after == before + |verdicts|)
            && (LastPassed(verdicts) ==> after == 0)
            && (verdicts == [] ==> after == before)
            && (verdicts != [] && after >= cfg.consecutiveToolFailures ==> signal.ToolFailures?)
            && (i == |ms| - 1 ==> next.consecFailures == after)
  {
    hide ToolResultFailures, Results, Streak, VerdictsOf;
    var base, start := Rebased(|ms|, scan), WindowStart(|ms|, scan);
    var before := Streak(base.consecFailures, Results(ms[start..i], cfg));
    OneMoreMessage(ms, start, i, base, cfg);
    VerdictsAreTheFlags(ms[i], cfg);
    var verdicts := VerdictsOf(ms[i], cfg);
    if AllFailed(verdicts) {
      AllFailing(before, verdicts);
    } else if LastPassed(verdicts) {
      LastPassedResets(before, verdicts);
    }
    ToolSignalExactlyOnCrossing(ms, start, |ms|, base.consecFailures, cfg);
    if verdicts != [] && CountAt(ms, scan, i + 1, cfg) >= cfg.consecutiveToolFailures {
      assert Crosses(ms, start, i, base.consecFailures, cfg);
    }
    assert ms[start..|ms|] == ms[start..];
  }

  lemma LastPassedResets(carry: int, flags: seq<bool>)
    requires LastPassed(flags)
    ensures Streak(carry, flags) == 0
  {
  }

  /** And nothing else raises a tool signal: it takes a turn with tool results that leaves the count at
      the threshold. */
  lemma ToolSignalNeedsResults(ms: seq<Message>, scan: ScanState, cfg: EscalationConfig)
    requires Sound(scan)
    ensures Detected(MessageList(ms), false, scan, cfg).0.ToolFailures?
            <==> exists i :: WindowStart(|ms|, scan) <= i < |ms| && VerdictsOf(ms[i], cfg) != []
                             && CountAt(ms, scan, i + 1, cfg) >= cfg.consecutiveToolFailures
  {
    hide ToolResultFailures, Results, Streak, VerdictsOf, ToolTurn;
    var base, start := Rebased(|ms|, scan), WindowStart(|ms|, scan);
    ToolSignalExactlyOnCrossing(ms, start, |ms|, base.consecFailures, cfg);
    forall i | start <= i < |ms|
      ensures Crosses(ms, start, i, base.consecFailures, cfg)
              <==> VerdictsOf(ms[i], cfg) != [] && CountAt(ms, scan, i + 1, cfg) >= cfg.consecutiveToolFailures
    {
      VerdictsAreTheFlags(ms[i], cfg);
    }
  }
}
