/** Which tool results a signal counts, and when it counts results an earlier escalation has spent. */
module Evidence {
  import opened Options
  import opened Policies
  import opened Content
  import opened Escalation
  import opened ScanLaws

  // ---------------------------------------------------------------- the results behind a count

  /** The messages whose failing results make up the running count, one entry for each result. */
  function CountedOn(owing: seq<nat>, i: nat, flags: seq<bool>): seq<nat> {
    if flags == [] then owing
    else if flags[|flags| - 1] then CountedOn(owing, i, flags[..|flags| - 1]) + [i]
    else []
  }

  /** The same after the messages ms[start..end], given the ones carried in. */
  function Owing(carried: seq<nat>, ms: seq<Message>, start: nat, end: nat, cfg: EscalationConfig): seq<nat>
    requires start <= end <= |ms|
    decreases end
  {
    if end == start then carried
    else CountedOn(Owing(carried, ms, start, end - 1, cfg), end - 1, ToolResultFailures(ms[end - 1], cfg).GetOr([]))
  }

  lemma {:induction false} CountedOnLength(owing: seq<nat>, i: nat, flags: seq<bool>)
    ensures |CountedOn(owing, i, flags)| == Streak(|owing|, flags)
  {
    if flags != [] {
      CountedOnLength(owing, i, flags[..|flags| - 1]);
    }
  }

  /** There are as many of them as the running count says. */
  lemma {:induction false} OwingIsTheStreak(carried: seq<nat>, ms: seq<Message>, start: nat, end: nat,
                                            cfg: EscalationConfig)
    requires start <= end <= |ms|
    ensures |Owing(carried, ms, start, end, cfg)| == Streak(|carried|, Results(ms[start..end], cfg))
    decreases end
  {
    hide ToolResultFailures, Results, WindowSignal;
    if start == end {
      NothingScanned(ms, start, |carried|, cfg);
    } else {
      OwingIsTheStreak(carried, ms, start, end - 1, cfg);
      OneMoreMessage(ms, start, end - 1, ScanState(0, |carried|, 0), cfg);
      CountedOnLength(Owing(carried, ms, start, end - 1, cfg), end - 1,
                      ToolResultFailures(ms[end - 1], cfg).GetOr([]));
    }
  }

  lemma NothingScanned(ms: seq<Message>, start: nat, carry: int, cfg: EscalationConfig)
    requires start <= |ms|
    ensures Streak(carry, Results(ms[start..start], cfg)) == carry
  {
  }

  /** No tool result in the message passed. */
  predicate NonePassed(m: Message, cfg: EscalationConfig) {
    forall f :: f in ToolResultFailures(m, cfg).GetOr([]) ==> f
  }

  predicate NoPass(ms: seq<Message>, from: nat, to: nat, cfg: EscalationConfig)
    requires to <= |ms|
  {
    forall i :: from <= i < to ==> NonePassed(ms[i], cfg)
  }

  /** A tool turn whose last result failed. */
  predicate EndsFailing(m: Message, cfg: EscalationConfig) {
    var failures := ToolResultFailures(m, cfg);
    failures.Some? && failures.value[|failures.value| - 1]
  }

  lemma {:induction false} CountedOnExactly(owing: seq<nat>, i: nat, flags: seq<bool>, x: nat)
    ensures x in CountedOn(owing, i, flags)
            <==> (x in owing && forall f :: f in flags ==> f) || (x == i && flags != [] && flags[|flags| - 1])
  {
    if flags != [] {
      var init, last := flags[..|flags| - 1], flags[|flags| - 1];
      CountedOnExactly(owing, i, init, x);
      assert last in flags && forall f :: f in flags <==> f in init || f == last;
    }
  }

  /** A result is counted if and only if its message ends failing and no result passed after it: among
      the new messages, or among those carried in. */
  predicate Counts(ms: seq<Message>, start: nat, end: nat, x: nat, cfg: EscalationConfig)
    requires end <= |ms|
  {
    start <= x < end && EndsFailing(ms[x], cfg) && NoPass(ms, x + 1, end, cfg)
  }

  lemma {:induction false} OwingExactly(carried: seq<nat>, ms: seq<Message>, start: nat, end: nat, x: nat,
                                        cfg: EscalationConfig)
    requires start <= end <= |ms|
    requires forall y :: y in carried ==> y < start
    ensures x in Owing(carried, ms, start, end, cfg)
            <==> (x in carried && NoPass(ms, start, end, cfg)) || Counts(ms, start, end, x, cfg)
    decreases end
  {
    hide ToolResultFailures;
    if start < end {
      OwingExactly(carried, ms, start, end - 1, x, cfg);
      CountedOnExactly(Owing(carried, ms, start, end - 1, cfg), end - 1,
                       ToolResultFailures(ms[end - 1], cfg).GetOr([]), x);
      OneMoreNoPass(ms, start, end, cfg);
      OneMoreNoPass(ms, x + 1, end, cfg);
    }
  }

  lemma OneMoreNoPass(ms: seq<Message>, from: nat, to: nat, cfg: EscalationConfig)
    requires 0 < to <= |ms|
    ensures NoPass(ms, from, to, cfg) <==> NoPass(ms, from, to - 1, cfg) && (from < to ==> NonePassed(ms[to - 1], cfg))
  {
    hide NonePassed;
  }

  // ---------------------------------------------------------------- the evidence of one call

  /** The message whose tool turn raises the tool signal. */
  function FirstCrossing(ms: seq<Message>, start: nat, end: nat, carry: int, cfg: EscalationConfig): (r: Option<nat>)
    requires start <= end <= |ms|
    ensures r.Some? ==> start <= r.value < end && Crosses(ms, start, r.value, carry, cfg)
    decreases end
  {
    if end == start then None
    else
      var before := FirstCrossing(ms, start, end - 1, carry, cfg);
      if before.Some? then before else if Crosses(ms, start, end - 1, carry, cfg) then Some(end - 1) else None
  }

  lemma {:induction false} SignalAtFirstCrossing(ms: seq<Message>, start: nat, end: nat, carry: int,
                                                 cfg: EscalationConfig)
    requires start <= end <= |ms|
    ensures var first := FirstCrossing(ms, start, end, carry, cfg);
            ToolSignal(ms, start, end, carry, cfg)
            == if first.Some? then ToolFailures(Streak(carry, Results(ms[start..first.value + 1], cfg))) else NoSignal
    decreases end
  {
    hide Crosses, Streak, Results;
    if start < end {
      SignalAtFirstCrossing(ms, start, end - 1, carry, cfg);
    }
  }

  /** `owing` says which results make up the running count: as many as it says, all seen before. */
  predicate Attributes(scan: ScanState, owing: seq<nat>) {
    |owing| == scan.consecFailures && forall x :: x in owing ==> x < scan.msgCount
  }

  predicate Shrunk(n: nat, scan: ScanState) {
    n < scan.msgCount
  }

  /** What a header-free call carries into its window. */
  function CarriedIn(n: nat, scan: ScanState, owing: seq<nat>): seq<nat> {
    if Shrunk(n, scan) then [] else owing
  }

  function CrossingOf(ms: seq<Message>, scan: ScanState, cfg: EscalationConfig): Option<nat> {
    FirstCrossing(ms, WindowStart(|ms|, scan), |ms|, Rebased(|ms|, scan).consecFailures, cfg)
  }

  /** The messages whose results a call's signal counts, one entry for each result. */
  function EvidenceOf(ms: seq<Message>, header: bool, scan: ScanState, owing: seq<nat>, cfg: EscalationConfig): seq<nat>
  {
    if header then []
    else
      var crossing := CrossingOf(ms, scan, cfg);
      if crossing.Some?
      then Owing(CarriedIn(|ms|, scan, owing), ms, WindowStart(|ms|, scan), crossing.value + 1, cfg)
      else if Detected(MessageList(ms), false, scan, cfg).0.RetryText? then [|ms| - 1]
      else []
  }

  /** What makes up the running count after a call whose signal was not consumed. */
  function OwingAfter(ms: seq<Message>, header: bool, scan: ScanState, owing: seq<nat>, cfg: EscalationConfig): seq<nat>
  {
    if header then [] else Owing(CarriedIn(|ms|, scan, owing), ms, WindowStart(|ms|, scan), |ms|, cfg)
  }

  /** A tool signal reports exactly as many failures as it has evidence. */
  lemma EvidenceIsReported(ms: seq<Message>, scan: ScanState, owing: seq<nat>, cfg: EscalationConfig)
    requires Attributes(scan, owing)
    ensures var signal := Detected(MessageList(ms), false, scan, cfg).0;
            (signal.ToolFailures? <==> CrossingOf(ms, scan, cfg).Some?)
            && (signal.ToolFailures? ==> signal.consecutive == |EvidenceOf(ms, false, scan, owing, cfg)|)
  {
    hide Results, Streak, Owing, ToolSignal, FirstCrossing, RetryHit;
    var start, carry := WindowStart(|ms|, scan), Rebased(|ms|, scan).consecFailures;
    SignalAtFirstCrossing(ms, start, |ms|, carry, cfg);
    var crossing := CrossingOf(ms, scan, cfg);
    if crossing.Some? {
      OwingIsTheStreak(CarriedIn(|ms|, scan, owing), ms, start, crossing.value + 1, cfg);
    }
  }

  /** Attribution is kept by every call and by consuming its signal. */
  lemma AttributionIsKept(ms: seq<Message>, header: bool, scan: ScanState, owing: seq<nat>, cfg: EscalationConfig)
    requires Attributes(scan, owing)
    ensures var next := Detected(MessageList(ms), header, scan, cfg).1;
            Attributes(next, OwingAfter(ms, header, scan, owing, cfg)) && Attributes(Consume(next, |ms|), [])
  {
    hide Results, Streak, Owing, WindowSignal;
    if !header {
      var start, carried := WindowStart(|ms|, scan), CarriedIn(|ms|, scan, owing);
      assert ms[start..|ms|] == ms[start..];
      OwingIsTheStreak(carried, ms, start, |ms|, cfg);
      forall x | x in Owing(carried, ms, start, |ms|, cfg) ensures x < |ms| {
        OwingExactly(carried, ms, start, |ms|, x, cfg);
      }
    }
  }

  /** A call only counts results of its own history, and unless that has shrunk only results that the
      scan state carries or has not seen. */
  lemma EvidenceIsRecent(ms: seq<Message>, header: bool, scan: ScanState, owing: seq<nat>, cfg: EscalationConfig,
                         x: nat)
    requires Attributes(scan, owing)
    ensures x in EvidenceOf(ms, header, scan, owing, cfg) || x in OwingAfter(ms, header, scan, owing, cfg) ==>
              !header && x < |ms| && (Shrunk(|ms|, scan) || x in owing || scan.msgCount <= x)
  {
    hide Results, Streak, Owing, ToolSignal, FirstCrossing, RetryHit;
    if !header {
      var start, carried := WindowStart(|ms|, scan), CarriedIn(|ms|, scan, owing);
      var crossing := CrossingOf(ms, scan, cfg);
      if crossing.Some? {
        OwingExactly(carried, ms, start, crossing.value + 1, x, cfg);
      }
      OwingExactly(carried, ms, start, |ms|, x, cfg);
    }
  }

  // ---------------------------------------------------------------- one scan state, call after call

  /** A detector call, and whether the escalation it asks for is applied and its evidence consumed. */
  datatype Call = Call(messages: seq<Message>, header: bool, consumed: bool)

  /** The scan state handed from call to call, and the results its count is made of. */
  datatype Threaded = Threaded(scan: ScanState, owing: seq<nat>)

  function Handle(st: Threaded, c: Call, cfg: EscalationConfig): Threaded {
    var (signal, next) := Detected(MessageList(c.messages), c.header, st.scan, cfg);
    if c.consumed && !signal.NoSignal? then Threaded(Consume(next, |c.messages|), [])
    else Threaded(next, OwingAfter(c.messages, c.header, st.scan, st.owing, cfg))
  }

  function HandleAll(st: Threaded, calls: seq<Call>, cfg: EscalationConfig): Threaded {
    if calls == [] then st
    else Handle(HandleAll(st, calls[..|calls| - 1], cfg), calls[|calls| - 1], cfg)
  }

  /** No header-free call finds its history shorter than the watermark handed to it. */
  predicate NoneShrinks(st: Threaded, calls: seq<Call>, cfg: EscalationConfig) {
    calls == []
    || (NoneShrinks(st, calls[..|calls| - 1], cfg)
        && var last := calls[|calls| - 1];
           last.header || !Shrunk(|last.messages|, HandleAll(st, calls[..|calls| - 1], cfg).scan))
  }

  /** The count is made of results from message n on. */
  predicate CountsFrom(scan: ScanState, owing: seq<nat>, n: nat) {
    Attributes(scan, owing) && n <= scan.msgCount && forall x :: x in owing ==> n <= x
  }

  lemma HandleCountsFrom(st: Threaded, c: Call, n: nat, cfg: EscalationConfig)
    requires CountsFrom(st.scan, st.owing, n) && (c.header || !Shrunk(|c.messages|, st.scan))
    ensures CountsFrom(Handle(st, c, cfg).scan, Handle(st, c, cfg).owing, n)
  {
    hide EvidenceOf, WindowSignal, Streak, Results, Owing;
    AttributionIsKept(c.messages, c.header, st.scan, st.owing, cfg);
    forall x | x in OwingAfter(c.messages, c.header, st.scan, st.owing, cfg) ensures n <= x {
      EvidenceIsRecent(c.messages, c.header, st.scan, st.owing, cfg, x);
    }
  }

  lemma {:induction false} CallsCountFrom(st: Threaded, calls: seq<Call>, n: nat, cfg: EscalationConfig)
    requires CountsFrom(st.scan, st.owing, n) && NoneShrinks(st, calls, cfg)
    ensures var t := HandleAll(st, calls, cfg);
            CountsFrom(t.scan, t.owing, n)
  {
    hide Handle, CountsFrom, Shrunk;
    if calls != [] {
      CallsCountFrom(st, calls[..|calls| - 1], n, cfg);
      HandleCountsFrom(HandleAll(st, calls[..|calls| - 1], cfg), calls[|calls| - 1], n, cfg);
    }
  }

  /** Consumed evidence fires twice only after a shrink. Over any later calls, on any histories: as
      long as none is shorter than the watermark handed to it, no later signal counts a message that
      the consumed one saw, nor one that it counted. */
  lemma SpentStaysSpent(st: Threaded, first: Call, calls: seq<Call>, last: Call, x: nat, cfg: EscalationConfig)
    requires Attributes(st.scan, st.owing)
    requires first.consumed && !Detected(MessageList(first.messages), first.header, st.scan, cfg).0.NoSignal?
    requires NoneShrinks(Handle(st, first, cfg), calls + [last], cfg)
    ensures var later := HandleAll(Handle(st, first, cfg), calls, cfg);
            x in EvidenceOf(last.messages, last.header, later.scan, later.owing, cfg) ==>
              |first.messages| <= x
              && x !in EvidenceOf(first.messages, first.header, st.scan, st.owing, cfg)
  {
    hide EvidenceOf, WindowSignal, Streak, Results, Owing;
    assert (calls + [last])[..|calls|] == calls;
    AttributionIsKept(first.messages, first.header, st.scan, st.owing, cfg);
    CallsCountFrom(Handle(st, first, cfg), calls, |first.messages|, cfg);
    var later := HandleAll(Handle(st, first, cfg), calls, cfg);
    EvidenceIsRecent(last.messages, last.header, later.scan, later.owing, cfg, x);
    EvidenceIsRecent(first.messages, first.header, st.scan, st.owing, cfg, x);
  }

  // ---------------------------------------------------------------- after a shrink

  /** Each cut is at most MAX_TAIL messages past the one before; it may also go back. */
  predicate SmallSteps(from: nat, cuts: seq<nat>) {
    cuts == []
    || (SmallSteps(from, cuts[..|cuts| - 1])
        && cuts[|cuts| - 1] <= LastCut(from, cuts[..|cuts| - 1]) + MAX_TAIL)
  }

  predicate GoesBack(from: nat, cuts: seq<nat>)
    requires cuts != []
  {
    cuts[|cuts| - 1] < LastCut(from, cuts[..|cuts| - 1])
  }

  /** Where the latest cut that went back restarted the scan. */
  function SegmentStart(from: nat, cuts: seq<nat>): nat {
    if cuts == [] then from
    else if GoesBack(from, cuts) then Max(0, cuts[|cuts| - 1] - MAX_TAIL)
    else SegmentStart(from, cuts[..|cuts| - 1])
  }

  /** The count it restarted from. */
  function SegmentCarry(scan: ScanState, cuts: seq<nat>): int {
    if cuts == [] then scan.consecFailures
    else if GoesBack(scan.msgCount, cuts) then 0
    else SegmentCarry(scan, cuts[..|cuts| - 1])
  }

  /** Some stretch between two cuts that go back has a crossing in the batch view. */
  predicate SomeSegmentCrossed(ms: seq<Message>, cuts: seq<nat>, scan: ScanState, cfg: EscalationConfig)
    requires Within(cuts, |ms|)
  {
    cuts != []
    && (SomeSegmentCrossed(ms, cuts[..|cuts| - 1], scan, cfg)
        || SomeCrossing(ms, SegmentStart(scan.msgCount, cuts), cuts[|cuts| - 1], SegmentCarry(scan, cuts), cfg))
  }

  /** The incremental scan refines the batch scan also when histories go back: the count is that of
      the stretch since the latest restart, and some call raises a tool signal if and only if the
      batch scan of one of the stretches has a crossing. */
  lemma {:induction false} RewindsRefineBatch(ms: seq<Message>, cuts: seq<nat>, scan: ScanState, cfg: EscalationConfig)
    requires Sound(scan) && scan.msgCount <= |ms| && Within(cuts, |ms|) && SmallSteps(scan.msgCount, cuts)
    ensures SegmentStart(scan.msgCount, cuts) <= LastCut(scan.msgCount, cuts) <= |ms|
    ensures var start, end := SegmentStart(scan.msgCount, cuts), LastCut(scan.msgCount, cuts);
            var t := Chained(ms, cuts, scan, cfg);
            t.msgCount == end && t.consecFailures == Streak(SegmentCarry(scan, cuts), Results(ms[start..end], cfg))
    ensures SomeCallRaised(ms, cuts, scan, cfg) <==> SomeSegmentCrossed(ms, cuts, scan, cfg)
  {
    hide Results, Streak, Crosses, Detected;
    if cuts == [] {
      NothingScanned(ms, scan.msgCount, scan.consecFailures, cfg);
    } else {
      var init, end := cuts[..|cuts| - 1], cuts[|cuts| - 1];
      RewindsRefineBatch(ms, init, scan, cfg);
      var start, mid := SegmentStart(scan.msgCount, init), LastCut(scan.msgCount, init);
      var carry := SegmentCarry(scan, init);
      if mid <= end {
        OneMoreCall(ms, start, mid, end, carry, Chained(ms, init, scan, cfg).escalatedAt, cfg);
        assert SomeCrossing(ms, start, mid, carry, cfg) ==> SomeSegmentCrossed(ms, init, scan, cfg);
      } else {
        RestartedCall(ms, end, Chained(ms, init, scan, cfg), cfg);
      }
    }
  }

  lemma RestartedCall(ms: seq<Message>, end: nat, scan: ScanState, cfg: EscalationConfig)
    requires end <= |ms| && Shrunk(end, scan)
    ensures var start := Max(0, end - MAX_TAIL);
            var (signal, next) := Detected(MessageList(ms[..end]), false, scan, cfg);
            && next.msgCount == end && next.consecFailures == Streak(0, Results(ms[start..end], cfg))
            && (signal.ToolFailures? <==> SomeCrossing(ms, start, end, 0, cfg))
  {
    hide Results, Streak, Crosses;
    var start := Max(0, end - MAX_TAIL);
    assert ms[..end][start..] == ms[start..end];
    ShrinkFiresExactly(ms[..end], scan, cfg);
    assert SomeCrossing(ms[..end], start, end, 0, cfg) <==> SomeCrossing(ms, start, end, 0, cfg) by {
      SameCrossings(ms, start, end, 0, cfg);
    }
  }

  lemma SameCrossings(ms: seq<Message>, start: nat, end: nat, carry: int, cfg: EscalationConfig)
    requires start <= end <= |ms|
    ensures SomeCrossing(ms[..end], start, end, carry, cfg) <==> SomeCrossing(ms, start, end, carry, cfg)
  {
    hide Results, Streak, ToolTurn;
    forall i | start <= i < end
      ensures Crosses(ms[..end], start, i, carry, cfg) <==> Crosses(ms, start, i, carry, cfg)
    {
      assert ms[..end][start..i + 1] == ms[start..i + 1];
    }
  }

  lemma {:induction false} OwingOnPrefix(carried: seq<nat>, ms: seq<Message>, n: nat, start: nat, end: nat,
                                         cfg: EscalationConfig)
    requires start <= end <= n <= |ms|
    ensures Owing(carried, ms[..n], start, end, cfg) == Owing(carried, ms, start, end, cfg)
    decreases end
  {
    if start < end {
      OwingOnPrefix(carried, ms, n, start, end - 1, cfg);
    }
  }

  lemma {:induction false} OwingAppend(carried: seq<nat>, ms: seq<Message>, start: nat, mid: nat, end: nat,
                                       cfg: EscalationConfig)
    requires start <= mid <= end <= |ms|
    ensures Owing(Owing(carried, ms, start, mid, cfg), ms, mid, end, cfg) == Owing(carried, ms, start, end, cfg)
    decreases end
  {
    if mid < end {
      OwingAppend(carried, ms, start, mid, end - 1, cfg);
    }
  }

  /** Header-free calls on prefixes of one history, none of whose signals is consumed. */
  function CallsOn(ms: seq<Message>, cuts: seq<nat>): seq<Call>
    requires Within(cuts, |ms|)
  {
    if cuts == [] then []
    else CallsOn(ms, cuts[..|cuts| - 1]) + [Call(ms[..cuts[|cuts| - 1]], false, false)]
  }

  /** What the latest restart carried. */
  function SegmentOwing(from: nat, owing: seq<nat>, cuts: seq<nat>): seq<nat> {
    if cuts == [] then owing
    else if GoesBack(from, cuts) then []
    else SegmentOwing(from, owing, cuts[..|cuts| - 1])
  }

  /** What a call on the next prefix counts up to `to`, expressed from the latest restart on. */
  lemma CountedSinceRestart(ms: seq<Message>, start: nat, carried: seq<nat>, end: nat, to: nat, st: Threaded,
                            cfg: EscalationConfig)
    requires end <= |ms| && start <= st.scan.msgCount <= |ms| && end <= st.scan.msgCount + MAX_TAIL
    requires st.owing == Owing(carried, ms, start, st.scan.msgCount, cfg)
    requires WindowStart(end, st.scan) <= to <= end
    ensures var from := if Shrunk(end, st.scan) then Max(0, end - MAX_TAIL) else start;
            var kept := if Shrunk(end, st.scan) then [] else carried;
            from <= to
            && Owing(CarriedIn(end, st.scan, st.owing), ms[..end], WindowStart(end, st.scan), to, cfg)
               == Owing(kept, ms, from, to, cfg)
  {
    hide Owing;
    var window := WindowStart(end, st.scan);
    OwingOnPrefix(CarriedIn(end, st.scan, st.owing), ms, end, window, to, cfg);
    if !Shrunk(end, st.scan) {
      OwingAppend(carried, ms, start, window, to, cfg);
    }
  }

  /** A call on the next prefix counts from the latest restart on. */
  lemma OneMoreCut(ms: seq<Message>, start: nat, carried: seq<nat>, end: nat, st: Threaded, cfg: EscalationConfig)
    requires end <= |ms| && start <= st.scan.msgCount <= |ms| && end <= st.scan.msgCount + MAX_TAIL
    requires st.owing == Owing(carried, ms, start, st.scan.msgCount, cfg)
    ensures var from := if Shrunk(end, st.scan) then Max(0, end - MAX_TAIL) else start;
            var kept := if Shrunk(end, st.scan) then [] else carried;
            var crossing := CrossingOf(ms[..end], st.scan, cfg);
            && from <= end
            && OwingAfter(ms[..end], false, st.scan, st.owing, cfg) == Owing(kept, ms, from, end, cfg)
            && (crossing.Some? ==>
                  from <= crossing.value < end && ToolTurn(ms[crossing.value], cfg)
                  && EvidenceOf(ms[..end], false, st.scan, st.owing, cfg)
                     == Owing(kept, ms, from, crossing.value + 1, cfg))
  {
    hide Owing, CrossingOf, Detected, ToolTurn;
    var crossing := CrossingOf(ms[..end], st.scan, cfg);
    CountedSinceRestart(ms, start, carried, end, end, st, cfg);
    CrossingIsToolTurn(ms, end, st.scan, cfg);
    if crossing.Some? {
      CountedSinceRestart(ms, start, carried, end, crossing.value + 1, st, cfg);
    }
  }

  lemma CrossingIsToolTurn(ms: seq<Message>, n: nat, scan: ScanState, cfg: EscalationConfig)
    requires n <= |ms|
    ensures var crossing := CrossingOf(ms[..n], scan, cfg);
            crossing.Some? ==> WindowStart(n, scan) <= crossing.value < n && ToolTurn(ms[crossing.value], cfg)
  {
    hide FirstCrossing, Streak, Results;
  }

  /** Calls on prefixes of one history owe what the stretch since the latest restart owes. */
  lemma {:induction false} OwingSinceRestart(ms: seq<Message>, cuts: seq<nat>, st: Threaded, cfg: EscalationConfig)
    requires st.scan.msgCount <= |ms| && Within(cuts, |ms|) && SmallSteps(st.scan.msgCount, cuts)
    requires forall x :: x in st.owing ==> x < st.scan.msgCount
    ensures var n, t := st.scan.msgCount, HandleAll(st, CallsOn(ms, cuts), cfg);
            && SegmentStart(n, cuts) <= t.scan.msgCount == LastCut(n, cuts) <= |ms|
            && t.owing == Owing(SegmentOwing(n, st.owing, cuts), ms, SegmentStart(n, cuts), LastCut(n, cuts), cfg)
  {
    hide OwingAfter, Streak, Results, WindowSignal;
    if cuts != [] {
      var init, end := cuts[..|cuts| - 1], cuts[|cuts| - 1];
      OwingSinceRestart(ms, init, st, cfg);
      var n, before := st.scan.msgCount, HandleAll(st, CallsOn(ms, init), cfg);
      OneMoreCut(ms, SegmentStart(n, init), SegmentOwing(n, st.owing, init), end, before, cfg);
      assert CallsOn(ms, cuts)[..|CallsOn(ms, cuts)| - 1] == CallsOn(ms, init);
    }
  }

  lemma EvidenceSinceRestart(ms: seq<Message>, cuts: seq<nat>, scan: ScanState, cfg: EscalationConfig)
    requires cuts != [] && scan.msgCount <= |ms| && Within(cuts, |ms|) && SmallSteps(scan.msgCount, cuts)
    ensures var start := SegmentStart(scan.msgCount, cuts);
            var end, st := cuts[|cuts| - 1], HandleAll(Threaded(scan, []), CallsOn(ms, cuts[..|cuts| - 1]), cfg);
            var crossing := CrossingOf(ms[..end], st.scan, cfg);
            crossing.Some? ==>
              start <= crossing.value < end && ToolTurn(ms[crossing.value], cfg)
              && EvidenceOf(ms[..end], false, st.scan, st.owing, cfg) == Owing([], ms, start, crossing.value + 1, cfg)
  {
    hide Owing, EvidenceOf, OwingAfter, CrossingOf, ToolTurn, HandleAll;
    var n, init, end := scan.msgCount, cuts[..|cuts| - 1], cuts[|cuts| - 1];
    OwingSinceRestart(ms, init, Threaded(scan, []), cfg);
    NothingIsOwed(n, init);
    OneMoreCut(ms, SegmentStart(n, init), [], end, HandleAll(Threaded(scan, []), CallsOn(ms, init), cfg), cfg);
  }

  predicate SomeBelow(n: nat, owing: seq<nat>) {
    exists x :: x in owing && x < n
  }

  /** When spent evidence fires again, for one scan state: its watermark is n and nothing is owed,
      which is what consuming leaves; then follow calls on prefixes of one history, growing or
      going back. The last of them counts a result below n if and only if some call went back to
      before n, and the tool turn that raises the signal is itself below n, or nothing passed from n
      up to it and results below n were still being counted at n. */
  lemma SpentEvidenceReturnsExactly(ms: seq<Message>, cuts: seq<nat>, scan: ScanState, cfg: EscalationConfig)
    requires cuts != [] && scan.msgCount <= |ms| && Within(cuts, |ms|) && SmallSteps(scan.msgCount, cuts)
    ensures var n, start := scan.msgCount, SegmentStart(scan.msgCount, cuts);
            var end, st := cuts[|cuts| - 1], HandleAll(Threaded(scan, []), CallsOn(ms, cuts[..|cuts| - 1]), cfg);
            var crossing := CrossingOf(ms[..end], st.scan, cfg);
            crossing.Some? ==>
              var i := crossing.value;
              start <= i < end
              && (SomeBelow(n, EvidenceOf(ms[..end], false, st.scan, st.owing, cfg))
                  <==> start < n && if i < n then EndsFailing(ms[i], cfg)
                                    else NoPass(ms, n, i + 1, cfg) && Streak(0, Results(ms[start..n], cfg)) > 0)
  {
    hide Owing, EvidenceOf, CrossingOf, Streak, Results, NoPass, EndsFailing, SomeBelow, SegmentStart, HandleAll,
         ToolTurn;
    var n, end := scan.msgCount, cuts[|cuts| - 1];
    var st := HandleAll(Threaded(scan, []), CallsOn(ms, cuts[..|cuts| - 1]), cfg);
    EvidenceSinceRestart(ms, cuts, scan, cfg);
    var crossing := CrossingOf(ms[..end], st.scan, cfg);
    if crossing.Some? {
      CountsBelow(ms, SegmentStart(n, cuts), crossing.value, n, cfg);
    }
  }

  lemma {:induction false} NothingIsOwed(from: nat, cuts: seq<nat>)
    ensures SegmentOwing(from, [], cuts) == []
  {
    if cuts != [] {
      NothingIsOwed(from, cuts[..|cuts| - 1]);
    }
  }

  /** Whether the evidence of a crossing at i reaches back before n. */
  lemma CountsBelow(ms: seq<Message>, start: nat, i: nat, n: nat, cfg: EscalationConfig)
    requires start <= i < |ms| && n <= |ms| && ToolTurn(ms[i], cfg)
    ensures SomeBelow(n, Owing([], ms, start, i + 1, cfg))
            <==> start < n && if i < n then EndsFailing(ms[i], cfg)
                              else NoPass(ms, n, i + 1, cfg) && Streak(0, Results(ms[start..n], cfg)) > 0
  {
    hide Streak, Results, Owing, EndsFailing, ToolTurn, NoPass, Counts;
    var owing := Owing([], ms, start, i + 1, cfg);
    if i < n {
      OwingExactly([], ms, start, i + 1, i, cfg);
      LastOrNone(ms, start, i, cfg);
    } else if start < n {
      OwingIsTheStreak([], ms, start, n, cfg);
      forall x: nat ensures x in owing && x < n <==> NoPass(ms, n, i + 1, cfg) && x in Owing([], ms, start, n, cfg) {
        StillOwing(ms, start, n, i, x, cfg);
      }
      if |Owing([], ms, start, n, cfg)| > 0 {
        assert Owing([], ms, start, n, cfg)[0] in Owing([], ms, start, n, cfg);
      }
    } else {
      forall x | x in owing ensures x >= n {
        OwingExactly([], ms, start, i + 1, x, cfg);
        CountsFromStart(ms, start, i + 1, x, cfg);
      }
    }
  }

  lemma CountsFromStart(ms: seq<Message>, start: nat, end: nat, x: nat, cfg: EscalationConfig)
    requires end <= |ms|
    ensures Counts(ms, start, end, x, cfg) ==> start <= x < end
  {
  }

  /** After a tool turn either its own results are counted or none. */
  lemma LastOrNone(ms: seq<Message>, start: nat, i: nat, cfg: EscalationConfig)
    requires start <= i < |ms| && ToolTurn(ms[i], cfg)
    ensures i in Owing([], ms, start, i + 1, cfg) <==> EndsFailing(ms[i], cfg)
    ensures !EndsFailing(ms[i], cfg) ==> Owing([], ms, start, i + 1, cfg) == []
  {
    hide ToolResultFailures;
    OwingExactly([], ms, start, i + 1, i, cfg);
  }

  /** A result counted at n is still counted after i if nothing passed in between. */
  lemma StillOwing(ms: seq<Message>, start: nat, n: nat, i: nat, x: nat, cfg: EscalationConfig)
    requires start <= n <= i < |ms|
    ensures x in Owing([], ms, start, i + 1, cfg) && x < n
            <==> NoPass(ms, n, i + 1, cfg) && x in Owing([], ms, start, n, cfg)
  {
    hide EndsFailing, Owing, NonePassed;
    OwingExactly([], ms, start, i + 1, x, cfg);
    OwingExactly([], ms, start, n, x, cfg);
  }

  // ---------------------------------------------------------------- two signals, one result

  predicate SomeShared(a: seq<nat>, b: seq<nat>) {
    exists x :: x in a && x in b
  }

  predicate SomeCounted(ms: seq<Message>, kept: seq<nat>, start: nat, end: nat, cfg: EscalationConfig)
    requires end <= |ms|
  {
    exists x :: x in kept && Counts(ms, start, end, x, cfg)
  }

  /** What is still counted at a crossing of the results carried in. */
  function Kept(ms: seq<Message>, carried: seq<nat>, start: nat, i: nat, cfg: EscalationConfig): seq<nat>
    requires i < |ms|
  {
    if NoPass(ms, start, i + 1, cfg) then carried else []
  }

  /** Both windows hold the earlier of two crossings, it ends failing, and nothing passes between them. */
  predicate ScannedByBoth(ms: seq<Message>, start1: nat, i1: nat, start2: nat, i2: nat, cfg: EscalationConfig)
    requires i1 < |ms| && i2 < |ms|
  {
    var earlier: nat, later: nat := Min(i1, i2), Max(i1, i2);
    Max(start1, start2) <= earlier && EndsFailing(ms[earlier], cfg) && NoPass(ms, earlier + 1, later + 1, cfg)
  }

  /** A result counted by two signals was carried in by both, or by one and scanned by the other, or
      scanned by both. */
  predicate CommonEvidence(ms: seq<Message>, carried1: seq<nat>, start1: nat, i1: nat,
                           carried2: seq<nat>, start2: nat, i2: nat, cfg: EscalationConfig)
    requires i1 < |ms| && i2 < |ms|
  {
    var kept1, kept2 := Kept(ms, carried1, start1, i1, cfg), Kept(ms, carried2, start2, i2, cfg);
    || SomeShared(kept1, kept2)
    || SomeCounted(ms, kept1, start2, i2 + 1, cfg)
    || SomeCounted(ms, kept2, start1, i1 + 1, cfg)
    || ScannedByBoth(ms, start1, i1, start2, i2, cfg)
  }

  lemma KeptOrCounted(carried: seq<nat>, ms: seq<Message>, start: nat, i: nat, x: nat, cfg: EscalationConfig)
    requires start <= i < |ms| && forall y :: y in carried ==> y < start
    ensures x in Owing(carried, ms, start, i + 1, cfg)
            <==> x in Kept(ms, carried, start, i, cfg) || Counts(ms, start, i + 1, x, cfg)
  {
    hide Owing, Counts, NoPass;
    OwingExactly(carried, ms, start, i + 1, x, cfg);
  }

  /** A result scanned and counted at both crossings exists exactly if the earlier crossing's own does. */
  lemma CountedByBoth(ms: seq<Message>, start1: nat, i1: nat, start2: nat, i2: nat, x: nat, cfg: EscalationConfig)
    requires start1 <= i1 < |ms| && start2 <= i2 < |ms| && ToolTurn(ms[i1], cfg) && ToolTurn(ms[i2], cfg)
    ensures Counts(ms, start1, i1 + 1, x, cfg) && Counts(ms, start2, i2 + 1, x, cfg) ==>
              ScannedByBoth(ms, start1, i1, start2, i2, cfg)
    ensures ScannedByBoth(ms, start1, i1, start2, i2, cfg) ==>
              Counts(ms, start1, i1 + 1, Min(i1, i2), cfg) && Counts(ms, start2, i2 + 1, Min(i1, i2), cfg)
  {
    hide EndsFailing, NonePassed, ToolTurn;
    var earlier: nat, later: nat := Min(i1, i2), Max(i1, i2);
    if Counts(ms, start1, i1 + 1, x, cfg) && Counts(ms, start2, i2 + 1, x, cfg) {
      assert NoPass(ms, x + 1, later + 1, cfg);
      if x < earlier {
        FailingTurnEndsFailing(ms[earlier], cfg);
      }
      assert NoPass(ms, earlier + 1, later + 1, cfg);
    }
  }

  lemma FailingTurnEndsFailing(m: Message, cfg: EscalationConfig)
    requires ToolTurn(m, cfg) && NonePassed(m, cfg)
    ensures EndsFailing(m, cfg)
  {
    hide ToolResultFailures;
    var flags := ToolResultFailures(m, cfg).GetOr([]);
    assert flags == ToolResultFailures(m, cfg).value && flags[|flags| - 1] in flags;
  }

  lemma CommonExactly(ms: seq<Message>, carried1: seq<nat>, start1: nat, i1: nat,
                      carried2: seq<nat>, start2: nat, i2: nat, cfg: EscalationConfig)
    requires start1 <= i1 < |ms| && start2 <= i2 < |ms| && ToolTurn(ms[i1], cfg) && ToolTurn(ms[i2], cfg)
    requires forall y :: y in carried1 ==> y < start1
    requires forall y :: y in carried2 ==> y < start2
    ensures SomeShared(Owing(carried1, ms, start1, i1 + 1, cfg), Owing(carried2, ms, start2, i2 + 1, cfg))
            <==> CommonEvidence(ms, carried1, start1, i1, carried2, start2, i2, cfg)
  {
    hide Owing, Counts, ScannedByBoth, Kept, ToolTurn;
    var a, b := Owing(carried1, ms, start1, i1 + 1, cfg), Owing(carried2, ms, start2, i2 + 1, cfg);
    forall x: nat
      ensures x in a <==> x in Kept(ms, carried1, start1, i1, cfg) || Counts(ms, start1, i1 + 1, x, cfg)
      ensures x in b <==> x in Kept(ms, carried2, start2, i2, cfg) || Counts(ms, start2, i2 + 1, x, cfg)
      ensures Counts(ms, start1, i1 + 1, x, cfg) && Counts(ms, start2, i2 + 1, x, cfg) ==>
                ScannedByBoth(ms, start1, i1, start2, i2, cfg)
    {
      KeptOrCounted(carried1, ms, start1, i1, x, cfg);
      KeptOrCounted(carried2, ms, start2, i2, x, cfg);
      CountedByBoth(ms, start1, i1, start2, i2, x, cfg);
    }
    CountedByBoth(ms, start1, i1, start2, i2, 0, cfg);
    var earlier: nat := Min(i1, i2);
    assert ScannedByBoth(ms, start1, i1, start2, i2, cfg) ==> earlier in a && earlier in b;
  }

  /** Exactly when the tool signals of two calls on prefixes of one history count a common result,
      wherever their scan states come from. */
  lemma SharedEvidenceExactly(ms: seq<Message>, n1: nat, scan1: ScanState, owing1: seq<nat>,
                              n2: nat, scan2: ScanState, owing2: seq<nat>, cfg: EscalationConfig)
    requires n1 <= |ms| && n2 <= |ms| && Attributes(scan1, owing1) && Attributes(scan2, owing2)
    ensures var crossing1, crossing2 := CrossingOf(ms[..n1], scan1, cfg), CrossingOf(ms[..n2], scan2, cfg);
            crossing1.Some? && crossing2.Some? ==>
              crossing1.value < n1 && crossing2.value < n2
              && (SomeShared(EvidenceOf(ms[..n1], false, scan1, owing1, cfg),
                             EvidenceOf(ms[..n2], false, scan2, owing2, cfg))
                  <==> CommonEvidence(ms, CarriedIn(n1, scan1, owing1), WindowStart(n1, scan1), crossing1.value,
                                      CarriedIn(n2, scan2, owing2), WindowStart(n2, scan2), crossing2.value, cfg))
  {
    hide Owing, CommonEvidence, FirstCrossing, Detected, SomeShared, Crosses;
    var crossing1, crossing2 := CrossingOf(ms[..n1], scan1, cfg), CrossingOf(ms[..n2], scan2, cfg);
    if crossing1.Some? && crossing2.Some? {
      OwingOnPrefix(CarriedIn(n1, scan1, owing1), ms, n1, WindowStart(n1, scan1), crossing1.value + 1, cfg);
      OwingOnPrefix(CarriedIn(n2, scan2, owing2), ms, n2, WindowStart(n2, scan2), crossing2.value + 1, cfg);
      CrossingIsToolTurn(ms, n1, scan1, cfg);
      CrossingIsToolTurn(ms, n2, scan2, cfg);
      CommonExactly(ms, CarriedIn(n1, scan1, owing1), WindowStart(n1, scan1), crossing1.value,
                    CarriedIn(n2, scan2, owing2), WindowStart(n2, scan2), crossing2.value, cfg);
    }
  }

  /** Two crossings that carry the same in count a common result exactly if both still count what they
      carried, or both scanned it. */
  lemma CommonOfSameCarried(ms: seq<Message>, carried: seq<nat>, start1: nat, i1: nat, start2: nat, i2: nat,
                            cfg: EscalationConfig)
    requires i1 < |ms| && i2 < |ms|
    requires forall x :: x in carried ==> x < start1 && x < start2
    ensures CommonEvidence(ms, carried, start1, i1, carried, start2, i2, cfg)
            <==> (carried != [] && NoPass(ms, start1, i1 + 1, cfg) && NoPass(ms, start2, i2 + 1, cfg))
                 || ScannedByBoth(ms, start1, i1, start2, i2, cfg)
  {
    hide EndsFailing, NoPass, ScannedByBoth;
    if carried != [] {
      assert carried[0] in carried;
    }
  }

  /** A window that starts after a crossing and carries nothing in has nothing in common with it. */
  lemma NothingCommon(ms: seq<Message>, carried: seq<nat>, start1: nat, i1: nat, start2: nat, i2: nat,
                      cfg: EscalationConfig)
    requires i1 < |ms| && i2 < |ms| && i1 < start2 && forall x :: x in carried ==> x < start2
    ensures !CommonEvidence(ms, carried, start1, i1, [], start2, i2, cfg)
  {
    hide EndsFailing, NoPass;
  }

  /** A failing tool turn right after the watermark, ten answers, and another failing tool turn. */
  function TwoFailures(scan: ScanState, cfg: EscalationConfig): seq<Message> {
    var failing := FailingTurn(Max(1, cfg.consecutiveToolFailures - scan.consecFailures));
    Quiet(scan.msgCount) + [failing] + Quiet(MAX_TAIL) + [failing]
  }

  /** Evidence can be counted twice without any message being scanned twice: both calls start from
      the same scan state and carry the same results in, but their windows have nothing in common. */
  lemma CarriedEvidenceCountsTwice(scan: ScanState, owing: seq<nat>, cfg: EscalationConfig)
    requires Attributes(scan, owing) && owing != []
    ensures var n, long := Max(1, cfg.consecutiveToolFailures - scan.consecFailures), TwoFailures(scan, cfg);
            var short := long[..scan.msgCount + 1];
            && Detected(MessageList(short), false, scan, cfg).0 == ToolFailures(scan.consecFailures + n)
            && Detected(MessageList(long), false, scan, cfg).0 == ToolFailures(scan.consecFailures + n)
            && (forall i :: !(InWindow(i, |short|, scan) && InWindow(i, |long|, scan)))
            && SomeShared(EvidenceOf(short, false, scan, owing, cfg), EvidenceOf(long, false, scan, owing, cfg))
  {
    hide FailingTurn, EvidenceOf, Detected;
    var long := TwoFailures(scan, cfg);
    var p := scan.msgCount;
    LoneFailureKeeps(long[..p + 1], p, scan, owing, cfg);
    LoneFailureKeeps(long, p + 1 + MAX_TAIL, scan, owing, cfg);
  }

  lemma LoneFailureKeeps(ms: seq<Message>, p: nat, scan: ScanState, owing: seq<nat>, cfg: EscalationConfig)
    requires Attributes(scan, owing) && owing != [] && scan.msgCount <= p && |ms| == p + 1
    requires ms[p] == FailingTurn(Max(1, cfg.consecutiveToolFailures - scan.consecFailures))
    requires forall i :: WindowStart(|ms|, scan) <= i < p ==> ms[i] == ANSWER
    ensures Detected(MessageList(ms), false, scan, cfg).0
            == ToolFailures(scan.consecFailures + Max(1, cfg.consecutiveToolFailures - scan.consecFailures))
    ensures owing[0] in EvidenceOf(ms, false, scan, owing, cfg)
  {
    hide FailingTurn, Streak, Results, ToolSignal, Owing, FirstCrossing, Counts, RetryHit;
    var n, start := Max(1, cfg.consecutiveToolFailures - scan.consecFailures), WindowStart(|ms|, scan);
    LoneFailingTurn(ms, start, p, n, scan.consecFailures, cfg);
    EvidenceIsReported(ms, scan, owing, cfg);
    NothingPassed(ms, start, p, n, cfg);
    var crossing := CrossingOf(ms, scan, cfg).value;
    OwingExactly(owing, ms, start, crossing + 1, owing[0], cfg);
  }

  lemma NothingPassed(ms: seq<Message>, start: nat, p: nat, n: nat, cfg: EscalationConfig)
    requires start <= p < |ms| && n > 0 && ms[p] == FailingTurn(n)
    requires forall i :: start <= i < p ==> ms[i] == ANSWER
    ensures NoPass(ms, start, p + 1, cfg)
  {
    FailingTurnResults(n, cfg);
    hide FailingTurn;
  }

  // ---------------------------------------------------------------- gaps longer than a window

  /** The first message from `from` on in which a result passed, or the end. */
  function FirstPass(ms: seq<Message>, from: nat, cfg: EscalationConfig): (r: nat)
    requires from <= |ms|
    ensures from <= r <= |ms| && NoPass(ms, from, r, cfg)
    ensures r < |ms| ==> !NonePassed(ms[r], cfg)
    decreases |ms| - from
  {
    if from == |ms| || !NonePassed(ms[from], cfg) then from else FirstPass(ms, from + 1, cfg)
  }

  /** As long as nothing passes, the count only grows with the results seen. */
  lemma {:induction false} LeadCrosses(ms: seq<Message>, start: nat, end: nat, carry: int, cfg: EscalationConfig)
    requires start <= end <= |ms| && NoPass(ms, start, end, cfg)
    ensures var lead := |Results(ms[start..end], cfg)|;
            && Streak(carry, Results(ms[start..end], cfg)) == carry + lead
            && (SomeCrossing(ms, start, end, carry, cfg) <==> lead > 0 && carry + lead >= cfg.consecutiveToolFailures)
    decreases end
  {
    hide Streak, ToolResultFailures;
    if start == end {
      NothingScanned(ms, start, carry, cfg);
      assert ms[start..end] == [];
    } else {
      LeadCrosses(ms, start, end - 1, carry, cfg);
      var seen, flags := Results(ms[start..end - 1], cfg), ToolResultFailures(ms[end - 1], cfg).GetOr([]);
      assert ms[start..end][..end - 1 - start] == ms[start..end - 1];
      StreakAppend(carry, seen, flags);
      assert NonePassed(ms[end - 1], cfg) && forall i :: 0 <= i < |flags| ==> flags[i] in flags;
      AllFailing(Streak(carry, seen), flags);
      OneMoreCrossing(ms, start, end, carry, cfg);
    }
  }

  lemma OneMoreCrossing(ms: seq<Message>, start: nat, end: nat, carry: int, cfg: EscalationConfig)
    requires start < end <= |ms|
    ensures SomeCrossing(ms, start, end, carry, cfg)
            <==> SomeCrossing(ms, start, end - 1, carry, cfg) || Crosses(ms, start, end - 1, carry, cfg)
  {
    hide Crosses;
    if i :| start <= i < end && Crosses(ms, start, i, carry, cfg) {
      assert i < end - 1 || i == end - 1;
    }
  }

  /** Some crossing at or after the first pass, where the count carried in no longer matters. */
  predicate CrossesLate(ms: seq<Message>, start: nat, carry: int, cfg: EscalationConfig)
    requires start <= |ms|
  {
    exists i :: FirstPass(ms, start, cfg) <= i < |ms| && Crosses(ms, start, i, carry, cfg)
  }

  /** How a crossing depends on the count carried in: only the results before the first pass add to it. */
  lemma CrossingByLead(ms: seq<Message>, start: nat, carry: int, cfg: EscalationConfig)
    requires start <= |ms|
    ensures var lead := |Results(ms[start..FirstPass(ms, start, cfg)], cfg)|;
            SomeCrossing(ms, start, |ms|, carry, cfg)
            <==> CrossesLate(ms, start, carry, cfg) || (lead > 0 && carry + lead >= cfg.consecutiveToolFailures)
  {
    hide Crosses, Results, Streak, NoPass;
    var f := FirstPass(ms, start, cfg);
    LeadCrosses(ms, start, f, carry, cfg);
    if i :| start <= i < |ms| && Crosses(ms, start, i, carry, cfg) {
      assert i < f || f <= i;
    }
    if i :| start <= i < f && Crosses(ms, start, i, carry, cfg) {
      assert SomeCrossing(ms, start, |ms|, carry, cfg);
    }
  }

  lemma LateIsIndependent(ms: seq<Message>, start: nat, a: int, b: int, cfg: EscalationConfig)
    requires start <= |ms|
    ensures CrossesLate(ms, start, a, cfg) <==> CrossesLate(ms, start, b, cfg)
  {
    hide Results, Streak, NoPass, FirstPass, ToolTurn;
    var f := FirstPass(ms, start, cfg);
    forall i | f <= i < |ms| ensures Crosses(ms, start, i, a, cfg) <==> Crosses(ms, start, i, b, cfg) {
      PassIsSeen(ms, start, f, i, cfg);
      StreakForgets(a, b, Results(ms[start..i + 1], cfg));
    }
  }

  lemma PassIsSeen(ms: seq<Message>, start: nat, f: nat, i: nat, cfg: EscalationConfig)
    requires start <= f <= i < |ms| && !NonePassed(ms[f], cfg)
    ensures false in Results(ms[start..i + 1], cfg)
  {
    hide ToolResultFailures;
    assert ms[start..i + 1] == ms[start..f + 1] + ms[f + 1..i + 1];
    ResultsAppend(ms[start..f + 1], ms[f + 1..i + 1], cfg);
    assert ms[start..f + 1][..f - start] == ms[start..f];
    assert false in ToolResultFailures(ms[f], cfg).GetOr([]);
  }

  /** Past MAX_TAIL one call still raises a tool signal exactly when the batch scan has a crossing if
      and only if the last window crosses after its first pass, or its failing lead decides alike
      with the old count and with the true one, no skipped tool turn having crossed. */
  lemma LongGapSignalAgreesExactly(ms: seq<Message>, scan: ScanState, cfg: EscalationConfig)
    requires Sound(scan) && scan.msgCount + MAX_TAIL < |ms|
    ensures var tail, carry, limit := |ms| - MAX_TAIL, scan.consecFailures, cfg.consecutiveToolFailures;
            var skipped := SomeCrossing(ms, scan.msgCount, tail, carry, cfg);
            var carried := Streak(carry, Results(ms[scan.msgCount..tail], cfg));
            var lead := |Results(ms[tail..FirstPass(ms, tail, cfg)], cfg)|;
            (Detected(MessageList(ms), false, scan, cfg).0.ToolFailures?
             <==> SomeCrossing(ms, scan.msgCount, |ms|, carry, cfg))
            <==> CrossesLate(ms, tail, carry, cfg)
                 || ((lead > 0 && carry + lead >= limit) <==> skipped || (lead > 0 && carried + lead >= limit))
  {
    hide Crosses, Results, Streak, FirstPass, SomeCrossing, CrossesLate, RetryHit;
    var tail, carry := |ms| - MAX_TAIL, scan.consecFailures;
    var carried := Streak(carry, Results(ms[scan.msgCount..tail], cfg));
    ToolSignalExactlyOnCrossing(ms, tail, |ms|, carry, cfg);
    CrossingsSplit(ms, scan.msgCount, tail, |ms|, carry, cfg);
    assert ms[..|ms|] == ms;
    CrossingByLead(ms, tail, carry, cfg);
    CrossingByLead(ms, tail, carried, cfg);
    LateIsIndependent(ms, tail, carry, carried, cfg);
  }
}
