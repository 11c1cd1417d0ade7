/** When a message is scanned twice and spent evidence fires again, over whole runs. */
module Rescans {
  import opened Options
  import opened Policies
  import opened Content
  import opened Escalation
  import opened ScanLaws
  import opened Evidence
  import opened StateMachine
  import opened Store
  import opened Protocol
  import opened Coupling
  import opened Overlap
  import opened Serial

  // ---------------------------------------------------------------- evidence that fires twice

  /** A history whose last message is a failing tool turn, new to a scan state, with enough failing
      results to reach the threshold. */
  function FailingNow(scan: ScanState, cfg: EscalationConfig): Turn {
    var n := Max(1, cfg.consecutiveToolFailures - scan.consecFailures);
    Turn(Quiet(scan.msgCount) + [FailingTurn(n)] + Quiet(0), false)
  }

  lemma FailingNowEscalates(p: PoliciesConfig, r: Record)
    requires p.Valid() && r.Pinned? && Escalate(p, r).Some?
    ensures var o := ServeTurn(p, r, FailingNow(r.scan, p.escalation));
            o.applied.ToolFailures? && o.write && o.record.escalations == r.escalations + 1
  {
    hide Detected, FailingTurn, Quiet;
    FailingTurnFires(r.scan.msgCount, Max(1, p.escalation.consecutiveToolFailures - r.scan.consecFailures), 0,
                     r.scan, p.escalation);
  }

  /** Two requests arrive; the first one reads, and then either its write-back, if it has one, is lost
      before the second one reads, or it comes after. */
  function TwoReads(k: string, a: nat, ta: Turn, b: nat, tb: Turn, lost: bool): seq<Label> {
    [Arrive(a, Plain(k, ta)), Arrive(b, Plain(k, tb)), Serve(a, true)]
    + if lost then [Serve(a, false), Serve(b, true)] else [Serve(b, true), Serve(a, true)]
  }

  /** Both act on the same stored record, and both log what they do to it. */
  lemma TwoReadsOfOneRecord(e: Env, s: State, k: string, a: nat, ta: Turn, b: nat, tb: Turn, lost: bool)
    requires e.Valid() && a != b && a !in s.requests && b !in s.requests
    requires StoredPinned(s, k) && ServeTurn(e.policies, s.db.cells[k].record, ta).write
    ensures var r := s.db.cells[k].record;
            RunFrom(e, s, TwoReads(k, a, ta, b, tb, lost)).events
            == s.events + EscalationEvent(k, r, ServeTurn(e.policies, r, ta))
               + EscalationEvent(k, r, ServeTurn(e.policies, r, tb))
  {
    hide ServeTurn, Next, Plain, UpdateCommand, EscalationEvent;
    TwoArrivals(e, s, k, a, ta, b, tb);
    var l1, l2 := Arrive(a, Plain(k, ta)), Arrive(b, Plain(k, tb));
    var s2 := Next(e, Next(e, s, l1), l2);
    var s3 := Next(e, s2, Serve(a, true));
    PinnedRead(e, s2, a, k, ta);
    if lost {
      LostWriteBack(e, s3, a, k);
      PinnedRead(e, Next(e, s3, Serve(a, false)), b, k, tb);
      assert TwoReads(k, a, ta, b, tb, lost) == [l1, l2, Serve(a, true), Serve(a, false), Serve(b, true)];
      FiveSteps(e, s, l1, l2, Serve(a, true), Serve(a, false), Serve(b, true));
    } else {
      PinnedRead(e, s3, b, k, tb);
      WriteBack(e, Next(e, s3, Serve(b, true)), a, k);
      assert TwoReads(k, a, ta, b, tb, lost) == [l1, l2, Serve(a, true), Serve(b, true), Serve(a, true)];
      FiveSteps(e, s, l1, l2, Serve(a, true), Serve(b, true), Serve(a, true));
    }
  }

  /** Spent evidence also fires twice without any shrink, from any state whose stored record can
      escalate: two requests carry the same failing history; if the first one's write-back is lost,
      or if the second one reads before it, both escalate on that one history. */
  lemma EvidenceFiresTwice(e: Env, s: State, k: string, a: nat, b: nat, lost: bool)
    requires e.Valid() && a != b && a !in s.requests && b !in s.requests
    requires StoredPinned(s, k) && Escalate(e.policies, s.db.cells[k].record).Some?
    ensures var r := s.db.cells[k].record;
            var turn := FailingNow(r.scan, e.policies.escalation);
            var o := ServeTurn(e.policies, r, turn);
            var event := Escalated(k, o.record.model, o.record.policyName, o.applied, r.model, r.escalations + 1);
            o.applied.ToolFailures?
            && RunFrom(e, s, TwoReads(k, a, turn, b, turn, lost)).events == s.events + [event, event]
  {
    hide ServeTurn, Escalate, FailingNow, RunFrom;
    var r := s.db.cells[k].record;
    var turn := FailingNow(r.scan, e.policies.escalation);
    FailingNowEscalates(e.policies, r);
    TwoReadsOfOneRecord(e, s, k, a, turn, b, turn, lost);
    var event := EscalationEvent(k, r, ServeTurn(e.policies, r, turn));
    assert s.events + event + event == s.events + (event + event);
  }

  /** And it does so even if the two requests scan no common message: if the stored record carries any
      failures, a longer history lets the second one count them again. */
  lemma CarriedEvidenceFiresTwice(e: Env, s: State, k: string, a: nat, b: nat, owing: seq<nat>, lost: bool)
    requires e.Valid() && a != b && a !in s.requests && b !in s.requests
    requires StoredPinned(s, k) && Escalate(e.policies, s.db.cells[k].record).Some?
    requires Attributes(s.db.cells[k].record.scan, owing) && owing != []
    ensures var r, cfg := s.db.cells[k].record, e.policies.escalation;
            var long := TwoFailures(r.scan, cfg);
            var short := long[..r.scan.msgCount + 1];
            var o1, o2 := ServeTurn(e.policies, r, Turn(short, false)), ServeTurn(e.policies, r, Turn(long, false));
            && o1.applied.ToolFailures? && o2.applied.ToolFailures?
            && RunFrom(e, s, TwoReads(k, a, Turn(short, false), b, Turn(long, false), lost)).events
               == s.events + EscalationEvent(k, r, o1) + EscalationEvent(k, r, o2)
            && (forall i :: !(InWindow(i, |short|, r.scan) && InWindow(i, |long|, r.scan)))
            && SomeShared(EvidenceOf(short, false, r.scan, owing, cfg), EvidenceOf(long, false, r.scan, owing, cfg))
  {
    hide Detected, EvidenceOf, TwoFailures, RunFrom, Escalate, EscalationEvent;
    var r, cfg := s.db.cells[k].record, e.policies.escalation;
    var long := TwoFailures(r.scan, cfg);
    assert |long| > r.scan.msgCount by { TwoFailuresAreLong(r.scan, cfg); }
    CarriedEvidenceCountsTwice(r.scan, owing, cfg);
    TwoReadsOfOneRecord(e, s, k, a, Turn(long[..r.scan.msgCount + 1], false), b, Turn(long, false), lost);
  }

  lemma TwoFailuresAreLong(scan: ScanState, cfg: EscalationConfig)
    ensures |TwoFailures(scan, cfg)| == scan.msgCount + MAX_TAIL + 2
  {
  }

  // ---------------------------------------------------------------- messages that are scanned twice

  /** The messages that a pinned read has its detector look at. */
  predicate Scans(s: State, l: Label, k: string, m: int)
    requires ReadsPinned(s, l, k)
  {
    var turn := s.requests[l.id].info.turn;
    !turn.escalateHeader && InWindow(m, |turn.messages|, s.db.cells[k].record.scan)
  }

  /** A pinned read of a history shorter than the stored watermark. */
  predicate ReadsShrunk(s: State, l: Label, k: string) {
    ReadsPinned(s, l, k)
    && var turn := s.requests[l.id].info.turn;
       !turn.escalateHeader && |turn.messages| < s.db.cells[k].record.scan.msgCount
  }

  /** Two pinned reads of one session scan a common message if and only if both scan at all, the
      later history is not a whole window longer, and either it is shorter than the stored watermark
      or that watermark does not cover what the earlier read saw. */
  lemma RescannedExactly(s: State, l: Label, t: State, m: Label, k: string)
    requires ReadsPinned(s, l, k) && ReadsPinned(t, m, k)
    ensures var first, second := s.requests[l.id].info.turn, t.requests[m.id].info.turn;
            var n, n2, mark := |first.messages|, |second.messages|, t.db.cells[k].record.scan.msgCount;
            (exists i :: Scans(s, l, k, i) && Scans(t, m, k, i))
            <==> && !first.escalateHeader && !second.escalateHeader
                 && WindowStart(n, s.db.cells[k].record.scan) < Min(n, n2) && n2 < n + MAX_TAIL
                 && (n2 < mark || mark < Min(n, n2))
  {
    var first, second := s.requests[l.id].info.turn, t.requests[m.id].info.turn;
    var n, n2, scan := |first.messages|, |second.messages|, t.db.cells[k].record.scan;
    var i := Max(WindowStart(n, s.db.cells[k].record.scan), WindowStart(n2, scan));
    if !first.escalateHeader && !second.escalateHeader && i < Min(n, n2) {
      assert Scans(s, l, k, i) && Scans(t, m, k, i);
    }
  }

  // ---------------------------------------------------------------- where a read's outcome gets to

  /** The results behind the count of the record that serving a turn leaves. */
  function TakenOwing(p: PoliciesConfig, r: Record, turn: Turn, owing: seq<nat>): seq<nat>
    requires p.Valid() && r.Pinned?
  {
    if ServeTurn(p, r, turn).applied.NoSignal?
    then OwingAfter(turn.messages, turn.escalateHeader, r.scan, owing, p.escalation)
    else []
  }

  /** In every run, every count stored, held or on its way is made of results of messages seen before. */
  lemma EveryCountIsAttributed(e: Env, now: int, labels: seq<Label>, key: string, r: Record)
    requires e.Valid() && HasPin(e, Run(e, now, labels), key, r)
    ensures exists owing :: Attributes(r.scan, owing)
  {
    var owing := seq(r.scan.consecFailures, i => 0);
    assert Attributes(r.scan, owing);
  }

  /** Who holds a record based on a given pinned read: the store, and the requests that took one
      along; and the results that each one's count is made of. */
  datatype Trail = Trail(stored: Option<seq<nat>>, carriers: map<nat, seq<nat>>)

  /** Right after the read, only its own request does, and the store too if there was nothing to
      write. */
  function TrailStart(e: Env, s: State, l: Label, k: string, owing: seq<nat>): Trail
    requires e.Valid() && ReadsPinned(s, l, k)
  {
    var r, turn := s.db.cells[k].record, s.requests[l.id].info.turn;
    var taken := TakenOwing(e.policies, r, turn, owing);
    Trail(if ServeTurn(e.policies, r, turn).write then None else Some(taken), map[l.id := taken])
  }

  /** A later pinned read takes along what is stored; a write stores what its request took along. */
  function TrailStep(e: Env, s: State, l: Label, k: string, trail: Trail): Trail
    requires e.Valid()
  {
    if ReadsPinned(s, l, k) then
      match trail.stored
      case Some(owing) =>
        var taken := TakenOwing(e.policies, s.db.cells[k].record, s.requests[l.id].info.turn, owing);
        trail.(carriers := trail.carriers[l.id := taken])
      case None => trail
    else
      match Written(s, l, k)
      case Some(w) => trail.(stored := if w.id in trail.carriers then Some(trail.carriers[w.id]) else None)
      case None => trail
  }

  /** The trail of a pinned read l of k in state s, whose record's count is made of `owing`. */
  function TrailAfter(e: Env, s: State, l: Label, more: seq<Label>, k: string, owing: seq<nat>): Trail
    requires e.Valid() && ReadsPinned(s, l, k)
  {
    if more == [] then TrailStart(e, s, l, k, owing)
    else TrailStep(e, RunFrom(e, Next(e, s, l), more[..|more| - 1]), more[|more| - 1], k,
                   TrailAfter(e, s, l, more[..|more| - 1], k, owing))
  }

  /** No pinned read of k among these steps finds its history shrunk. */
  predicate NothingShrinks(e: Env, s: State, more: seq<Label>, k: string)
    requires e.Valid()
  {
    more == []
    || (NothingShrinks(e, s, more[..|more| - 1], k)
        && !ReadsShrunk(RunFrom(e, s, more[..|more| - 1]), more[|more| - 1], k))
  }

  /** The record covers n messages, `owing` is what its count is made of, and if the escalation of the
      read that saw the n messages was applied, none of that is among them. */
  predicate Covers(r: Record, owing: seq<nat>, n: nat, spent: bool) {
    && r.Pinned?
    && n <= r.scan.msgCount
    && Attributes(r.scan, owing)
    && (spent ==> forall x :: x in owing ==> n <= x)
  }

  /** Every record based on the read covers the n messages it saw. */
  ghost predicate TrailCovers(s: State, k: string, n: nat, spent: bool, trail: Trail) {
    && (trail.stored.Some? && StoredPinned(s, k) ==> Covers(s.db.cells[k].record, trail.stored.value, n, spent))
    && (forall id :: id in trail.carriers ==>
          OnKey(s, id, k)
          && (s.requests[id].pc.Done?
              || (s.requests[id].pc.Updating? && Covers(s.requests[id].pc.record, trail.carriers[id], n, spent))))
    && (forall d :: d in s.late && WritesRecord(d.command) && d.command.key == k && d.id in trail.carriers ==>
          Covers(d.command.record, trail.carriers[d.id], n, spent))
  }

  /** A request whose record write is on its way has nothing else to do. */
  predicate LateAreDone(s: State) {
    forall d :: d in s.late && WritesRecord(d.command) ==> d.id in s.requests && s.requests[d.id].pc.Done?
  }

  lemma StepKeepsLateDone(e: Env, s: State, l: Label)
    requires e.Valid() && LateAreDone(s)
    ensures LateAreDone(Next(e, s, l))
  {
    hide Next;
    forall d | d in Next(e, s, l).late && WritesRecord(d.command)
      ensures d.id in Next(e, s, l).requests && Next(e, s, l).requests[d.id].pc.Done?
    {
      NewPending(e, s, l, d);
      if d in s.late { DoneStaysPut(e, s, l, d.id); }
    }
  }

  lemma {:induction false} RunKeepsLateDone(e: Env, now: int, labels: seq<Label>)
    requires e.Valid()
    ensures LateAreDone(Run(e, now, labels))
  {
    hide Next;
    if labels != [] {
      RunKeepsLateDone(e, now, labels[..|labels| - 1]);
      StepKeepsLateDone(e, Run(e, now, labels[..|labels| - 1]), labels[|labels| - 1]);
    }
  }

  lemma UpdaterMoves(e: Env, s: State, l: Label, id: nat)
    requires e.Valid() && id in s.requests && s.requests[id].pc.Updating?
    ensures id in Next(e, s, l).requests && Next(e, s, l).requests[id].info == s.requests[id].info
    ensures Next(e, s, l).requests[id].pc == s.requests[id].pc || Next(e, s, l).requests[id].pc.Done?
  {
    hide ServeStore, ServeAnswer, Execute;
    match l
    case Serve(i, answered) =>
      if i in s.requests {
        ServeIsCall(e, s, i, answered);
        WriterIsDone(e, s, i, answered);
      }
    case Answer(i, classify) => AnswerLeavesStore(e, s, i, classify);
    case _ =>
  }

  /** A turn leaves a record that covers its whole history, and whose count is made of nothing else
      than what it says; nothing is left to count if its escalation was applied. */
  lemma TurnCovers(p: PoliciesConfig, r: Record, turn: Turn, owing: seq<nat>)
    requires p.Valid() && r.Pinned? && Attributes(r.scan, owing)
    ensures var o := ServeTurn(p, r, turn);
            Covers(o.record, TakenOwing(p, r, turn, owing), |turn.messages|, !o.applied.NoSignal?)
  {
    hide WindowSignal, Streak, Results, Escalate, Owing;
    AttributionIsKept(turn.messages, turn.escalateHeader, r.scan, owing, p.escalation);
  }

  /** And it keeps covering what the record before covered, unless the history has shrunk. */
  lemma TurnKeepsCover(p: PoliciesConfig, r: Record, turn: Turn, owing: seq<nat>, n: nat, spent: bool)
    requires p.Valid() && Covers(r, owing, n, spent)
    requires turn.escalateHeader || !Shrunk(|turn.messages|, r.scan)
    ensures Covers(ServeTurn(p, r, turn).record, TakenOwing(p, r, turn, owing), n, spent)
  {
    hide WindowSignal, Streak, Results, Escalate, OwingAfter, EvidenceOf;
    AttributionIsKept(turn.messages, turn.escalateHeader, r.scan, owing, p.escalation);
    forall x | x in OwingAfter(turn.messages, turn.escalateHeader, r.scan, owing, p.escalation)
      ensures spent ==> n <= x
    {
      EvidenceIsRecent(turn.messages, turn.escalateHeader, r.scan, owing, p.escalation, x);
    }
  }

  /** Whether the escalation that a read asked for was applied, so that its evidence is spent. */
  predicate Spends(e: Env, s: State, l: Label, k: string)
    requires e.Valid() && ReadsPinned(s, l, k)
  {
    !ServeTurn(e.policies, s.db.cells[k].record, s.requests[l.id].info.turn).applied.NoSignal?
  }

  lemma StartCovers(e: Env, s: State, l: Label, k: string, owing: seq<nat>)
    requires e.Valid() && LateAreDone(s) && ReadsPinned(s, l, k) && Attributes(s.db.cells[k].record.scan, owing)
    ensures TrailCovers(Next(e, s, l), k, |s.requests[l.id].info.turn.messages|, Spends(e, s, l, k),
                        TrailStart(e, s, l, k, owing))
  {
    hide Next, ServeTurn, TakenOwing, Covers;
    var r, turn := s.db.cells[k].record, s.requests[l.id].info.turn;
    PinnedRead(e, s, l.id, k, turn);
    TurnCovers(e.policies, r, turn, owing);
    SkippedWriteIsNoChange(e.policies, r, turn);
  }

  lemma ReadKeepsCover(e: Env, s: State, l: Label, k: string, n: nat, spent: bool, trail: Trail)
    requires e.Valid() && LateAreDone(s) && TrailCovers(s, k, n, spent, trail)
    requires ReadsPinned(s, l, k) && !ReadsShrunk(s, l, k)
    ensures TrailCovers(Next(e, s, l), k, n, spent, TrailStep(e, s, l, k, trail))
  {
    hide Next, ServeTurn, TakenOwing, Covers;
    var r, turn := s.db.cells[k].record, s.requests[l.id].info.turn;
    PinnedRead(e, s, l.id, k, turn);
    if trail.stored.Some? {
      TurnKeepsCover(e.policies, r, turn, trail.stored.value, n, spent);
    }
  }

  lemma CarrierStays(e: Env, s: State, l: Label, k: string, n: nat, spent: bool, trail: Trail, id: nat)
    requires e.Valid() && TrailCovers(s, k, n, spent, trail) && id in trail.carriers
    ensures var t := Next(e, s, l);
            OnKey(s, id, k) && OnKey(t, id, k) && !s.requests[id].pc.Pinning?
            && (t.requests[id].pc.Done?
                || (t.requests[id].pc.Updating? && Covers(t.requests[id].pc.record, trail.carriers[id], n, spent)))
  {
    hide Next, Covers;
    if s.requests[id].pc.Done? { DoneStaysPut(e, s, l, id); } else { UpdaterMoves(e, s, l, id); }
  }

  /** A write stores, and an unanswered one leaves on its way, what its request took along. */
  lemma WrittenIsCovered(s: State, l: Label, k: string, n: nat, spent: bool, trail: Trail)
    requires TrailCovers(s, k, n, spent, trail)
    ensures var w := Written(s, l, k);
            w.Some? && w.value.id in trail.carriers ==> Covers(w.value.record, trail.carriers[w.value.id], n, spent)
  {
    hide Covers;
  }

  lemma PendingIsCovered(e: Env, s: State, l: Label, k: string, n: nat, spent: bool, trail: Trail, d: Pending)
    requires e.Valid() && TrailCovers(s, k, n, spent, trail)
    requires d in Next(e, s, l).late && WritesRecord(d.command) && d.command.key == k && d.id in trail.carriers
    ensures Covers(d.command.record, trail.carriers[d.id], n, spent)
  {
    hide Next, Covers;
    NewPending(e, s, l, d);
  }

  lemma OtherKeepsCover(e: Env, s: State, l: Label, k: string, n: nat, spent: bool, trail: Trail)
    requires e.Valid() && Inv(e, s) && TrailCovers(s, k, n, spent, trail) && !ReadsPinned(s, l, k)
    ensures TrailCovers(Next(e, s, l), k, n, spent, TrailStep(e, s, l, k, trail))
  {
    hide Next, Inv, Covers, Written, ReadsPinned;
    var t := Next(e, s, l);
    StoreAfter(e, s, l, k);
    WrittenIsCovered(s, l, k, n, spent, trail);
    forall id | id in trail.carriers
      ensures OnKey(t, id, k)
              && (t.requests[id].pc.Done?
                  || (t.requests[id].pc.Updating? && Covers(t.requests[id].pc.record, trail.carriers[id], n, spent)))
    {
      CarrierStays(e, s, l, k, n, spent, trail, id);
    }
    forall d | d in t.late && WritesRecord(d.command) && d.command.key == k && d.id in trail.carriers
      ensures Covers(d.command.record, trail.carriers[d.id], n, spent)
    {
      PendingIsCovered(e, s, l, k, n, spent, trail, d);
    }
  }

  lemma {:induction false} TrailStaysCovered(e: Env, now: int, labels: seq<Label>, l: Label, more: seq<Label>,
                                             k: string, owing: seq<nat>)
    requires e.Valid() && ReadsPinned(Run(e, now, labels), l, k)
    requires Attributes(Run(e, now, labels).db.cells[k].record.scan, owing)
    requires NothingShrinks(e, Next(e, Run(e, now, labels), l), more, k)
    ensures var s := Run(e, now, labels);
            TrailCovers(RunFrom(e, Next(e, s, l), more), k, |s.requests[l.id].info.turn.messages|, Spends(e, s, l, k),
                        TrailAfter(e, s, l, more, k, owing))
  {
    hide Next, TrailCovers, TrailStep, Inv, LateAreDone, ReadsShrunk, Attributes, Spends;
    var s := Run(e, now, labels);
    var n, spent := |s.requests[l.id].info.turn.messages|, Spends(e, s, l, k);
    RunKeepsLateDone(e, now, labels);
    if more == [] {
      StartCovers(e, s, l, k, owing);
    } else {
      var init, last := more[..|more| - 1], more[|more| - 1];
      TrailStaysCovered(e, now, labels, l, init, k, owing);
      FromReadIsRun(e, now, labels, l, init);
      RunKeepsInv(e, now, labels + [l] + init);
      RunKeepsLateDone(e, now, labels + [l] + init);
      var u, trail := RunFrom(e, Next(e, s, l), init), TrailAfter(e, s, l, init, k, owing);
      if ReadsPinned(u, last, k) {
        ReadKeepsCover(e, u, last, k, n, spent, trail);
      } else {
        OtherKeepsCover(e, u, last, k, n, spent, trail);
      }
    }
  }

  /** The evidence of a pinned read's signal, given what its record's count is made of. */
  function ReadEvidence(e: Env, s: State, l: Label, k: string, owing: seq<nat>): seq<nat>
    requires e.Valid() && ReadsPinned(s, l, k)
  {
    var turn := s.requests[l.id].info.turn;
    EvidenceOf(turn.messages, turn.escalateHeader, s.db.cells[k].record.scan, owing, e.policies.escalation)
  }

  /** In every run: if the stored record is based on an earlier pinned read and no history shrank in
      between, a later one scans nothing that the earlier one scanned, and if the earlier one's
      escalation was applied, the later signal counts no result that the earlier one counted. */
  lemma ReuseNeedsAShrinkOrALostWrite(e: Env, now: int, labels: seq<Label>, l: Label, more: seq<Label>, m: Label,
                                      k: string, owing: seq<nat>, i: nat)
    requires e.Valid() && ReadsPinned(Run(e, now, labels), l, k)
    requires Attributes(Run(e, now, labels).db.cells[k].record.scan, owing)
    requires ReadsPinned(RunFrom(e, Next(e, Run(e, now, labels), l), more), m, k)
    requires NothingShrinks(e, Next(e, Run(e, now, labels), l), more + [m], k)
    requires TrailAfter(e, Run(e, now, labels), l, more, k, owing).stored.Some?
    ensures var s := Run(e, now, labels);
            var t := RunFrom(e, Next(e, s, l), more);
            var owing2 := TrailAfter(e, s, l, more, k, owing).stored.value;
            && Attributes(t.db.cells[k].record.scan, owing2)
            && !(Scans(s, l, k, i) && Scans(t, m, k, i))
            && (Spends(e, s, l, k) ==> !(i in ReadEvidence(e, s, l, k, owing) && i in ReadEvidence(e, t, m, k, owing2)))
  {
    hide Next, Run, RunFrom, TrailAfter, EvidenceOf, OwingAfter, Spends;
    var s := Run(e, now, labels);
    var t, owing2 := RunFrom(e, Next(e, s, l), more), TrailAfter(e, s, l, more, k, owing).stored.value;
    LastDoesNotShrink(e, Next(e, s, l), more, m, k);
    TrailStaysCovered(e, now, labels, l, more, k, owing);
    var first, second, cfg := s.requests[l.id].info.turn, t.requests[m.id].info.turn, e.policies.escalation;
    EvidenceIsRecent(first.messages, first.escalateHeader, s.db.cells[k].record.scan, owing, cfg, i);
    EvidenceIsRecent(second.messages, second.escalateHeader, t.db.cells[k].record.scan, owing2, cfg, i);
  }

  lemma LastDoesNotShrink(e: Env, s: State, more: seq<Label>, m: Label, k: string)
    requires e.Valid() && NothingShrinks(e, s, more + [m], k)
    ensures NothingShrinks(e, s, more, k) && !ReadsShrunk(RunFrom(e, s, more), m, k)
  {
    hide RunFrom, ReadsShrunk;
    assert (more + [m])[..|more|] == more;
  }

  // ---------------------------------------------------------------- if nobody else writes in between

  /** Among these steps only request id writes k's record. */
  predicate OnlyWriter(e: Env, s: State, more: seq<Label>, k: string, id: nat)
    requires e.Valid()
  {
    more == []
    || (OnlyWriter(e, s, more[..|more| - 1], k, id)
        && var w := Written(RunFrom(e, s, more[..|more| - 1]), more[|more| - 1], k);
           w.Some? ==> w.value.id == id)
  }

  /** The store has what request id found or what it took along, depending on whether it got there. */
  ghost predicate FoundOrTaken(s: State, k: string, id: nat, found: Record, taken: Record, owing: seq<nat>,
                               trail: Trail)
  {
    && id in trail.carriers && trail.carriers[id] == owing
    && (trail.stored.Some? ==> trail.stored.value == owing)
    && (StoredPinned(s, k) ==> s.db.cells[k].record == if trail.stored.Some? then taken else found)
    && OnKey(s, id, k) && (s.requests[id].pc.Done? || s.requests[id].pc == Updating(taken))
    && (forall d :: d in s.late && WritesRecord(d.command) && d.command.key == k && d.id == id ==>
          d.command.record == taken)
  }

  lemma StartTaken(e: Env, s: State, l: Label, k: string, owing: seq<nat>)
    requires e.Valid() && LateAreDone(s) && ReadsPinned(s, l, k)
    ensures var r, turn := s.db.cells[k].record, s.requests[l.id].info.turn;
            FoundOrTaken(Next(e, s, l), k, l.id, r, ServeTurn(e.policies, r, turn).record,
                         TakenOwing(e.policies, r, turn, owing), TrailStart(e, s, l, k, owing))
  {
    hide Next, ServeTurn, TakenOwing;
    var r, turn := s.db.cells[k].record, s.requests[l.id].info.turn;
    PinnedRead(e, s, l.id, k, turn);
    SkippedWriteIsNoChange(e.policies, r, turn);
  }

  lemma StepKeepsTaken(e: Env, s: State, l: Label, k: string, id: nat, found: Record, taken: Record, owing: seq<nat>,
                       trail: Trail)
    requires e.Valid() && Inv(e, s) && FoundOrTaken(s, k, id, found, taken, owing, trail)
    requires Written(s, l, k).Some? ==> Written(s, l, k).value.id == id
    ensures FoundOrTaken(Next(e, s, l), k, id, found, taken, owing, TrailStep(e, s, l, k, trail))
  {
    hide Next, Inv, TakenOwing;
    var t := Next(e, s, l);
    StoreAfter(e, s, l, k);
    if s.requests[id].pc.Done? { DoneStaysPut(e, s, l, id); } else { UpdaterMoves(e, s, l, id); }
    forall d | d in t.late && WritesRecord(d.command) && d.command.key == k && d.id == id
      ensures d.command.record == taken
    {
      NewPending(e, s, l, d);
    }
  }

  lemma {:induction false} OwnWritesOnly(e: Env, now: int, labels: seq<Label>, l: Label, more: seq<Label>, k: string,
                                         owing: seq<nat>)
    requires e.Valid() && ReadsPinned(Run(e, now, labels), l, k)
    requires OnlyWriter(e, Next(e, Run(e, now, labels), l), more, k, l.id)
    ensures var s := Run(e, now, labels);
            var r, turn := s.db.cells[k].record, s.requests[l.id].info.turn;
            FoundOrTaken(RunFrom(e, Next(e, s, l), more), k, l.id, r, ServeTurn(e.policies, r, turn).record,
                         TakenOwing(e.policies, r, turn, owing), TrailAfter(e, s, l, more, k, owing))
  {
    hide Next, FoundOrTaken, TrailStep, Inv, LateAreDone, Written;
    var s := Run(e, now, labels);
    if more == [] {
      RunKeepsLateDone(e, now, labels);
      StartTaken(e, s, l, k, owing);
    } else {
      var init, last := more[..|more| - 1], more[|more| - 1];
      var r, turn := s.db.cells[k].record, s.requests[l.id].info.turn;
      OwnWritesOnly(e, now, labels, l, init, k, owing);
      FromReadIsRun(e, now, labels, l, init);
      RunKeepsInv(e, now, labels + [l] + init);
      StepKeepsTaken(e, RunFrom(e, Next(e, s, l), init), last, k, l.id, r, ServeTurn(e.policies, r, turn).record,
                     TakenOwing(e.policies, r, turn, owing), TrailAfter(e, s, l, init, k, owing));
    }
  }

  /** Whether the earlier read's write-back has reached the store. */
  predicate Reached(e: Env, s: State, l: Label, more: seq<Label>, k: string)
    requires e.Valid() && ReadsPinned(s, l, k)
  {
    TrailAfter(e, s, l, more, k, []).stored.Some?
  }

  /** In every run in which nobody else writes the session's record in between, a later pinned read
      scans again what an earlier one has scanned if and only if its history is shorter than the
      stored watermark, or the earlier read's write-back has not reached the store. */
  lemma RescannedIffShrunkOrUnwritten(e: Env, now: int, labels: seq<Label>, l: Label, more: seq<Label>, m: Label,
                                      k: string)
    requires e.Valid() && ReadsPinned(Run(e, now, labels), l, k) && !ReadsShrunk(Run(e, now, labels), l, k)
    requires OnlyWriter(e, Next(e, Run(e, now, labels), l), more, k, l.id)
    requires ReadsPinned(RunFrom(e, Next(e, Run(e, now, labels), l), more), m, k)
    ensures var s := Run(e, now, labels);
            var t := RunFrom(e, Next(e, s, l), more);
            var first, second := s.requests[l.id].info.turn, t.requests[m.id].info.turn;
            var n, n2 := |first.messages|, |second.messages|;
            (exists i :: Scans(s, l, k, i) && Scans(t, m, k, i))
            <==> && !first.escalateHeader && !second.escalateHeader
                 && WindowStart(n, s.db.cells[k].record.scan) < Min(n, n2) && n2 < n + MAX_TAIL
                 && (ReadsShrunk(t, m, k) || !Reached(e, s, l, more, k))
  {
    hide Next, Run, RunFrom, TrailAfter, Scans, OnlyWriter, TakenOwing;
    var s := Run(e, now, labels);
    var t := RunFrom(e, Next(e, s, l), more);
    RescannedExactly(s, l, t, m, k);
    OwnWritesOnly(e, now, labels, l, more, k, []);
    WatermarkIsExact(e.policies, s.db.cells[k].record, s.requests[l.id].info.turn);
  }

  lemma WatermarkIsExact(p: PoliciesConfig, r: Record, turn: Turn)
    requires p.Valid() && r.Pinned?
    ensures !turn.escalateHeader ==> ServeTurn(p, r, turn).record.scan.msgCount == |turn.messages|
  {
    hide WindowSignal, Streak, Results, Escalate;
  }

  /** The trail does not depend on what the count is made of. */
  lemma {:induction false} SameTrail(e: Env, s: State, l: Label, more: seq<Label>, k: string, owing: seq<nat>)
    requires e.Valid() && ReadsPinned(s, l, k)
    ensures TrailAfter(e, s, l, more, k, owing).stored.Some? <==> Reached(e, s, l, more, k)
    ensures TrailAfter(e, s, l, more, k, owing).carriers.Keys == TrailAfter(e, s, l, more, k, []).carriers.Keys
  {
    hide RunFrom, Next, Written, ServeTurn, TakenOwing;
    if more != [] {
      SameTrail(e, s, l, more[..|more| - 1], k, owing);
    }
  }

  /** What the later read finds: the record that the earlier one took along, with nothing left to
      count, or the one that it found. */
  lemma FindsTakenOrFound(e: Env, now: int, labels: seq<Label>, l: Label, more: seq<Label>, k: string, owing: seq<nat>)
    requires e.Valid() && ReadsPinned(Run(e, now, labels), l, k) && Spends(e, Run(e, now, labels), l, k)
    requires Attributes(Run(e, now, labels).db.cells[k].record.scan, owing)
    requires OnlyWriter(e, Next(e, Run(e, now, labels), l), more, k, l.id)
    requires StoredPinned(RunFrom(e, Next(e, Run(e, now, labels), l), more), k)
    ensures var s := Run(e, now, labels);
            var t, turn := RunFrom(e, Next(e, s, l), more), s.requests[l.id].info.turn;
            var found := t.db.cells[k].record.scan;
            if Reached(e, s, l, more, k)
            then Attributes(found, []) && (!turn.escalateHeader ==> found.msgCount == |turn.messages|)
            else found == s.db.cells[k].record.scan
  {
    hide Next, Run, RunFrom, TrailAfter, OnlyWriter, ServeTurn, OwingAfter;
    var s := Run(e, now, labels);
    var r, turn := s.db.cells[k].record, s.requests[l.id].info.turn;
    OwnWritesOnly(e, now, labels, l, more, k, owing);
    SameTrail(e, s, l, more, k, owing);
    TurnCovers(e.policies, r, turn, owing);
    WatermarkIsExact(e.policies, r, turn);
  }

  lemma AppliedIsRaised(p: PoliciesConfig, r: Record, turn: Turn)
    requires p.Valid() && r.Pinned? && ServeTurn(p, r, turn).applied.ToolFailures?
    ensures !turn.escalateHeader
    ensures Detected(MessageList(turn.messages), false, r.scan, p.escalation).0.ToolFailures?
  {
    hide Scanned, Escalate;
  }

  /** In every run in which nobody else writes the session's record in between: a pinned read escalated
      on tool failures, and a later one, on the same history `ms` grown or cut back, raises a tool
      signal. Whatever the earlier count was made of, the later signal counts a result that the
      earlier one counted if and only if CommonEvidence holds of what each carried and scanned. And
      unless a history shrank, that is: exactly if the write-back has not reached the store, and
      either both still count the failures carried in, or both windows hold the earlier of the two
      failing tool turns with nothing passing between them. */
  lemma EvidenceReusedExactly(e: Env, now: int, labels: seq<Label>, l: Label, more: seq<Label>, m: Label, k: string,
                              owing: seq<nat>, ms: seq<Message>)
    requires e.Valid() && ReadsPinned(Run(e, now, labels), l, k)
    requires Attributes(Run(e, now, labels).db.cells[k].record.scan, owing)
    requires OnlyWriter(e, Next(e, Run(e, now, labels), l), more, k, l.id)
    requires ReadsPinned(RunFrom(e, Next(e, Run(e, now, labels), l), more), m, k)
    requires var s := Run(e, now, labels);
             var t := RunFrom(e, Next(e, s, l), more);
             var first, second := s.requests[l.id].info.turn, t.requests[m.id].info.turn;
             && first.messages <= ms && second.messages <= ms
             && ServeTurn(e.policies, s.db.cells[k].record, first).applied.ToolFailures?
             && !second.escalateHeader
             && CrossingOf(second.messages, t.db.cells[k].record.scan, e.policies.escalation).Some?
    ensures var s := Run(e, now, labels);
            var t := RunFrom(e, Next(e, s, l), more);
            var first, second := s.requests[l.id].info.turn, t.requests[m.id].info.turn;
            var n, n2, cfg := |first.messages|, |second.messages|, e.policies.escalation;
            var scan, scan2 := s.db.cells[k].record.scan, t.db.cells[k].record.scan;
            var owing2 := if Reached(e, s, l, more, k) then [] else owing;
            var start, start2 := WindowStart(n, scan), WindowStart(n2, scan2);
            var c, c2 := CrossingOf(first.messages, scan, cfg), CrossingOf(second.messages, scan2, cfg);
            var reused := SomeShared(ReadEvidence(e, s, l, k, owing), ReadEvidence(e, t, m, k, owing2));
            && Attributes(scan2, owing2)
            && c.Some? && c.value < |ms| && c2.value < |ms|
            && (reused <==> CommonEvidence(ms, CarriedIn(n, scan, owing), start, c.value,
                                           CarriedIn(n2, scan2, owing2), start2, c2.value, cfg))
            && (!ReadsShrunk(s, l, k) && !ReadsShrunk(t, m, k) ==>
                  (reused <==> && !Reached(e, s, l, more, k)
                               && ((owing != [] && NoPass(ms, start, c.value + 1, cfg)
                                    && NoPass(ms, start2, c2.value + 1, cfg))
                                   || ScannedByBoth(ms, start, c.value, start2, c2.value, cfg))))
  {
    hide Next, Run, RunFrom, TrailAfter, OnlyWriter, ServeTurn, EvidenceOf, CrossingOf, CommonEvidence, NoPass,
         ScannedByBoth, SomeShared, Detected, Reached;
    var s := Run(e, now, labels);
    var t := RunFrom(e, Next(e, s, l), more);
    var first, second, cfg := s.requests[l.id].info.turn, t.requests[m.id].info.turn, e.policies.escalation;
    var scan, scan2 := s.db.cells[k].record.scan, t.db.cells[k].record.scan;
    var n, n2 := |first.messages|, |second.messages|;
    FindsTakenOrFound(e, now, labels, l, more, k, owing);
    var owing2 := if Reached(e, s, l, more, k) then [] else owing;
    AppliedIsRaised(e.policies, s.db.cells[k].record, first);
    EvidenceIsReported(first.messages, scan, owing, cfg);
    assert first.messages == ms[..n] && second.messages == ms[..n2];
    SharedEvidenceExactly(ms, n, scan, owing, n2, scan2, owing2, cfg);
    var c, c2 := CrossingOf(first.messages, scan, cfg).value, CrossingOf(second.messages, scan2, cfg).value;
    if !ReadsShrunk(s, l, k) && !ReadsShrunk(t, m, k) {
      if Reached(e, s, l, more, k) {
        NothingCommon(ms, owing, WindowStart(n, scan), c, WindowStart(n2, scan2), c2, cfg);
      } else {
        CommonOfSameCarried(ms, owing, WindowStart(n, scan), c, WindowStart(n2, scan2), c2, cfg);
      }
    }
  }
}
