/** What goes wrong, and exactly when, if write-backs of one session overlap, get lost or land late. */
module Overlap {
  import opened Options
  import opened Policies
  import opened Escalation
  import opened ScanLaws
  import opened StateMachine
  import opened Store
  import opened Protocol
  import opened Coupling
  import opened Theorems

  // ---------------------------------------------------------------- who writes k's record

  /** A record of k that a step stores, and the request it came from. */
  datatype Write = Write(id: nat, record: Record)

  function Written(s: State, l: Label, k: string): Option<Write> {
    if WritesBack(s, l, k) || WritesPin(s, l, k) then Some(Write(l.id, s.requests[l.id].pc.record))
    else if l.Land? && l.pending in s.late && l.pending.command.key == k && WritesRecord(l.pending.command)
    then Some(Write(l.pending.id, l.pending.command.record))
    else None
  }

  lemma AnswerLeavesStore(e: Env, s: State, id: nat, classify: Option<ClassifyResult>)
    requires e.Valid()
    ensures id in s.requests ==>
              var t := ServeAnswer(e, s, id, classify);
              t == s.(requests := s.requests[id := t.requests[id]]) && t.requests[id].pc.Pinning?
              && t.requests[id].info == s.requests[id].info
  {
    hide BuildPinRecord;
  }

  lemma DoneStaysPut(e: Env, s: State, l: Label, c: nat)
    requires e.Valid() && c in s.requests && s.requests[c].pc.Done?
    ensures c in Next(e, s, l).requests && Next(e, s, l).requests[c] == s.requests[c]
  {
    hide ServeStore, ServeAnswer, Execute;
    match l
    case Serve(id, answered) =>
      if id in s.requests { ServeIsCall(e, s, id, answered); }
    case Answer(id, classify) => AnswerLeavesStore(e, s, id, classify);
    case _ =>
  }

  lemma WriteTakesEffect(db: Db, c: Command)
    requires WritesRecord(c)
    ensures c.key in Execute(db, c).cells && Execute(db, c).cells[c.key].record == c.record
  {
  }

  /** Only these writes ever change a pinned record of k or put one there. */
  lemma StoreAfter(e: Env, s: State, l: Label, k: string)
    requires e.Valid() && Inv(e, s)
    ensures var t, w := Next(e, s, l), Written(s, l, k);
            && (w.Some? ==> k in t.db.cells && t.db.cells[k].record == w.value.record)
            && (w.None? && StoredPinned(t, k) ==>
                  StoredPinned(s, k) && t.db.cells[k].record == s.db.cells[k].record)
            && (w.None? && StoredPinned(s, k) && k in t.db.cells ==> StoredPinned(t, k))
  {
    hide ServeStore, ServeAnswer, Execute, RequestOk, CellOk, BuildPinRecord;
    match l
    case Serve(id, answered) =>
      if id in s.requests {
        ServeIsCall(e, s, id, answered);
        var c := CommandOf(e, s.requests[id]);
        if c.Some? && answered {
          if Written(s, l, k).Some? {
            WriteTakesEffect(s.db, c.value);
          } else {
            HarmlessCommand(s.db, c.value, k);
          }
        }
      }
    case Answer(id, classify) => AnswerLeavesStore(e, s, id, classify);
    case Land(d) =>
      if d in s.late {
        assert PendingOk(e, s, d);
        if Written(s, l, k).Some? {
          WriteTakesEffect(s.db, d.command);
        } else {
          HarmlessCommand(s.db, d.command, k);
        }
      }
    case _ =>
  }

  // ---------------------------------------------------------------- how far the claim's winner is

  /** k holds no pinned record, and none is on its way there. */
  ghost predicate Unwritten(s: State, k: string) {
    !StoredPinned(s, k) && (forall j :: !UpdatingOn(s, j, k)) && NoLateWrites(s, k)
  }

  /** As long as the winner of k's claim is not done, nobody else has a pinned record of k. */
  ghost predicate PinFirst(s: State, k: string) {
    forall i :: ClaimedOn(s, i, k) && !s.requests[i].pc.Done? ==> Unwritten(s, k)
  }

  /** A request about to write back was reading a pinned record, or was about to write back before. */
  lemma NewUpdater(e: Env, s: State, l: Label, j: nat, k: string)
    requires e.Valid() && UpdatingOn(Next(e, s, l), j, k)
    ensures (UpdatingOn(s, j, k) && Next(e, s, l).requests[j] == s.requests[j])
            || (l == Serve(j, true) && ReadsPinned(s, l, k))
  {
    hide ServeStore, ServeAnswer, Execute, BuildPinRecord;
    match l
    case Serve(id, answered) =>
      if id in s.requests { ServeIsCall(e, s, id, answered); }
    case Answer(id, classify) => AnswerLeavesStore(e, s, id, classify);
    case _ =>
  }

  /** A request's own write goes unanswered, which is the request's last step. */
  predicate LeavesPending(e: Env, s: State, l: Label, d: Pending)
    requires e.Valid()
  {
    && l == Serve(d.id, false)
    && WritesRecord(d.command)
    && (PinningOn(s, d.id, d.command.key) || UpdatingOn(s, d.id, d.command.key))
    && d.command.record == s.requests[d.id].pc.record
    && d.id in Next(e, s, l).requests && Next(e, s, l).requests[d.id].pc.Done?
  }

  /** A write that is on its way was so before, or was just left unanswered. */
  lemma NewPending(e: Env, s: State, l: Label, d: Pending)
    requires e.Valid() && d in Next(e, s, l).late && WritesRecord(d.command)
    ensures d in s.late || LeavesPending(e, s, l, d)
  {
    hide ServeStore, ServeAnswer, Execute, BuildPinRecord;
    match l
    case Serve(id, answered) =>
      if id in s.requests {
        ServeIsCall(e, s, id, answered);
        WriterIsDone(e, s, id, answered);
      }
    case Answer(id, classify) => AnswerLeavesStore(e, s, id, classify);
    case _ =>
  }

  lemma WriterIsDone(e: Env, s: State, id: nat, answered: bool)
    requires e.Valid() && id in s.requests
    ensures s.requests[id].pc.Pinning? || s.requests[id].pc.Updating? ==>
              ServeStore(e, s, id, answered).requests[id].pc.Done?
  {
    hide PinEvents, Execute, UpdateCommand, ServeRead, ServeClaim, ServeParent;
  }

  /** Until the claim's winner serves its pin, nobody gets hold of a pinned record of k. */
  lemma StaysUnwritten(e: Env, s: State, l: Label, k: string)
    requires e.Valid() && Inv(e, s) && Unwritten(s, k)
    requires l.Serve? ==> !PinningOn(s, l.id, k)
    ensures Unwritten(Next(e, s, l), k)
  {
    hide Next, Inv;
    var t := Next(e, s, l);
    StoreAfter(e, s, l, k);
    forall j ensures !UpdatingOn(t, j, k) {
      if UpdatingOn(t, j, k) {
        NewUpdater(e, s, l, j, k);
      }
    }
    forall d | d in t.late && d.command.key == k ensures !WritesRecord(d.command) {
      if WritesRecord(d.command) {
        NewPending(e, s, l, d);
      }
    }
  }

  /** A pinned record of k, wherever it is, was built by a request that won k's claim. */
  lemma HasPinIsClaimed(e: Env, s: State, k: string, r: Record)
    requires e.Valid() && Inv(e, s) && HasPin(e, s, k, r)
    ensures exists i :: ClaimedOn(s, i, k)
  {
    hide DescendsFrom, LegalModel;
    var i :| PinnedBy(e, s, i, k, r);
    assert RequestOk(e, s, s.requests[i]);
    assert ClaimedOn(s, i, k);
  }

  lemma AbsentIsUnwritten(e: Env, s: State, k: string)
    requires e.Valid() && Inv(e, s) && OneClaim(s, k) && k !in s.db.cells
    ensures Unwritten(s, k)
  {
    hide HasPin, DescendsFrom, LegalModel, Consistent;
    forall j ensures !UpdatingOn(s, j, k) {
      if UpdatingOn(s, j, k) {
        assert RequestOk(e, s, s.requests[j]);
        HasPinIsClaimed(e, s, k, s.requests[j].pc.record);
      }
    }
    forall d | d in s.late && d.command.key == k ensures !WritesRecord(d.command) {
      if WritesRecord(d.command) {
        assert PendingOk(e, s, d);
        HasPinIsClaimed(e, s, k, d.command.record);
      }
    }
  }

  lemma PinningIsClaimed(e: Env, s: State, i: nat, k: string)
    requires e.Valid() && Inv(e, s) && PinningOn(s, i, k)
    ensures ClaimedOn(s, i, k)
  {
    hide HasPin, LegalModel, WellPinned;
    assert RequestOk(e, s, s.requests[i]);
  }

  lemma StepKeepsPinFirst(e: Env, s: State, l: Label, k: string)
    requires e.Valid() && Inv(e, s) && OneClaim(s, k) && OneClaim(Next(e, s, l), k) && PinFirst(s, k)
    ensures PinFirst(Next(e, s, l), k)
  {
    hide Next, Inv, Unwritten, ServeStore;
    var t := Next(e, s, l);
    forall i | ClaimedOn(t, i, k) && !t.requests[i].pc.Done? ensures Unwritten(t, k) {
      NewClaims(e, s, l, i, k);
      if ClaimedOn(s, i, k) {
        if s.requests[i].pc.Done? { DoneStaysPut(e, s, l, i); }
      } else {
        AbsentIsUnwritten(e, s, k);
      }
      if l.Serve? && PinningOn(s, l.id, k) {
        PinningIsClaimed(e, s, l.id, k);
        PinningEnds(e, s, l, k);
        assert false;
      }
      StaysUnwritten(e, s, l, k);
    }
  }

  lemma PinningEnds(e: Env, s: State, l: Label, k: string)
    requires e.Valid() && l.Serve? && PinningOn(s, l.id, k)
    ensures l.id in Next(e, s, l).requests && Next(e, s, l).requests[l.id].pc.Done?
  {
    hide ServeStore;
    ServeIsCall(e, s, l.id, l.answered);
    WriterIsDone(e, s, l.id, l.answered);
  }

  lemma {:induction false} RunKeepsPinFirst(e: Env, now: int, labels: seq<Label>, k: string)
    requires e.Valid() && Kept(e, now, labels, k)
    ensures PinFirst(Run(e, now, labels), k)
  {
    hide Next, PinFirst, Inv, OneClaim;
    if labels == [] {
      assert PinFirst(Init(now), k) by { NobodyClaimed(now, k); }
    } else {
      var init := labels[..|labels| - 1];
      RunKeepsPinFirst(e, now, init, k);
      RunKeepsInv(e, now, init);
      RunKeepsOneClaim(e, now, init, k);
      RunKeepsOneClaim(e, now, labels, k);
      StepKeepsPinFirst(e, Run(e, now, init), labels[|labels| - 1], k);
    }
  }

  lemma NobodyClaimed(now: int, k: string)
    ensures PinFirst(Init(now), k)
  {
  }

  // ---------------------------------------------------------------- the boundary of monotonicity

  /** The step stores a record of k with fewer escalations than the one it replaces. */
  predicate StoresFewer(s: State, l: Label, k: string)
    requires StoredPinned(s, k)
  {
    var w := Written(s, l, k);
    w.Some? && w.value.record.Pinned? && w.value.record.escalations < s.db.cells[k].record.escalations
  }

  lemma WrittenHasPin(e: Env, s: State, l: Label, k: string)
    requires e.Valid() && Inv(e, s) && Written(s, l, k).Some? && !WritesPin(s, l, k)
    ensures Written(s, l, k).value.record.Pinned? && HasPin(e, s, k, Written(s, l, k).value.record)
  {
    hide HasPin, LegalModel, Consistent;
    if WritesBack(s, l, k) {
      assert RequestOk(e, s, s.requests[l.id]);
    } else {
      assert PendingOk(e, s, l.pending);
    }
  }

  /** While the key stays present, over all the ways a step can change the store: the stored tier
      falls if and only if the step is an answered write-back, or a write landing late, whose record
      carries fewer escalations than the one it overwrites. */
  lemma TierFallsExactly(e: Env, now: int, labels: seq<Label>, k: string, l: Label)
    requires e.Valid() && Kept(e, now, labels, k) && StoredPinned(Run(e, now, labels), k)
    requires k in Next(e, Run(e, now, labels), l).db.cells
    ensures var s := Run(e, now, labels);
            var t := Next(e, s, l);
            && StoredPinned(t, k)
            && var before, after := s.db.cells[k].record, t.db.cells[k].record;
            && e.policies.TierIndex(before.policyName).Some? && e.policies.TierIndex(after.policyName).Some?
            && (e.policies.Position(after.policyName) < e.policies.Position(before.policyName)
                <==> StoresFewer(s, l, k))
            && (StoresFewer(s, l, k) ==> WritesBack(s, l, k) || l.Land?)
  {
    hide Run, Kept, Next, DescendsFrom, OneClaim, PinFirst, Unwritten, Inv, Written;
    var s := Run(e, now, labels);
    var t := Next(e, s, l);
    RunKeepsInv(e, now, labels);
    StoreAfter(e, s, l, k);
    assert !WritesPin(s, l, k) by { PinIsWrittenFirst(e, now, labels, k, l); }
    var before := s.db.cells[k].record;
    CellOfInv(e, s, k);
    var i :| PinnedBy(e, s, i, k, before);
    if Written(s, l, k).Some? {
      WrittenHasPin(e, s, l, k);
      var after := Written(s, l, k).value.record;
      var j :| PinnedBy(e, s, j, k, after);
      OnePinPerSession(e, now, labels, k, i, before, j, after);
      TierGapIsEscalationGap(e.policies, s.requests[i].built.value, before, after);
      WrittenIsServedOrLands(s, l, k);
    } else {
      TierGapIsEscalationGap(e.policies, s.requests[i].built.value, before, before);
    }
  }

  /** Over all runs, also if the key gets lost and the session is pinned anew: the stored tier falls
      if and only if a record is written whose pin's position and escalations add up to less. */
  lemma TierFallsAcrossPins(e: Env, now: int, labels: seq<Label>, k: string, l: Label)
    requires e.Valid() && StoredPinned(Run(e, now, labels), k)
    requires k in Run(e, now, labels + [l]).db.cells
    ensures var s, t := Run(e, now, labels), Run(e, now, labels + [l]);
            && StoredPinned(t, k)
            && var p, before, after := e.policies, s.db.cells[k].record, t.db.cells[k].record;
            && p.TierIndex(before.policyName).Some? && p.TierIndex(after.policyName).Some?
            && exists i, j :: Coupled(e, s, i, k, before) && Coupled(e, t, j, k, after)
                 && var oldHeight := p.Position(s.requests[i].built.value.policyName) + before.escalations;
                    var newHeight := p.Position(t.requests[j].built.value.policyName) + after.escalations;
                    p.Position(after.policyName) < p.Position(before.policyName)
                    <==> Written(s, l, k).Some? && newHeight < oldHeight
  {
    hide Run, Next, DescendsFrom, Inv, Written, Coupled, HasPin;
    var s, t := Run(e, now, labels), Run(e, now, labels + [l]);
    RunKeepsInv(e, now, labels);
    RunKeepsInv(e, now, labels + [l]);
    assert t == Next(e, s, l) by { OneMoreLabel(e, now, labels, l); }
    StoreAfter(e, s, l, k);
    StepKeepsPinned(e, s, l, k);
    CellOfInv(e, s, k);
    CellOfInv(e, t, k);
    PinnedIsCoupled(e, s, k, s.db.cells[k].record);
    PinnedIsCoupled(e, t, k, t.db.cells[k].record);
    var i :| Coupled(e, s, i, k, s.db.cells[k].record);
    var j :| Coupled(e, t, j, k, t.db.cells[k].record);
    CoupledTier(e, s, i, k, s.db.cells[k].record);
    CoupledTier(e, t, j, k, t.db.cells[k].record);
  }

  lemma CoupledTier(e: Env, s: State, id: nat, k: string, r: Record)
    requires e.Valid() && Coupled(e, s, id, k, r)
    ensures id in s.requests && s.requests[id].built.Some?
    ensures e.policies.TierIndex(s.requests[id].built.value.policyName).Some?
    ensures e.policies.TierIndex(r.policyName)
            == Some(e.policies.Position(s.requests[id].built.value.policyName) + r.escalations)
  {
  }

  lemma OneMoreLabel(e: Env, now: int, labels: seq<Label>, l: Label)
    requires e.Valid()
    ensures Run(e, now, labels + [l]) == Next(e, Run(e, now, labels), l)
  {
    hide Next;
    assert (labels + [l])[..|labels|] == labels;
  }

  lemma WrittenIsServedOrLands(s: State, l: Label, k: string)
    ensures Written(s, l, k).Some? ==> WritesPin(s, l, k) || WritesBack(s, l, k) || l.Land?
  {
  }

  /** Over a stored pinned record no pin is ever written. */
  lemma PinIsWrittenFirst(e: Env, now: int, labels: seq<Label>, k: string, l: Label)
    requires e.Valid() && Kept(e, now, labels, k) && StoredPinned(Run(e, now, labels), k)
    ensures !WritesPin(Run(e, now, labels), l, k)
  {
    hide Run, Kept, OneClaim, Inv;
    var s := Run(e, now, labels);
    RunKeepsInv(e, now, labels);
    RunKeepsPinFirst(e, now, labels, k);
    if WritesPin(s, l, k) {
      PinningIsClaimed(e, s, l.id, k);
    }
  }

  lemma QuietTurn(n: nat, scan: ScanState, cfg: EscalationConfig)
    requires scan.msgCount < n
    ensures Detected(MessageList(Quiet(n)), false, scan, cfg).0 == NoSignal
    ensures Detected(MessageList(Quiet(n)), false, scan, cfg).1.msgCount == n
  {
    var start := WindowStart(n, scan);
    QuietToolSignal(Quiet(n), start, n, scan.consecFailures, cfg);
  }

  /** The state after further labels. */
  function RunFrom(e: Env, s: State, labels: seq<Label>): State
    requires e.Valid()
  {
    if labels == [] then s
    else Next(e, RunFrom(e, s, labels[..|labels| - 1]), labels[|labels| - 1])
  }

  lemma {:induction false} RunAppend(e: Env, now: int, labels: seq<Label>, more: seq<Label>)
    requires e.Valid()
    ensures Run(e, now, labels + more) == RunFrom(e, Run(e, now, labels), more)
  {
    hide Next;
    if more == [] {
      assert labels + more == labels;
    } else {
      assert (labels + more)[..|labels + more| - 1] == labels + more[..|more| - 1];
      RunAppend(e, now, labels, more[..|more| - 1]);
    }
  }

  lemma FromReadIsRun(e: Env, now: int, labels: seq<Label>, l: Label, more: seq<Label>)
    requires e.Valid()
    ensures Run(e, now, labels + [l] + more) == RunFrom(e, Next(e, Run(e, now, labels), l), more)
  {
    hide Next;
    assert (labels + [l])[..|labels|] == labels;
    RunAppend(e, now, labels + [l], more);
  }

  lemma FiveSteps(e: Env, s: State, a: Label, b: Label, c: Label, d: Label, f: Label)
    requires e.Valid()
    ensures RunFrom(e, s, [a, b, c, d, f]) == Next(e, Next(e, Next(e, Next(e, Next(e, s, a), b), c), d), f)
  {
    hide Next;
    assert [a, b, c, d, f][..4] == [a, b, c, d];
    assert [a, b, c, d][..3] == [a, b, c];
    assert [a, b, c][..2] == [a, b];
    assert [a, b][..1] == [a] && [a][..0] == [];
    assert RunFrom(e, s, [a]) == Next(e, s, a);
    assert RunFrom(e, s, [a, b]) == Next(e, Next(e, s, a), b);
    assert RunFrom(e, s, [a, b, c]) == Next(e, RunFrom(e, s, [a, b]), c);
    assert RunFrom(e, s, [a, b, c, d]) == Next(e, RunFrom(e, s, [a, b, c]), d);
  }

  lemma TwoArrivals(e: Env, s: State, k: string, a: nat, ta: Turn, b: nat, tb: Turn)
    requires e.Valid() && a != b && a !in s.requests && b !in s.requests
    ensures var t := Next(e, Next(e, s, Arrive(a, Plain(k, ta))), Arrive(b, Plain(k, tb)));
            && t.db == s.db && t.late == s.late && t.events == s.events
            && OnKey(t, a, k) && t.requests[a].pc.Reading? && t.requests[a].info == Plain(k, ta)
            && t.requests[a].info.turn == ta
            && OnKey(t, b, k) && t.requests[b].pc.Reading? && t.requests[b].info == Plain(k, tb)
            && t.requests[b].info.turn == tb
  {
  }

  lemma Arrives(e: Env, s: State, id: nat, info: Info)
    requires e.Valid() && id !in s.requests
    ensures var t := Next(e, s, Arrive(id, info));
            t == s.(requests := s.requests[id := Request(info, Reading, None, None, 0, None, None, None)])
  {
  }

  /** Only request id has moved. */
  predicate OthersStay(s: State, t: State, id: nat) {
    id in t.requests && t.requests == s.requests[id := t.requests[id]]
  }

  /** A pinned read leaves the stored record alone and takes its own outcome along. */
  lemma PinnedRead(e: Env, s: State, id: nat, k: string, turn: Turn)
    requires e.Valid() && StoredPinned(s, k)
    requires OnKey(s, id, k) && s.requests[id].pc.Reading? && s.requests[id].info.turn == turn
    ensures var t := Next(e, s, Serve(id, true));
            var o := ServeTurn(e.policies, s.db.cells[k].record, turn);
            && StoredPinned(t, k) && t.db.cells[k].record == s.db.cells[k].record
            && t.events == s.events + EscalationEvent(k, s.db.cells[k].record, o) && t.late == s.late
            && OnKey(t, id, k)
            && t.requests[id].pc == (if o.write then Updating(o.record) else Done(o.record.model))
            && OthersStay(s, t, id)
  {
    hide ServeTurn, EscalationEvent;
  }

  lemma WriteBack(e: Env, s: State, id: nat, k: string)
    requires e.Valid() && UpdatingOn(s, id, k)
    ensures var t := Next(e, s, Serve(id, true));
            && k in t.db.cells && t.db.cells[k].record == s.requests[id].pc.record
            && OthersStay(s, t, id) && t.requests[id].pc.Done? && t.events == s.events
  {
  }

  lemma LostWriteBack(e: Env, s: State, id: nat, k: string)
    requires e.Valid() && UpdatingOn(s, id, k)
    ensures var t := Next(e, s, Serve(id, false));
            && t.db == s.db && OthersStay(s, t, id) && t.events == s.events
            && t.late == s.late + {Pending(id, UpdateCommand(e.server, k, s.requests[id].pc.record, e.ttl))}
  {
  }

  lemma LateWriteBack(e: Env, s: State, id: nat, k: string, r: Record)
    requires e.Valid() && Pending(id, UpdateCommand(e.server, k, r, e.ttl)) in s.late
    ensures var t := Next(e, s, Land(Pending(id, UpdateCommand(e.server, k, r, e.ttl))));
            k in t.db.cells && t.db.cells[k].record == r
  {
  }

  const LOUD := Turn([], true)

  function Grown(n: nat): Turn {
    Turn(Quiet(n), false)
  }

  /** A request with the escalation header, and one with a longer quiet history, from a record that
      can escalate: the first carries one escalation more than the second. */
  lemma LoudAndQuiet(p: PoliciesConfig, r: Record)
    requires p.Valid() && r.Pinned? && Escalate(p, r).Some?
    ensures var up, flat := ServeTurn(p, r, LOUD), ServeTurn(p, r, Grown(r.scan.msgCount + 1));
            && up.write && up.record.escalations == r.escalations + 1
            && flat.write && flat.record.escalations == r.escalations && flat.record.policyName == r.policyName
  {
    QuietTurn(r.scan.msgCount + 1, r.scan, p.escalation);
  }

  /** Ratcheting needs pinned requests of one session not to overlap: from any state whose stored
      record can escalate, two overlapping requests raise the tier and then lower it again. */
  lemma OverlapRegresses(e: Env, s: State, k: string, a: nat, b: nat)
    requires e.Valid() && a != b && a !in s.requests && b !in s.requests
    requires StoredPinned(s, k) && Escalate(e.policies, s.db.cells[k].record).Some?
    ensures var r := s.db.cells[k].record;
            var raised := RunFrom(e, s, [Arrive(a, Plain(k, LOUD)), Arrive(b, Plain(k, Grown(r.scan.msgCount + 1))),
                                         Serve(a, true), Serve(b, true), Serve(a, true)]);
            var lowered := Next(e, raised, Serve(b, true));
            && StoredPinned(raised, k) && raised.db.cells[k].record.escalations == r.escalations + 1
            && StoredPinned(lowered, k) && lowered.db.cells[k].record.escalations == r.escalations
            && lowered.db.cells[k].record.policyName == r.policyName
  {
    hide ServeTurn, Escalate, Next, Plain, Grown;
    var r := s.db.cells[k].record;
    var quiet := Grown(r.scan.msgCount + 1);
    LoudAndQuiet(e.policies, r);
    TwoArrivals(e, s, k, a, LOUD, b, quiet);
    var l1, l2 := Arrive(a, Plain(k, LOUD)), Arrive(b, Plain(k, quiet));
    var s2 := Next(e, Next(e, s, l1), l2);
    var s3 := Next(e, s2, Serve(a, true));
    PinnedRead(e, s2, a, k, LOUD);
    var s4 := Next(e, s3, Serve(b, true));
    PinnedRead(e, s3, b, k, quiet);
    WriteBack(e, s4, a, k);
    WriteBack(e, Next(e, s4, Serve(a, true)), b, k);
    FiveSteps(e, s, l1, l2, Serve(a, true), Serve(b, true), Serve(a, true));
  }

  /** Nor need they overlap: a write-back that went unanswered lowers the tier when it lands after
      a later request has escalated. */
  lemma LateWriteRegresses(e: Env, s: State, k: string, a: nat, b: nat)
    requires e.Valid() && a != b && a !in s.requests && b !in s.requests
    requires StoredPinned(s, k) && Escalate(e.policies, s.db.cells[k].record).Some?
    ensures var r := s.db.cells[k].record;
            var quiet := Grown(r.scan.msgCount + 1);
            var flat := ServeTurn(e.policies, r, quiet).record;
            var served := RunFrom(e, s, [Arrive(a, Plain(k, quiet)), Arrive(b, Plain(k, LOUD)),
                                         Serve(a, true), Serve(a, false), Serve(b, true)]);
            var raised := Next(e, served, Serve(b, true));
            var lowered := Next(e, raised, Land(Pending(a, UpdateCommand(e.server, k, flat, e.ttl))));
            && StoredPinned(raised, k) && raised.db.cells[k].record.escalations == r.escalations + 1
            && StoredPinned(lowered, k) && lowered.db.cells[k].record.escalations == r.escalations
            && lowered.db.cells[k].record.policyName == r.policyName
  {
    hide ServeTurn, Escalate, Next, Plain, Grown, UpdateCommand;
    var r := s.db.cells[k].record;
    var quiet := Grown(r.scan.msgCount + 1);
    LoudAndQuiet(e.policies, r);
    TwoArrivals(e, s, k, a, quiet, b, LOUD);
    var l1, l2 := Arrive(a, Plain(k, quiet)), Arrive(b, Plain(k, LOUD));
    var s2 := Next(e, Next(e, s, l1), l2);
    var s3 := Next(e, s2, Serve(a, true));
    PinnedRead(e, s2, a, k, quiet);
    var s4 := Next(e, s3, Serve(a, false));
    LostWriteBack(e, s3, a, k);
    var s5 := Next(e, s4, Serve(b, true));
    PinnedRead(e, s4, b, k, LOUD);
    WriteBack(e, s5, b, k);
    LateStays(e, s5, b, k);
    LateWriteBack(e, Next(e, s5, Serve(b, true)), a, k, ServeTurn(e.policies, r, quiet).record);
    FiveSteps(e, s, l1, l2, Serve(a, true), Serve(a, false), Serve(b, true));
  }

  /** A request that finds no record of k claims it, is classified, and pins it. */
  lemma ClaimAndPin(e: Env, s: State, id: nat, k: string, answer: Option<ClassifyResult>)
    requires e.Valid() && k !in s.db.cells && OnKey(s, id, k) && s.requests[id].pc.Reading?
    requires !s.requests[id].info.subagent && !s.requests[id].info.pathOverride
    ensures var pin := PinFor(e, s.requests[id].info, answer, s.db.now);
            var s2 := Next(e, Next(e, s, Serve(id, true)), Serve(id, true));
            var t := Next(e, Next(e, s2, Answer(id, answer)), Serve(id, true));
            && pin.Pinned? && StoredPinned(t, k) && t.db.cells[k].record == pin && t.late == s.late
            && id in t.requests && t.requests == s.requests[id := t.requests[id]]
            && t.requests[id].pc == Done(pin.model) && t.requests[id].built == Some(pin)
            && t.requests[id].claimedAt.Some? && t.requests[id].asks == s.requests[id].asks + 1
  {
    hide LogHit, ServeTurn, PinEvents, Placeholder, PinFor;
    assert PinFor(e, s.requests[id].info, answer, s.db.now).Pinned? by {
      PinsAreRecords(e, s.requests[id].info, answer, s.db.now);
    }
    var s1 := Next(e, s, Serve(id, true));
    assert s1.requests[id].pc.Claiming? && k !in s1.db.cells;
    var s2 := Next(e, s1, Serve(id, true));
    assert s2.requests[id].pc.Asking? && s2.db.now == s.db.now;
    var s3 := Next(e, s2, Answer(id, answer));
    assert s3.requests[id].pc.Pinning?;
  }

  lemma PinsAreRecords(e: Env, info: Info, answer: Option<ClassifyResult>, now: int)
    requires e.Valid()
    ensures PinFor(e, info, answer, now).Pinned?
  {
  }

  lemma LateStays(e: Env, s: State, id: nat, k: string)
    requires e.Valid() && UpdatingOn(s, id, k)
    ensures Next(e, s, Serve(id, true)).late == s.late
  {
  }

  /** The classifier names the top of the ladder. */
  function TopAnswer(p: PoliciesConfig): ClassifyResult
    requires p.Valid()
  {
    var top := p.tiers[|p.tiers| - 1];
    ClassifyResult(top.name, top.model, 1.0)
  }

  lemma LoudClimbs(p: PoliciesConfig, r: Record)
    requires p.Valid() && r.Pinned? && Escalate(p, r).Some?
    ensures var o := ServeTurn(p, r, LOUD);
            o.write && o.record.escalations == r.escalations + 1
            && p.TierIndex(o.record.policyName) == Some(Anchor(p, r.policyName) + 1)
  {
    PositionRoundTrip(p, Anchor(p, r.policyName) + 1);
  }

  lemma TopPin(e: Env, info: Info, now: int)
    requires e.Valid() && !info.pathOverride
    ensures var pin := PinFor(e, info, Some(TopAnswer(e.policies)), now);
            pin.Pinned? && pin.escalations == 0 && e.policies.TierIndex(pin.policyName) == Some(|e.policies.tiers| - 1)
  {
    PositionRoundTrip(e.policies, |e.policies.tiers| - 1);
  }

  lemma PlainIsPlain(k: string, turn: Turn)
    ensures !Plain(k, turn).subagent && !Plain(k, turn).pathOverride
  {
  }

  lemma Evicted(e: Env, s: State, k: string)
    requires e.Valid()
    ensures var t := Next(e, s, Drop(k));
            k !in t.db.cells && t.requests == s.requests && t.late == s.late
  {
  }

  /** Where counting escalations stops deciding: once the key was lost. A request escalates and its
      write-back goes unanswered; the key is evicted; the next request is classified anew and pinned
      at the top; then the old write-back lands. The tier falls although the record that lands
      counts more escalations than the one it overwrites. */
  lemma LostKeyRegresses(e: Env, s: State, k: string, a: nat, b: nat)
    requires e.Valid() && a != b && a !in s.requests && b !in s.requests
    requires StoredPinned(s, k) && Escalate(e.policies, s.db.cells[k].record).Some?
    requires Anchor(e.policies, s.db.cells[k].record.policyName) + 2 < |e.policies.tiers|
    ensures var p, r := e.policies, s.db.cells[k].record;
            var up := ServeTurn(p, r, LOUD).record;
            var lost := RunFrom(e, s, [Arrive(a, Plain(k, LOUD)), Arrive(b, Plain(k, LOUD)),
                                       Serve(a, true), Serve(a, false), Drop(k)]);
            var claimed := Next(e, Next(e, lost, Serve(b, true)), Serve(b, true));
            var pinned := Next(e, Next(e, claimed, Answer(b, Some(TopAnswer(p)))), Serve(b, true));
            var lowered := Next(e, pinned, Land(Pending(a, UpdateCommand(e.server, k, up, e.ttl))));
            && StoredPinned(pinned, k) && pinned.db.cells[k].record.escalations == 0
            && StoredPinned(lowered, k) && lowered.db.cells[k].record.escalations == r.escalations + 1
            && p.TierIndex(pinned.db.cells[k].record.policyName) == Some(|p.tiers| - 1)
            && p.TierIndex(lowered.db.cells[k].record.policyName) == Some(Anchor(p, r.policyName) + 1)
            && Anchor(p, r.policyName) + 1 < |p.tiers| - 1
  {
    hide ServeTurn, Escalate, Next, Plain, UpdateCommand, PinFor, TopAnswer;
    var p, r := e.policies, s.db.cells[k].record;
    LoudClimbs(p, r);
    TwoArrivals(e, s, k, a, LOUD, b, LOUD);
    var l1, l2 := Arrive(a, Plain(k, LOUD)), Arrive(b, Plain(k, LOUD));
    var s2 := Next(e, Next(e, s, l1), l2);
    PinnedRead(e, s2, a, k, LOUD);
    var s3 := Next(e, s2, Serve(a, true));
    LostWriteBack(e, s3, a, k);
    var s4 := Next(e, s3, Serve(a, false));
    Evicted(e, s4, k);
    var s5 := Next(e, s4, Drop(k));
    FiveSteps(e, s, l1, l2, Serve(a, true), Serve(a, false), Drop(k));
    assert s5.requests[b].info == Plain(k, LOUD);
    PlainIsPlain(k, LOUD);
    ClaimAndPin(e, s5, b, k, Some(TopAnswer(p)));
    TopPin(e, s5.requests[b].info, s5.db.now);
    var claimed := Next(e, Next(e, s5, Serve(b, true)), Serve(b, true));
    var pinned := Next(e, Next(e, claimed, Answer(b, Some(TopAnswer(p)))), Serve(b, true));
    LateWriteBack(e, pinned, a, k, ServeTurn(p, r, LOUD).record);
  }
}
