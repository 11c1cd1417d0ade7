/** When pinned requests of one session do not overlap, the concurrent protocol is equivalent to
    serving that session's requests one after another. Other sessions interleave freely. */
module Serialisation {
  import opened Options
  import opened Policies
  import opened Escalation
  import opened StateMachine
  import opened Store
  import opened Protocol
  import opened Coupling
  import opened Theorems
  import opened Overlap
  import opened Serial

  /** What the session with key k needs of one step: the key does not vanish, a pinned read does
      not overlap a pending write-back, and writes of pinned records neither fail nor get lost. */
  ghost predicate OrderlyStep(e: Env, s: State, l: Label, k: string)
    requires e.Valid()
  {
    && (k in s.db.cells ==> k in Next(e, s, l).db.cells)
    && (ReadsPinned(s, l, k) ==> forall j :: !UpdatingOn(s, j, k))
    && (l.Serve? && !l.answered ==> !PinningOn(s, l.id, k) && !UpdatingOn(s, l.id, k))
    && (l.Abort? ==> !PinningOn(s, l.id, k) && !UpdatingOn(s, l.id, k))
  }

  ghost predicate Orderly(e: Env, now: int, labels: seq<Label>, k: string)
    requires e.Valid()
  {
    labels == []
    || (Orderly(e, now, labels[..|labels| - 1], k)
        && OrderlyStep(e, Run(e, now, labels[..|labels| - 1]), labels[|labels| - 1], k))
  }

  lemma {:induction false} OrderlyRunsKeepTheKey(e: Env, now: int, labels: seq<Label>, k: string)
    requires e.Valid() && Orderly(e, now, labels, k)
    ensures Kept(e, now, labels, k)
  {
    hide Next;
    if labels != [] {
      OrderlyRunsKeepTheKey(e, now, labels[..|labels| - 1], k);
    }
  }

  /** The ESCALATED events logged for a session. */
  function EscalatedOn(events: seq<Event>, k: string): nat {
    if events == [] then 0
    else EscalatedOn(events[..|events| - 1], k)
         + (if events[|events| - 1].Escalated? && events[|events| - 1].key == k then 1 else 0)
  }

  lemma {:induction false} EscalatedOnAppend(a: seq<Event>, b: seq<Event>, k: string)
    ensures EscalatedOn(a + b, k) == EscalatedOn(a, k) + EscalatedOn(b, k)
  {
    if b == [] {
      assert a + b == a;
    } else {
      assert (a + b)[..|a + b| - 1] == a + b[..|b| - 1];
      EscalatedOnAppend(a, b[..|b| - 1], k);
    }
  }

  /** The stored record, the record being written back, and the event log agree with serving the
      logged turns in order on the pin that request c built. */
  ghost predicate Mirrored(e: Env, s: State, k: string, c: nat)
    requires e.Valid()
  {
    && ClaimedOn(s, c, k) && s.requests[c].pc.Done? && s.requests[c].built.Some?
    && WellPinned(e.policies, s.requests[c].built.value)
    && StoredPinned(s, k)
    && var pin, turns := s.requests[c].built.value, Turns(s, k);
    && (forall i, j :: UpdatingOn(s, i, k) && UpdatingOn(s, j, k) ==> i == j)
    && (forall j :: UpdatingOn(s, j, k) ==>
          turns != []
          && s.requests[j].pc.record == Served(e.policies, pin, turns)
          && s.db.cells[k].record == Served(e.policies, pin, turns[..|turns| - 1]))
    && ((forall j :: !UpdatingOn(s, j, k)) ==> s.db.cells[k].record == Served(e.policies, pin, turns))
    && EscalatedOn(s.events, k) == Served(e.policies, pin, turns).escalations
  }

  ghost predicate Unpinned(s: State, k: string) {
    && Turns(s, k) == []
    && (forall j :: !UpdatingOn(s, j, k))
    && EscalatedOn(s.events, k) == 0
  }

  ghost predicate Mirroring(e: Env, s: State, k: string)
    requires e.Valid()
  {
    && NoLateWrites(s, k)
    && (StoredPinned(s, k) ==> exists c :: Mirrored(e, s, k, c))
    && (!StoredPinned(s, k) ==> Unpinned(s, k))
  }

  // ---------------------------------------------------------------- steps that do not matter to k

  ghost predicate Concerns(s: State, l: Label, k: string) {
    ReadsPinned(s, l, k) || WritesPin(s, l, k) || WritesBack(s, l, k)
  }

  lemma StoreUnmoved(e: Env, s: State, l: Label, k: string)
    requires e.Valid() && Inv(e, s) && NoLateWrites(s, k) && OrderlyStep(e, s, l, k)
    requires !WritesPin(s, l, k) && !WritesBack(s, l, k)
    ensures StoredPinned(Next(e, s, l), k) <==> StoredPinned(s, k)
    ensures StoredPinned(s, k) ==> Next(e, s, l).db.cells[k].record == s.db.cells[k].record
  {
    hide ServeStore, ServeAnswer, Execute, RequestOk, CellOk, BuildPinRecord;
    match l
    case Serve(id, answered) =>
      if id in s.requests {
        ServeIsCall(e, s, id, answered);
        var c := CommandOf(e, s.requests[id]);
        if c.Some? && answered {
          HarmlessCommand(s.db, c.value, k);
        }
      }
    case Answer(id, classify) => AnswerLeavesStore(e, s, id, classify);
    case Land(d) =>
      if d in s.late {
        assert PendingOk(e, s, d);
        HarmlessCommand(s.db, d.command, k);
      }
    case _ =>
  }

  lemma LateUnmoved(e: Env, s: State, l: Label, k: string)
    requires e.Valid() && NoLateWrites(s, k) && OrderlyStep(e, s, l, k)
    ensures NoLateWrites(Next(e, s, l), k)
  {
    hide ServeStore, ServeAnswer, Execute, BuildPinRecord;
    match l
    case Serve(id, answered) =>
      if id in s.requests { ServeIsCall(e, s, id, answered); }
    case Answer(id, classify) => AnswerLeavesStore(e, s, id, classify);
    case _ =>
  }

  /** Serving a store call logs a served turn only on a pinned hit, and then for its own key only. */
  lemma ServeLog(e: Env, s: State, id: nat, answered: bool, k: string)
    requires e.Valid() && id in s.requests && !ReadsPinned(s, Serve(id, answered), k)
    ensures var t := ServeStore(e, s, id, answered);
            Turns(t, k) == Turns(s, k) && EscalatedOn(t.events, k) == EscalatedOn(s.events, k)
  {
    hide EscalatedOn, ServeTurn, AfterRead, Won, Execute, Placeholder, BuildSubagentRecord, PinEvents, EscalationEvent;
    var q := s.requests[id];
    if q.pc.Pinning? && q.pc.record.Pinned? {
      var added := PinEvents(q.info, q.answer, q.pc.record);
      EscalatedOnAppend(s.events, added, k);
      assert forall ev :: ev in added ==> !ev.Escalated? by {
        PinEventsAreNoEscalations(q.info, q.answer, q.pc.record);
      }
      NoneEscalated(added, k);
    } else if q.pc.Pinning? {
      assert s.events + [] == s.events;
    } else if q.pc.Reading? && answered && StoredPinned(s, q.info.key) {
      var added := EscalationEvent(q.info.key, s.db.cells[q.info.key].record,
                                  ServeTurn(e.policies, s.db.cells[q.info.key].record, q.info.turn));
      EscalatedOnAppend(s.events, added, k);
      assert forall ev :: ev in added ==> ev.key == q.info.key by {
        EscalationEventsNameTheirKey(q.info.key, s.db.cells[q.info.key].record,
                                     ServeTurn(e.policies, s.db.cells[q.info.key].record, q.info.turn));
      }
      NoneEscalated(added, k);
    }
  }

  lemma PinEventsAreNoEscalations(info: Info, answer: Option<ClassifyResult>, r: Record)
    requires r.Pinned?
    ensures forall ev :: ev in PinEvents(info, answer, r) ==> !ev.Escalated?
  {
  }

  lemma EscalationEventsNameTheirKey(key: string, before: Record, o: PinnedOutcome)
    requires before.Pinned? && o.record.Pinned?
    ensures forall ev :: ev in EscalationEvent(key, before, o) ==> ev.key == key
  {
  }

  lemma LogUnmoved(e: Env, s: State, l: Label, k: string)
    requires e.Valid() && !ReadsPinned(s, l, k)
    ensures Turns(Next(e, s, l), k) == Turns(s, k)
    ensures EscalatedOn(Next(e, s, l).events, k) == EscalatedOn(s.events, k)
  {
    hide ServeStore, ServeAnswer, Execute, EscalatedOn, ReadsPinned;
    match l
    case Serve(id, answered) =>
      if id in s.requests { ServeLog(e, s, id, answered, k); }
    case Answer(id, classify) => AnswerLeavesStore(e, s, id, classify);
    case _ =>
  }

  lemma {:induction false} NoneEscalated(events: seq<Event>, k: string)
    requires forall ev :: ev in events ==> !(ev.Escalated? && ev.key == k)
    ensures EscalatedOn(events, k) == 0
  {
    if events != [] {
      NoneEscalated(events[..|events| - 1], k);
    }
  }

  lemma UpdatersUnmoved(e: Env, s: State, l: Label, k: string, i: nat)
    requires e.Valid() && OrderlyStep(e, s, l, k) && !Concerns(s, l, k)
    ensures UpdatingOn(Next(e, s, l), i, k) <==> UpdatingOn(s, i, k)
    ensures UpdatingOn(s, i, k) ==> Next(e, s, l).requests[i] == s.requests[i]
  {
    hide ServeStore, ServeAnswer, Execute;
    match l
    case Serve(id, answered) =>
      if id in s.requests { ServeIsCall(e, s, id, answered); }
    case Answer(id, classify) => AnswerLeavesStore(e, s, id, classify);
    case _ =>
  }

  lemma IrrelevantStep(e: Env, s: State, l: Label, k: string)
    requires e.Valid() && Inv(e, s) && Mirroring(e, s, k) && OrderlyStep(e, s, l, k) && !Concerns(s, l, k)
    ensures Mirroring(e, Next(e, s, l), k)
  {
    hide Next, Inv, OrderlyStep, ReadsPinned, WritesPin, WritesBack, Served, WellPinned;
    var t := Next(e, s, l);
    StoreUnmoved(e, s, l, k);
    LateUnmoved(e, s, l, k);
    LogUnmoved(e, s, l, k);
    forall i ensures UpdatingOn(t, i, k) <==> UpdatingOn(s, i, k)
             ensures UpdatingOn(s, i, k) ==> t.requests[i] == s.requests[i]
    {
      UpdatersUnmoved(e, s, l, k, i);
    }
    if StoredPinned(s, k) {
      var c :| Mirrored(e, s, k, c);
      DoneStaysPut(e, s, l, c);
      assert Mirrored(e, t, k, c);
    }
  }

  // ---------------------------------------------------------------- steps that matter to k

  /** The claim's winner stores its pin: the session starts with no turns served. */
  lemma PinStep(e: Env, s: State, l: Label, k: string)
    requires e.Valid() && Inv(e, s) && OneClaim(s, k) && Mirroring(e, s, k) && OrderlyStep(e, s, l, k)
    requires WritesPin(s, l, k)
    ensures Mirroring(e, Next(e, s, l), k)
  {
    hide DescendsFrom, Served, WellPinned, HasPin, LegalModel, Execute, PinEvents, EscalatedOn, Mirrored;
    var t := Next(e, s, l);
    var c := l.id;
    assert RequestOk(e, s, s.requests[c]);
    assert ClaimedOn(s, c, k);
    if StoredPinned(s, k) {
      var d :| Mirrored(e, s, k, d);
      MirroredOwner(e, s, k, d);
      assert false;
    }
    LateUnmoved(e, s, l, k);
    LogUnmoved(e, s, l, k);
    StartsSession(e, s, l, k);
    MirroredOwner(e, t, k, c);
  }

  lemma MirroredOwner(e: Env, s: State, k: string, d: nat)
    requires e.Valid() && Mirrored(e, s, k, d)
    ensures ClaimedOn(s, d, k) && s.requests[d].pc.Done? && StoredPinned(s, k)
  {
  }

  lemma StartsSession(e: Env, s: State, l: Label, k: string)
    requires e.Valid() && WritesPin(s, l, k) && Unpinned(s, k)
    requires RequestOk(e, s, s.requests[l.id])
    requires Turns(Next(e, s, l), k) == [] && EscalatedOn(Next(e, s, l).events, k) == 0
    ensures Mirrored(e, Next(e, s, l), k, l.id)
  {
    hide DescendsFrom, HasPin, LegalModel, PinEvents, EscalatedOn, AboveForcedParent;
    var t := Next(e, s, l);
    var pin := s.requests[l.id].pc.record;
    assert t.requests == s.requests[l.id := t.requests[l.id]] && t.requests[l.id].pc.Done?;
    assert forall j :: UpdatingOn(t, j, k) ==> UpdatingOn(s, j, k);
    assert Served(e.policies, pin, []) == pin;
  }

  /** A write-back lands: the stored record catches up with the served turns. */
  lemma WriteBackStep(e: Env, s: State, l: Label, k: string)
    requires e.Valid() && Inv(e, s) && Mirroring(e, s, k) && OrderlyStep(e, s, l, k)
    requires WritesBack(s, l, k)
    ensures Mirroring(e, Next(e, s, l), k)
  {
    hide Inv, DescendsFrom, Served, WellPinned, HasPin, LegalModel, EscalatedOn;
    var t := Next(e, s, l);
    LateUnmoved(e, s, l, k);
    LogUnmoved(e, s, l, k);
    assert StoredPinned(s, k);
    var c :| Mirrored(e, s, k, c);
    DoneStaysPut(e, s, l, c);
    var id := l.id;
    assert t.requests == s.requests[id := t.requests[id]] && t.requests[id].pc.Done?;
    assert forall j :: UpdatingOn(t, j, k) ==> UpdatingOn(s, j, k) && j != id;
    assert forall j :: !UpdatingOn(t, j, k);
    assert t.db.cells[k].record == s.requests[id].pc.record;
    assert Mirrored(e, t, k, c);
  }

  /** A pinned read serves one more turn on top of everything served before. */
  lemma ReadStep(e: Env, s: State, l: Label, k: string)
    requires e.Valid() && Inv(e, s) && Mirroring(e, s, k) && OrderlyStep(e, s, l, k)
    requires ReadsPinned(s, l, k)
    ensures Mirroring(e, Next(e, s, l), k)
  {
    hide Inv, DescendsFrom, WellPinned, HasPin, LegalModel, EscalatedOn, Next, Served;
    var t := Next(e, s, l);
    LateUnmoved(e, s, l, k);
    StoreUnmoved(e, s, l, k);
    var c :| Mirrored(e, s, k, c);
    DoneStaysPut(e, s, l, c);
    ServesTurn(e, s, l, k, c);
  }

  lemma ServesTurn(e: Env, s: State, l: Label, k: string, c: nat)
    requires e.Valid() && ReadsPinned(s, l, k) && Mirrored(e, s, k, c)
    requires forall j :: !UpdatingOn(s, j, k)
    requires StoredPinned(Next(e, s, l), k) && Next(e, s, l).db.cells[k].record == s.db.cells[k].record
    requires c in Next(e, s, l).requests && Next(e, s, l).requests[c] == s.requests[c]
    ensures Mirrored(e, Next(e, s, l), k, c)
  {
    hide WellPinned, ServeTurn, EscalatedOn, Next, Served;
    var t := Next(e, s, l);
    var pin, turns, r := s.requests[c].built.value, Turns(s, k), s.db.cells[k].record;
    var turn := s.requests[l.id].info.turn;
    var o := ServeTurn(e.policies, r, turn);
    PinnedReadEffect(e, s, l.id, k);
    assert pin.Pinned? by { WellPinnedIsPinned(e, pin); }
    ServedOneMore(e.policies, pin, turns, turn);
    SkippedWriteIsNoChange(e.policies, r, turn);
    ServedEscalations(e.policies, pin, turns, turn);
    assert (turns + [turn])[..|turns + [turn]| - 1] == turns;
    assert Turns(t, k) == turns + [turn];
    assert forall j :: UpdatingOn(t, j, k) ==> j == l.id;
    assert o.write <==> UpdatingOn(t, l.id, k);
  }

  lemma PinnedReadEffect(e: Env, s: State, id: nat, k: string)
    requires e.Valid() && ReadsPinned(s, Serve(id, true), k)
    ensures var t := Next(e, s, Serve(id, true));
            var r, turn := s.db.cells[k].record, s.requests[id].info.turn;
            var o := ServeTurn(e.policies, r, turn);
            && t.requests == s.requests[id := t.requests[id]]
            && t.requests[id].info == s.requests[id].info
            && t.requests[id].pc == (if o.write then Updating(o.record) else Done(o.record.model))
            && Turns(t, k) == Turns(s, k) + [turn]
            && EscalatedOn(t.events, k) == EscalatedOn(s.events, k) + (if o.applied.NoSignal? then 0 else 1)
  {
    hide ServeTurn, Execute;
    var r, turn := s.db.cells[k].record, s.requests[id].info.turn;
    var added := EscalationEvent(k, r, ServeTurn(e.policies, r, turn));
    EscalatedOnAppend(s.events, added, k);
    assert |added| == 1 ==> added[..0] == [];
  }

  lemma ServedOneMore(p: PoliciesConfig, pin: Record, turns: seq<Turn>, turn: Turn)
    requires p.Valid() && pin.Pinned?
    ensures Served(p, pin, turns + [turn]) == ServeTurn(p, Served(p, pin, turns), turn).record
  {
    hide ServeTurn;
    assert (turns + [turn])[..|turns|] == turns;
  }

  lemma ServedEscalations(p: PoliciesConfig, pin: Record, turns: seq<Turn>, turn: Turn)
    requires p.Valid() && WellPinned(p, pin)
    ensures var before := Served(p, pin, turns);
            var o := ServeTurn(p, before, turn);
            o.record.escalations == before.escalations + (if o.applied.NoSignal? then 0 else 1)
  {
    hide ServeTurn, DescendsFrom;
    ServedDescends(p, pin, turns);
    TurnKeepsDescent(p, pin, Served(p, pin, turns), turn);
  }

  // ---------------------------------------------------------------- the theorem

  lemma StepKeepsMirroring(e: Env, s: State, l: Label, k: string)
    requires e.Valid() && Inv(e, s) && OneClaim(s, k) && Mirroring(e, s, k) && OrderlyStep(e, s, l, k)
    ensures Mirroring(e, Next(e, s, l), k)
  {
    hide Inv, OneClaim, Mirroring, OrderlyStep, Next;
    if WritesPin(s, l, k) {
      PinStep(e, s, l, k);
    } else if WritesBack(s, l, k) {
      WriteBackStep(e, s, l, k);
    } else if ReadsPinned(s, l, k) {
      ReadStep(e, s, l, k);
    } else {
      IrrelevantStep(e, s, l, k);
    }
  }

  lemma {:induction false} OrderlyRunsMirror(e: Env, now: int, labels: seq<Label>, k: string)
    requires e.Valid() && Orderly(e, now, labels, k)
    ensures Mirroring(e, Run(e, now, labels), k)
  {
    if labels != [] {
      var init := labels[..|labels| - 1];
      OrderlyRunsMirror(e, now, init, k);
      RunKeepsInv(e, now, init);
      OrderlyRunsKeepTheKey(e, now, init, k);
      RunKeepsOneClaim(e, now, init, k);
      StepKeepsMirroring(e, Run(e, now, init), labels[|labels| - 1], k);
    }
  }

  /** The main result. In every orderly run, once the session is pinned, its stored record, the
      record on its way back, and its escalation events are those of serving the logged turns one
      after another on the one pin its claim's winner built. */
  lemma ConcurrentSessionIsSerial(e: Env, now: int, labels: seq<Label>, k: string)
    requires e.Valid() && Orderly(e, now, labels, k) && StoredPinned(Run(e, now, labels), k)
    ensures exists c :: Mirrored(e, Run(e, now, labels), k, c)
  {
    OrderlyRunsMirror(e, now, labels, k);
  }

  /** Escalation events never exceed the cap, nor the room above the pin. */
  ghost predicate CountedUnder(e: Env, s: State, k: string, c: nat)
    requires e.Valid()
  {
    && Mirrored(e, s, k, c)
    && EscalatedOn(s.events, k)
       <= Min(Max(0, e.policies.escalation.maxEscalations),
              |e.policies.tiers| - 1 - e.policies.Position(s.requests[c].built.value.policyName))
  }

  lemma MirroredIsCounted(e: Env, s: State, k: string, c: nat)
    requires e.Valid() && Mirrored(e, s, k, c)
    ensures CountedUnder(e, s, k, c)
    ensures (forall j :: !UpdatingOn(s, j, k)) ==> s.db.cells[k].record.escalations == EscalatedOn(s.events, k)
  {
    hide Served, DescendsFrom, EscalatedOn;
    assert s.requests[c].built.value.Pinned? by { WellPinnedIsPinned(e, s.requests[c].built.value); }
    ServedDescends(e.policies, s.requests[c].built.value, Turns(s, k));
    EscalationsAreCapped(e.policies, s.requests[c].built.value, Turns(s, k));
  }

  /** Hence a session's escalation events are as many as its record counts when no write-back is
      pending, and never more than the cap or the room above its pin. */
  lemma EscalationEventsAreCounted(e: Env, now: int, labels: seq<Label>, k: string)
    requires e.Valid() && Orderly(e, now, labels, k) && StoredPinned(Run(e, now, labels), k)
    ensures var s := Run(e, now, labels);
            && ((forall j :: !UpdatingOn(s, j, k)) ==> s.db.cells[k].record.escalations == EscalatedOn(s.events, k))
            && exists c :: CountedUnder(e, s, k, c)
  {
    hide Mirrored, CountedUnder, UpdatingOn, Orderly, EscalatedOn;
    OrderlyRunsMirror(e, now, labels, k);
    var s := Run(e, now, labels);
    var c :| Mirrored(e, s, k, c);
    MirroredIsCounted(e, s, k, c);
  }

  /** With append-only histories, the threshold times the tool-failure escalations plus the current
      count is at most the number of distinct failing results since the pin. */
  predicate PaidForByDistinctFailures(p: PoliciesConfig, pin: Record, turns: seq<Turn>)
    requires p.Valid() && pin.Pinned?
  {
    turns != [] && AppendOnly(turns, pin.scan.msgCount) ==>
      p.escalation.consecutiveToolFailures * ToolEscalations(p, pin, turns)
      + Served(p, pin, turns).scan.consecFailures
      <= CountFailed(Results(turns[|turns| - 1].messages[pin.scan.msgCount..], p.escalation))
  }

  /** And tool-failure escalations remain paid for by failing tool results; by distinct ones since the
      pin, if every served history extends the one before. */
  lemma ConcurrentEscalationsArePaidFor(e: Env, now: int, labels: seq<Label>, k: string)
    requires e.Valid() && Orderly(e, now, labels, k) && StoredPinned(Run(e, now, labels), k)
    requires forall j :: !UpdatingOn(Run(e, now, labels), j, k)
    ensures var s := Run(e, now, labels);
            exists c :: Mirrored(e, s, k, c)
              && var pin := s.requests[c].built.value;
                 && Price(e.policies, pin, Turns(s, k)) + s.db.cells[k].record.scan.consecFailures
                    <= FailuresSeen(e.policies, pin, Turns(s, k))
                 && PaidForByDistinctFailures(e.policies, pin, Turns(s, k))
  {
    OrderlyRunsMirror(e, now, labels, k);
    var s := Run(e, now, labels);
    hide Run, Served, ServeTurn, Price, FailuresSeen;
    var c :| Mirrored(e, s, k, c);
    var pin, turns := s.requests[c].built.value, Turns(s, k);
    EscalationsArePaidFor(e.policies, pin, turns);
    if turns != [] && AppendOnly(turns, pin.scan.msgCount) {
      EscalationsNeedDistinctFailures(e.policies, pin, turns);
    }
  }

  lemma MirroredStepRatchets(e: Env, s: State, l: Label, k: string)
    requires e.Valid() && Inv(e, s) && Mirroring(e, s, k) && OrderlyStep(e, s, l, k) && StoredPinned(s, k)
    requires Mirroring(e, Next(e, s, l), k) && OneClaim(s, k)
    ensures StoredPinned(Next(e, s, l), k)
    ensures var p := e.policies;
            var before, after := s.db.cells[k].record.policyName, Next(e, s, l).db.cells[k].record.policyName;
            && p.TierIndex(before).Some? && p.TierIndex(after).Some?
            && 0 <= p.Position(after) - p.Position(before) <= 1
  {
    hide Next, Inv, OrderlyStep, Mirrored, DescendsFrom, OneClaim;
    var c :| Mirrored(e, s, k, c);
    MirroredRecords(e, s, k, c);
    var p, pin, r := e.policies, s.requests[c].built.value, s.db.cells[k].record;
    EscalateDescendant(p, pin, r);
    if l.Serve? {
      OnlyTheOwnerPins(e, s, l.id, k, c);
    }
    if WritesBack(s, l, k) {
      WriteBack(e, s, l.id, k);
      UpdaterIsNext(e, s, k, c, l.id);
    } else {
      StoreUnmoved(e, s, l, k);
    }
  }

  lemma MirroredRecords(e: Env, s: State, k: string, c: nat)
    requires e.Valid() && Mirrored(e, s, k, c)
    ensures StoredPinned(s, k) && c in s.requests && s.requests[c].built.Some?
    ensures DescendsFrom(e.policies, s.requests[c].built.value, s.db.cells[k].record)
  {
    hide DescendsFrom, Served;
    var p, pin, turns := e.policies, s.requests[c].built.value, Turns(s, k);
    assert pin.Pinned? by { WellPinnedIsPinned(e, pin); }
    ServedDescends(p, pin, turns);
    ServedDescends(p, pin, if turns == [] then [] else turns[..|turns| - 1]);
  }

  /** The record on its way back is one turn ahead of the stored one. */
  lemma UpdaterIsNext(e: Env, s: State, k: string, c: nat, j: nat)
    requires e.Valid() && Mirrored(e, s, k, c) && UpdatingOn(s, j, k)
    ensures StoredPinned(s, k)
    ensures var p := e.policies;
            var before, after := s.db.cells[k].record.policyName, s.requests[j].pc.record;
            && after.Pinned? && p.TierIndex(before).Some? && p.TierIndex(after.policyName).Some?
            && 0 <= p.Position(after.policyName) - p.Position(before) <= 1
  {
    hide Served, WellPinned;
    var pin, turns := s.requests[c].built.value, Turns(s, k);
    assert pin.Pinned? by { WellPinnedIsPinned(e, pin); }
    Ratchet(e.policies, pin, turns, |turns| - 1);
  }

  lemma OnlyTheOwnerPins(e: Env, s: State, i: nat, k: string, c: nat)
    requires e.Valid() && Inv(e, s) && OneClaim(s, k) && Mirrored(e, s, k, c)
    ensures !PinningOn(s, i, k)
  {
    hide DescendsFrom, Served, WellPinned, HasPin, LegalModel;
    if i in s.requests {
      assert RequestOk(e, s, s.requests[i]);
      assert PinningOn(s, i, k) ==> ClaimedOn(s, i, k);
    }
  }

  /** The last step of an orderly run, whatever it is, never lowers the stored tier and raises it by
      at most one. */
  lemma StepRatchets(e: Env, now: int, labels: seq<Label>, k: string)
    requires e.Valid() && labels != [] && Orderly(e, now, labels, k)
    requires StoredPinned(Run(e, now, labels[..|labels| - 1]), k)
    ensures StoredPinned(Run(e, now, labels), k)
    ensures var p := e.policies;
            var before := Run(e, now, labels[..|labels| - 1]).db.cells[k].record.policyName;
            var after := Run(e, now, labels).db.cells[k].record.policyName;
            && p.TierIndex(before).Some? && p.TierIndex(after).Some?
            && 0 <= p.Position(after) - p.Position(before) <= 1
  {
    hide Next, Mirroring, OrderlyStep, Inv, OneClaim;
    var init := labels[..|labels| - 1];
    OrderlyRunsMirror(e, now, init, k);
    OrderlyRunsMirror(e, now, labels, k);
    RunKeepsInv(e, now, init);
    OrderlyRunsKeepTheKey(e, now, init, k);
    RunKeepsOneClaim(e, now, init, k);
    MirroredStepRatchets(e, Run(e, now, init), labels[|labels| - 1], k);
  }

  /** The ratchet over whole concurrent runs: once pinned, the stored tier never falls, and no step
      raises it by more than one. */
  lemma {:induction false} ConcurrentRatchet(e: Env, now: int, labels: seq<Label>, k: string, m: nat)
    requires e.Valid() && Orderly(e, now, labels, k) && m <= |labels|
    requires StoredPinned(Run(e, now, labels[..m]), k)
    ensures StoredPinned(Run(e, now, labels), k)
    ensures var p := e.policies;
            var before := Run(e, now, labels[..m]).db.cells[k].record.policyName;
            var after := Run(e, now, labels).db.cells[k].record.policyName;
            && p.TierIndex(before).Some? && p.TierIndex(after).Some?
            && p.Position(before) <= p.Position(after) <= p.Position(before) + |labels| - m
  {
    hide Next, Mirroring, OrderlyStep, Inv, OneClaim;
    if m == |labels| {
      assert labels[..m] == labels;
      OrderlyRunsMirror(e, now, labels, k);
      MirroredTierIsKnown(e, Run(e, now, labels), k);
    } else {
      var init := labels[..|labels| - 1];
      assert init[..m] == labels[..m];
      ConcurrentRatchet(e, now, init, k, m);
      StepRatchets(e, now, labels, k);
    }
  }

  lemma MirroredTierIsKnown(e: Env, s: State, k: string)
    requires e.Valid() && Mirroring(e, s, k) && StoredPinned(s, k)
    ensures e.policies.TierIndex(s.db.cells[k].record.policyName).Some?
  {
    hide Mirrored, DescendsFrom;
    var c :| Mirrored(e, s, k, c);
    MirroredRecords(e, s, k, c);
    EscalateDescendant(e.policies, s.requests[c].built.value, s.db.cells[k].record);
  }
}
