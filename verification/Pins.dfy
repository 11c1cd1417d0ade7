/** In every run, every pin is the one its request asked for, and every event tells what happened. */
module Pins {
  import opened Options
  import opened Policies
  import opened Escalation
  import opened StateMachine
  import opened Store
  import opened Protocol
  import opened Coupling
  import opened Theorems
  import opened Overlap

  // ---------------------------------------------------------------- what a pin is made of

  predicate TierAndModel(p: PoliciesConfig, r: Record, i: nat)
    requires p.Valid() && r.Pinned?
  {
    i < |p.tiers| && r.policyName == p.tiers[i].name && r.model == p.tiers[i].model
  }

  /** A path override pins the forced tier, with certainty and unclassified. */
  ghost predicate PinnedByOverride(p: PoliciesConfig, r: Record)
    requires p.Valid() && r.Pinned?
  {
    && r.pathOverride && !r.classified && r.confidence == 1.0
    && exists i: nat :: TierAndModel(p, r, i) && p.tiers[i].name == p.forceTier
  }

  /** A classifier's answer pins the tier it names, with its confidence; without an answer, or if it
      names no tier, the default tier is pinned with the default model. */
  ghost predicate PinnedByAnswer(p: PoliciesConfig, answer: Option<ClassifyResult>, r: Record)
    requires p.Valid() && r.Pinned?
  {
    && !r.pathOverride
    && var named := answer.Some? && exists i :: 0 <= i < |p.tiers| && p.tiers[i].name == answer.value.policyName;
    && r.classified == named
    && (named ==>
          r.policyName == answer.value.policyName && r.confidence == answer.value.confidence
          && exists i: nat :: TierAndModel(p, r, i))
    && (!named ==> r.policyName == p.DefaultTier().name && r.model == p.defaultModel && r.confidence == 0.0)
  }

  /** A subagent is pinned one tier below its pinned parent, floored at the cheapest, or at the parent's
      own tier if that was forced; without a pinned parent, at the default tier. */
  ghost predicate PinnedByParent(p: PoliciesConfig, parent: Option<Record>, r: Record)
    requires p.Valid() && r.Pinned?
  {
    && !r.pathOverride && r.classified && r.confidence == 1.0
    && exists i: nat :: TierAndModel(p, r, i)
         && if parent.Some? && parent.value.Pinned?
            then exists j :: 0 <= j < |p.tiers| && p.tiers[j].name == parent.value.policyName
                   && i == if parent.value.pathOverride then j else Max(0, j - 1)
            else r.policyName == p.DefaultTier().name
  }

  /** The pin a request built is the one its inputs ask for, made at or after its claim. */
  ghost predicate PinnedAsAsked(e: Env, now: int, q: Request)
    requires e.Valid()
  {
    && (q.claimedAt.Some? ==> q.claimedAt.value <= now)
    && (q.built.Some? ==>
          && q.claimedAt.Some?
          && q.built.value.Pinned?
          && var r, info := q.built.value, q.info;
          && r.escalations == 0 && r.subagent == info.subagent && r.scan == ScanState(|info.turn.messages|, 0, 0)
          && r.firstMessageHash == info.hash && r.apiKeyAlias == info.alias
          && q.claimedAt.value <= r.pinnedAt <= now
          && (info.subagent ==> PinnedByParent(e.policies, q.parent, r))
          && (!info.subagent && info.pathOverride ==> PinnedByOverride(e.policies, r))
          && (!info.subagent && !info.pathOverride ==> PinnedByAnswer(e.policies, q.answer, r)))
  }

  // ---------------------------------------------------------------- the three ways to build one

  lemma OverridePin(e: Env, info: Info, answer: Option<ClassifyResult>, now: int)
    requires e.Valid() && info.pathOverride
    ensures var r := PinFor(e, info, answer, now);
            && r.Pinned? && r.escalations == 0 && !r.subagent && r.scan == ScanState(|info.turn.messages|, 0, 0)
            && r.firstMessageHash == info.hash && r.apiKeyAlias == info.alias && r.pinnedAt == now
            && PinnedByOverride(e.policies, r)
  {
    BuiltPinsAreWellPinned(e.policies, answer, true, info.hash, info.alias, |info.turn.messages|, now);
    assert TierAndModel(e.policies, PinFor(e, info, answer, now), e.policies.Position(e.policies.forceTier));
  }

  lemma AnswerPin(e: Env, info: Info, answer: Option<ClassifyResult>, now: int)
    requires e.Valid() && !info.pathOverride
    ensures var r := PinFor(e, info, answer, now);
            && r.Pinned? && r.escalations == 0 && !r.subagent && r.scan == ScanState(|info.turn.messages|, 0, 0)
            && r.firstMessageHash == info.hash && r.apiKeyAlias == info.alias && r.pinnedAt == now
            && PinnedByAnswer(e.policies, answer, r)
  {
    var p, r := e.policies, PinFor(e, info, answer, now);
    BuiltPinsAreWellPinned(p, answer, false, info.hash, info.alias, |info.turn.messages|, now);
    if answer.Some? && p.TierIndex(answer.value.policyName).Some? {
      assert TierAndModel(p, r, p.Position(r.policyName));
    }
  }

  lemma ParentPin(e: Env, parent: Option<Record>, info: Info, now: int)
    requires e.Valid()
    requires parent.Some? && parent.value.Pinned? ==> e.policies.TierIndex(parent.value.policyName).Some?
    ensures var r := BuildSubagentRecord(e.policies, parent, info.hash, info.alias, |info.turn.messages|, now);
            && r.Pinned? && r.escalations == 0 && r.subagent && r.scan == ScanState(|info.turn.messages|, 0, 0)
            && r.firstMessageHash == info.hash && r.apiKeyAlias == info.alias && r.pinnedAt == now
            && PinnedByParent(e.policies, parent, r)
  {
    var p, r := e.policies, BuildSubagentRecord(e.policies, parent, info.hash, info.alias, |info.turn.messages|, now);
    SubagentPinPosition(p, parent, info.hash, info.alias, |info.turn.messages|, now);
    assert TierAndModel(p, r, p.Position(r.policyName));
    if parent.Some? && parent.value.Pinned? {
      assert p.tiers[p.Position(parent.value.policyName)].name == parent.value.policyName;
    }
  }

  // ---------------------------------------------------------------- every run

  ghost predicate AllPinnedAsAsked(e: Env, s: State)
    requires e.Valid()
  {
    forall id :: id in s.requests ==> PinnedAsAsked(e, s.db.now, s.requests[id])
  }

  lemma LaterIsFine(e: Env, now: int, later: int, q: Request)
    requires e.Valid() && PinnedAsAsked(e, now, q) && now <= later
    ensures PinnedAsAsked(e, later, q)
  {
    hide PinnedByAnswer, PinnedByOverride, PinnedByParent;
  }

  /** A step that leaves what a request won, was answered, read and built alone. */
  lemma SamePin(e: Env, now: int, q: Request, r: Request)
    requires e.Valid() && PinnedAsAsked(e, now, q) && r.info == q.info && r.built == q.built
    requires r.claimedAt == q.claimedAt && r.answer == q.answer && r.parent == q.parent
    ensures PinnedAsAsked(e, now, r)
  {
    hide PinnedByAnswer, PinnedByOverride, PinnedByParent;
  }

  lemma ClaimPins(e: Env, s: State, id: nat, answered: bool)
    requires e.Valid() && id in s.requests && s.requests[id].pc.Claiming?
    requires PinnedAsAsked(e, s.db.now, s.requests[id]) && Consistent(e, s.requests[id])
    ensures PinnedAsAsked(e, s.db.now, ServeClaim(e, s, id, answered).requests[id])
  {
    hide PinnedByAnswer, PinnedByOverride, PinnedByParent, PinFor, WellPinned, Placeholder, AboveForcedParent;
    if s.requests[id].info.pathOverride {
      OverridePin(e, s.requests[id].info, None, s.db.now);
    }
  }

  lemma ParentPins(e: Env, s: State, id: nat, answered: bool)
    requires e.Valid() && Inv(e, s) && id in s.requests && s.requests[id].pc.ReadingParent?
    requires PinnedAsAsked(e, s.db.now, s.requests[id]) && Consistent(e, s.requests[id])
    ensures PinnedAsAsked(e, s.db.now, ServeParent(e, s, id, answered).requests[id])
  {
    hide PinnedByAnswer, PinnedByOverride, PinnedByParent, BuildSubagentRecord, Inv, WellPinned, AboveForcedParent;
    var info := s.requests[id].info;
    var parent := if answered then Read(s.db, info.baseKey) else None;
    if parent.Some? && parent.value.Pinned? {
      StoredTierIsKnown(e, s, info.baseKey);
    }
    ParentPin(e, parent, info, s.db.now);
  }

  lemma StoredTierIsKnown(e: Env, s: State, k: string)
    requires e.Valid() && Inv(e, s) && StoredPinned(s, k)
    ensures e.policies.TierIndex(s.db.cells[k].record.policyName).Some?
  {
    hide Inv, Coupled;
    CellOfInv(e, s, k);
    PinnedIsCoupled(e, s, k, s.db.cells[k].record);
    var i :| Coupled(e, s, i, k, s.db.cells[k].record);
    CoupledTier(e, s, i, k, s.db.cells[k].record);
  }

  lemma AnswerPins(e: Env, s: State, id: nat, answer: Option<ClassifyResult>)
    requires e.Valid() && id in s.requests && s.requests[id].pc.Asking?
    requires PinnedAsAsked(e, s.db.now, s.requests[id]) && Consistent(e, s.requests[id])
    ensures PinnedAsAsked(e, s.db.now, ServeAnswer(e, s, id, answer).requests[id])
  {
    hide PinnedByAnswer, PinnedByOverride, PinnedByParent, PinFor, WellPinned, AboveForcedParent;
    AnswerPin(e, s.requests[id].info, answer, s.db.now);
  }

  /** Only winning a claim, reading a parent and being answered touch what a pin is made of. */
  predicate SameInputs(q: Request, r: Request) {
    && r.info == q.info && r.built == q.built && r.claimedAt == q.claimedAt
    && r.answer == q.answer && r.parent == q.parent && r.asks == q.asks
  }

  lemma ReadKeepsInputs(e: Env, s: State, id: nat, answered: bool)
    requires e.Valid() && id in s.requests && s.requests[id].pc.Reading?
    ensures id in ServeRead(e, s, id, answered).requests
    ensures SameInputs(s.requests[id], ServeRead(e, s, id, answered).requests[id])
  {
    hide ServeTurn, EscalationEvent, Execute;
  }

  lemma OtherServesKeepPin(e: Env, s: State, id: nat, answered: bool)
    requires e.Valid() && id in s.requests && !s.requests[id].pc.Claiming? && !s.requests[id].pc.ReadingParent?
    ensures id in ServeStore(e, s, id, answered).requests
    ensures SameInputs(s.requests[id], ServeStore(e, s, id, answered).requests[id])
  {
    hide ServeRead, Execute, PinEvents, UpdateCommand, ServeClaim, ServeParent;
    if s.requests[id].pc.Reading? {
      ReadKeepsInputs(e, s, id, answered);
    }
  }

  lemma ServePins(e: Env, s: State, id: nat, answered: bool)
    requires e.Valid() && Inv(e, s) && id in s.requests && PinnedAsAsked(e, s.db.now, s.requests[id])
    ensures PinnedAsAsked(e, s.db.now, ServeStore(e, s, id, answered).requests[id])
  {
    hide PinnedAsAsked, Inv, ServeClaim, ServeParent, ServeRead, ServePin, ServeUpdate, Consistent;
    assert Consistent(e, s.requests[id]) by { InvIsConsistent(e, s, id); }
    if s.requests[id].pc.Claiming? {
      ClaimPins(e, s, id, answered);
    } else if s.requests[id].pc.ReadingParent? {
      ParentPins(e, s, id, answered);
    } else {
      OtherServesKeepPin(e, s, id, answered);
      SamePin(e, s.db.now, s.requests[id], ServeStore(e, s, id, answered).requests[id]);
    }
  }

  lemma InvIsConsistent(e: Env, s: State, id: nat)
    requires e.Valid() && Inv(e, s) && id in s.requests
    ensures Consistent(e, s.requests[id])
  {
    assert RequestOk(e, s, s.requests[id]);
  }

  lemma StepPins(e: Env, s: State, l: Label)
    requires e.Valid() && Inv(e, s) && AllPinnedAsAsked(e, s)
    ensures AllPinnedAsAsked(e, Next(e, s, l))
  {
    hide PinnedAsAsked, Inv, ServeStore, ServeAnswer, Consistent, Execute;
    var t := Next(e, s, l);
    match l
    case Serve(id, answered) =>
      if id in s.requests {
        ServeIsCall(e, s, id, answered);
        ServePins(e, s, id, answered);
        if CommandOf(e, s.requests[id]).Some? { ClockStays(s.db, CommandOf(e, s.requests[id]).value); }
      }
    case Answer(id, answer) =>
      if id in s.requests && s.requests[id].pc.Asking? {
        AnswerLeavesStore(e, s, id, answer);
        assert Consistent(e, s.requests[id]) by { InvIsConsistent(e, s, id); }
        AnswerPins(e, s, id, answer);
      }
    case Abort(id) =>
      if id in s.requests { SamePin(e, s.db.now, s.requests[id], t.requests[id]); }
    case Arrive(id, info) =>
      assert PinnedAsAsked(e, s.db.now, Request(info, Reading, None, None, 0, None, None, None)) by {
        NewRequest(e, s.db.now, info);
      }
    case Land(d) => ClockStays(s.db, d.command);
    case Tick(ms) =>
      forall id | id in s.requests ensures PinnedAsAsked(e, t.db.now, s.requests[id]) {
        LaterIsFine(e, s.db.now, t.db.now, s.requests[id]);
      }
    case Drop(_) =>
  }

  lemma NewRequest(e: Env, now: int, info: Info)
    requires e.Valid()
    ensures PinnedAsAsked(e, now, Request(info, Reading, None, None, 0, None, None, None))
  {
  }

  /** In every run, with any interleaving, failures and aborts, the pin that a request built, if any,
      is the one that its path override, its classifier's answer or its parent asks for. */
  lemma {:induction false} PinsAreAsAsked(e: Env, now: int, labels: seq<Label>)
    requires e.Valid()
    ensures AllPinnedAsAsked(e, Run(e, now, labels))
  {
    hide Next, PinnedAsAsked;
    if labels != [] {
      PinsAreAsAsked(e, now, labels[..|labels| - 1]);
      RunKeepsInv(e, now, labels[..|labels| - 1]);
      StepPins(e, Run(e, now, labels[..|labels| - 1]), labels[|labels| - 1]);
    }
  }

  /** So no record of an overridden session ever stands below the forced tier. */
  lemma OverrideBoundsSession(e: Env, now: int, labels: seq<Label>, id: nat, key: string, r: Record)
    requires e.Valid() && PinnedBy(e, Run(e, now, labels), id, key, r)
    requires var info := Run(e, now, labels).requests[id].info; info.pathOverride && !info.subagent
    ensures r.pathOverride && e.policies.TierIndex(r.policyName).Some?
    ensures e.policies.Position(e.policies.forceTier) <= e.policies.Position(r.policyName)
  {
    hide Run;
    PinsAreAsAsked(e, now, labels);
    var pin, p := Run(e, now, labels).requests[id].built.value, e.policies;
    assert PinnedAsAsked(e, Run(e, now, labels).db.now, Run(e, now, labels).requests[id]);
    EscalateDescendant(p, pin, r);
    assert pin.policyName == p.forceTier;
  }

  // ---------------------------------------------------------------- what the events tell

  /** Request id built this pin for key. */
  predicate Built(s: State, id: nat, key: string, model: string, policyName: string) {
    OnKey(s, id, key) && s.requests[id].built.Some? && s.requests[id].built.value.Pinned?
    && s.requests[id].built.value.model == model && s.requests[id].built.value.policyName == policyName
  }

  predicate AskedClassifier(q: Request) {
    !q.info.subagent && !q.info.pathOverride && q.asks == 1
  }

  predicate ToldClassified(s: State, id: nat, key: string, model: string, policyName: string, confidence: real) {
    Built(s, id, key, model, policyName) && AskedClassifier(s.requests[id]) && s.requests[id].answer.Some?
    && s.requests[id].built.value.confidence == confidence
  }

  predicate ToldFallback(s: State, id: nat, key: string, model: string, policyName: string) {
    Built(s, id, key, model, policyName) && AskedClassifier(s.requests[id]) && s.requests[id].answer.None?
  }

  predicate ToldPinned(s: State, id: nat, key: string, model: string, policyName: string, forced: bool,
                       subagent: bool)
  {
    Built(s, id, key, model, policyName)
    && subagent == s.requests[id].info.subagent && forced == (s.requests[id].info.pathOverride && !subagent)
  }

  /** The n-th escalation above the pin of request id: from the model one step below to this tier's. */
  predicate ToldEscalated(e: Env, s: State, id: nat, key: string, model: string, policyName: string, from: string,
                          n: int)
    requires e.Valid()
  {
    && OnKey(s, id, key) && s.requests[id].built.Some? && WellPinned(e.policies, s.requests[id].built.value)
    && var p, pin := e.policies, s.requests[id].built.value;
    && 1 <= n <= p.escalation.maxEscalations && p.Position(pin.policyName) + n < |p.tiers|
    && policyName == p.tiers[p.Position(pin.policyName) + n].name
    && model == p.tiers[p.Position(pin.policyName) + n].model
    && from == ModelAfter(p, pin, n - 1)
  }

  /** The event reports something that a request of its session really did. */
  ghost predicate Told(e: Env, s: State, ev: Event)
    requires e.Valid()
  {
    match ev
    case Classified(k, m, pn, c) => exists id :: ToldClassified(s, id, k, m, pn, c)
    case Fallback(k, m, pn) => exists id :: ToldFallback(s, id, k, m, pn)
    case PinnedEvent(k, m, pn, forced, sub) => exists id :: ToldPinned(s, id, k, m, pn, forced, sub)
    case Escalated(k, m, pn, reason, from, n) =>
      !reason.NoSignal? && exists id :: ToldEscalated(e, s, id, k, m, pn, from, n)
  }

  ghost predicate AllTold(e: Env, s: State)
    requires e.Valid()
  {
    forall ev :: ev in s.events ==> Told(e, s, ev)
  }

  /** What one step adds to the log: a pinned read whose escalation is applied logs it; serving a pin
      logs how its tier was found, unless by override or parent, and then the pin. */
  function Logs(e: Env, s: State, l: Label): seq<Event>
    requires e.Valid()
  {
    if !l.Serve? || l.id !in s.requests then []
    else
      var q := s.requests[l.id];
      var k := q.info.key;
      if ReadsPinned(s, l, k) then
        var r := s.db.cells[k].record;
        var o := ServeTurn(e.policies, r, q.info.turn);
        if o.applied.NoSignal? then []
        else [Escalated(k, o.record.model, o.record.policyName, o.applied, r.model, r.escalations + 1)]
      else if q.pc.Pinning? && q.pc.record.Pinned? then
        var r := q.pc.record;
        var pinned := PinnedEvent(k, r.model, r.policyName, q.info.pathOverride && !q.info.subagent, q.info.subagent);
        if q.info.subagent || q.info.pathOverride then [pinned]
        else if q.answer.Some? then [Classified(k, r.model, r.policyName, r.confidence), pinned]
        else [Fallback(k, r.model, r.policyName), pinned]
      else []
  }

  lemma ReadLogs(e: Env, s: State, id: nat, answered: bool)
    requires e.Valid() && id in s.requests && s.requests[id].pc.Reading?
    ensures ServeRead(e, s, id, answered).events == s.events + Logs(e, s, Serve(id, answered))
  {
    hide Execute, AfterRead, ServeTurn;
    if ReadsPinned(s, Serve(id, answered), s.requests[id].info.key) {
      var r := s.db.cells[s.requests[id].info.key].record;
      AppliedIsCounted(e.policies, r, s.requests[id].info.turn);
    }
  }

  lemma AppliedIsCounted(p: PoliciesConfig, r: Record, turn: Turn)
    requires p.Valid() && r.Pinned?
    ensures var o := ServeTurn(p, r, turn);
            !o.applied.NoSignal? ==> o.record.escalations == r.escalations + 1
  {
    hide Detected, Anchor;
  }

  lemma PinLogs(e: Env, s: State, id: nat, answered: bool)
    requires e.Valid() && id in s.requests && s.requests[id].pc.Pinning?
    ensures ServePin(e, s, id, answered).events == s.events + Logs(e, s, Serve(id, answered))
  {
    hide Execute;
  }

  lemma OthersLogNothing(e: Env, s: State, id: nat, answered: bool)
    requires e.Valid() && id in s.requests && !s.requests[id].pc.Reading? && !s.requests[id].pc.Pinning?
    ensures ServeStore(e, s, id, answered).events == s.events
  {
    hide Execute, Won, BuildSubagentRecord, Placeholder, UpdateCommand;
  }

  lemma StepLogs(e: Env, s: State, l: Label)
    requires e.Valid()
    ensures Next(e, s, l).events == s.events + Logs(e, s, l)
  {
    hide ServeRead, ServePin, ServeClaim, ServeParent, ServeUpdate, Execute, PinFor, ServeTurn;
    if l.Serve? && l.id in s.requests {
      if s.requests[l.id].pc.Reading? {
        ReadLogs(e, s, l.id, l.answered);
      } else if s.requests[l.id].pc.Pinning? {
        PinLogs(e, s, l.id, l.answered);
      } else {
        OthersLogNothing(e, s, l.id, l.answered);
      }
    }
  }

  /** What a request did before it built its pin is never revised. */
  lemma BuiltStays(e: Env, s: State, l: Label, id: nat)
    requires e.Valid() && Inv(e, s) && id in s.requests && s.requests[id].built.Some?
    ensures var t := Next(e, s, l);
            id in t.requests
            && t.requests[id].info == s.requests[id].info && t.requests[id].built == s.requests[id].built
            && t.requests[id].answer == s.requests[id].answer && t.requests[id].asks == s.requests[id].asks
  {
    hide Inv, ServeStore, ServeAnswer, Execute, WellPinned, AboveForcedParent;
    InvIsConsistent(e, s, id);
    match l
    case Serve(i, answered) =>
      if i in s.requests {
        ServeIsCall(e, s, i, answered);
        if i == id { OtherServesKeepPin(e, s, i, answered); }
      }
    case Answer(i, answer) => AnswerLeavesStore(e, s, i, answer);
    case _ =>
  }

  lemma ToldStays(e: Env, s: State, l: Label, ev: Event)
    requires e.Valid() && Inv(e, s) && Told(e, s, ev)
    ensures Told(e, Next(e, s, l), ev)
  {
    hide Inv, Next, WellPinned;
    var t := Next(e, s, l);
    match ev
    case Classified(k, m, pn, c) =>
      var id :| ToldClassified(s, id, k, m, pn, c);
      BuiltStays(e, s, l, id);
      assert ToldClassified(t, id, k, m, pn, c);
    case Fallback(k, m, pn) =>
      var id :| ToldFallback(s, id, k, m, pn);
      BuiltStays(e, s, l, id);
      assert ToldFallback(t, id, k, m, pn);
    case PinnedEvent(k, m, pn, forced, sub) =>
      var id :| ToldPinned(s, id, k, m, pn, forced, sub);
      BuiltStays(e, s, l, id);
      assert ToldPinned(t, id, k, m, pn, forced, sub);
    case Escalated(k, m, pn, reason, from, n) =>
      var id :| ToldEscalated(e, s, id, k, m, pn, from, n);
      BuiltStays(e, s, l, id);
      assert ToldEscalated(e, t, id, k, m, pn, from, n);
  }

  /** Each new event is true of the state before its step already. */
  lemma LogsAreTold(e: Env, s: State, l: Label, ev: Event)
    requires e.Valid() && Inv(e, s) && ev in Logs(e, s, l)
    ensures Told(e, s, ev)
  {
    hide Inv, ServeTurn, WellPinned, DescendsFrom, AboveForcedParent;
    var q := s.requests[l.id];
    var k := q.info.key;
    InvIsConsistent(e, s, l.id);
    if ReadsPinned(s, l, k) {
      CellOfInv(e, s, k);
      EscalationIsTold(e, s, k, q.info.turn);
    } else {
      var r := q.pc.record;
      assert Built(s, l.id, k, r.model, r.policyName);
      if ev.Classified? {
        assert ToldClassified(s, l.id, k, r.model, r.policyName, r.confidence);
      } else if ev.Fallback? {
        assert ToldFallback(s, l.id, k, r.model, r.policyName);
      } else {
        assert ToldPinned(s, l.id, k, r.model, r.policyName, q.info.pathOverride && !q.info.subagent, q.info.subagent);
      }
    }
  }

  lemma EscalationIsTold(e: Env, s: State, k: string, turn: Turn)
    requires e.Valid() && StoredPinned(s, k) && HasPin(e, s, k, s.db.cells[k].record)
    ensures var r := s.db.cells[k].record;
            var o := ServeTurn(e.policies, r, turn);
            !o.applied.NoSignal? ==>
              Told(e, s, Escalated(k, o.record.model, o.record.policyName, o.applied, r.model, r.escalations + 1))
  {
    hide ServeTurn, WellPinned;
    var r := s.db.cells[k].record;
    var o := ServeTurn(e.policies, r, turn);
    var id :| PinnedBy(e, s, id, k, r);
    TurnKeepsDescent(e.policies, s.requests[id].built.value, r, turn);
    if !o.applied.NoSignal? {
      assert ToldEscalated(e, s, id, k, o.record.model, o.record.policyName, r.model, r.escalations + 1);
    }
  }

  /** In every run, every event of the log is true: CLASSIFIED and FALLBACK tell whether the classifier
      answered the one request that asked it, PINNED which pin was built and how, and ESCALATED which
      step above the session's pin was taken, from which model to which. */
  lemma {:induction false} EventsAreTrue(e: Env, now: int, labels: seq<Label>)
    requires e.Valid()
    ensures AllTold(e, Run(e, now, labels))
  {
    hide Next, Told, Logs;
    if labels != [] {
      var init, l := labels[..|labels| - 1], labels[|labels| - 1];
      var s := Run(e, now, init);
      EventsAreTrue(e, now, init);
      RunKeepsInv(e, now, init);
      StepLogs(e, s, l);
      forall ev | ev in Next(e, s, l).events ensures Told(e, Next(e, s, l), ev) {
        if ev !in s.events { LogsAreTold(e, s, l, ev); }
        ToldStays(e, s, l, ev);
      }
    }
  }
}
