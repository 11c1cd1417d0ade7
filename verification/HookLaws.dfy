/** Laws of whole sequences of requests through the hook. */
module HookLaws {
  import opened Options
  import opened SessionKey
  import opened StateMachine
  import opened Store
  import opened Protocol
  import opened Coupling
  import opened Overrides
  import opened Serial
  import opened Hook
  import opened Pins

  // ---------------------------------------------------------------- the hook and the protocol

  /** The fate of the store call a request is at. */
  function FateAt(pc: Pc, f: Fates): Fault {
    match pc
    case Reading => f.read
    case Claiming => f.claim
    case ReadingParent => f.parent
    case Pinning(_) => f.pin
    case Updating(_) => f.update
    case _ => Answered
  }

  /** The next step of a request that runs alone. A command carried out without an answer is left
      pending and lands at once; a lost one stays pending. */
  function Alone(e: Env, s: State, id: nat, classify: Option<ClassifyResult>, f: Fates): State
    requires e.Valid()
  {
    if id !in s.requests then s
    else
      var q := s.requests[id];
      var fate := FateAt(q.pc, f);
      if q.pc.Asking? then Next(e, s, Answer(id, classify))
      else if fate.Unanswered? && CommandOf(e, q).Some?
      then Next(e, Next(e, s, Serve(id, false)), Land(Pending(id, CommandOf(e, q).value)))
      else Next(e, s, Serve(id, fate.Answered?))
  }

  /** A request that arrives and takes all its steps without interruption: at most four. */
  function Uninterrupted(e: Env, s: State, id: nat, info: Info, classify: Option<ClassifyResult>, f: Fates): State
    requires e.Valid()
  {
    var s1 := Alone(e, Next(e, s, Arrive(id, info)), id, classify, f);
    var s2 := Alone(e, s1, id, classify, f);
    var s3 := Alone(e, s2, id, classify, f);
    Alone(e, s3, id, classify, f)
  }

  lemma DoneStays(e: Env, s: State, id: nat, classify: Option<ClassifyResult>, f: Fates)
    requires e.Valid() && id in s.requests && s.requests[id].pc.Done?
    ensures Alone(e, s, id, classify, f) == s
  {
  }

  /** What the rest of an uninterrupted request does from each await on. */
  predicate Leaves(s: State, t: State, id: nat, o: Outcome) {
    && t.db == o.db
    && id in t.requests && t.requests[id].pc == Done(o.model)
    && t.events == s.events + o.events
  }

  /** A store call leaves the store as its command's fate says and its request where the protocol's
      step does. */
  lemma CallAlone(e: Env, s: State, id: nat, classify: Option<ClassifyResult>, f: Fates)
    requires e.Valid() && id in s.requests && CommandOf(e, s.requests[id]).Some?
    ensures var q := s.requests[id];
            var t, u := Alone(e, s, id, classify, f), ServeStore(e, s, id, FateAt(q.pc, f).Answered?);
            t.requests == u.requests && t.events == u.events
            && t.db == After(s.db, CommandOf(e, q).value, FateAt(q.pc, f))
  {
    hide ServeStore, Execute;
    ServeIsCall(e, s, id, FateAt(s.requests[id].pc, f).Answered?);
  }

  lemma PinAlone(e: Env, s: State, id: nat, classify: Option<ClassifyResult>, f: Fates)
    requires e.Valid() && id in s.requests && s.requests[id].pc.Pinning? && s.requests[id].pc.record.Pinned?
    ensures var q := s.requests[id];
            Leaves(s, Alone(e, s, id, classify, f), id, PinIt(e, s.db, q.info, q.answer, q.pc.record, f.pin))
  {
    hide PinEvents, Execute, Alone;
    CallAlone(e, s, id, classify, f);
  }

  lemma UpdateAlone(e: Env, s: State, id: nat, classify: Option<ClassifyResult>, f: Fates)
    requires e.Valid() && id in s.requests && s.requests[id].pc.Updating?
    ensures var q := s.requests[id];
            Leaves(s, Alone(e, s, id, classify, f), id,
                   Outcome(After(s.db, UpdateCommand(e.server, q.info.key, q.pc.record, e.ttl), f.update),
                           q.pc.record.model, []))
  {
    hide UpdateCommand, Execute, Alone;
    CallAlone(e, s, id, classify, f);
  }

  lemma PinsArePinned(e: Env, info: Info, classify: Option<ClassifyResult>, now: int)
    requires e.Valid()
    ensures PinFor(e, info, classify, now).Pinned? && PinFor(e, info, None, now).Pinned?
    ensures forall parent ::
              BuildSubagentRecord(e.policies, parent, info.hash, info.alias, |info.turn.messages|, now).Pinned?
  {
  }

  /** Winning the claim leaves two more steps, or one for a force-pinned session. */
  lemma FirstAlone(e: Env, s: State, id: nat, classify: Option<ClassifyResult>, f: Fates)
    requires e.Valid() && id in s.requests && s.requests[id].pc.Claiming? && s.requests[id].answer.None?
    ensures var s1 := Alone(e, s, id, classify, f);
            var s2 := Alone(e, s1, id, classify, f);
            var s3 := Alone(e, s2, id, classify, f);
            Leaves(s, s3, id, ServeFirst(e, s.db, s.requests[id].info, classify, f.claim, f.parent, f.pin))
  {
    hide BuildPinRecord, BuildSubagentRecord, PinEvents, Placeholder, Alone;
    var q := s.requests[id];
    var s1 := Alone(e, s, id, classify, f);
    CallAlone(e, s, id, classify, f);
    if !f.claim.Answered? || q.info.key in s.db.cells {
      DoneStays(e, s1, id, classify, f);
    } else {
      PinsArePinned(e, q.info, classify, s.db.now);
      var s2 := Alone(e, s1, id, classify, f);
      if q.info.subagent {
        CallAlone(e, s1, id, classify, f);
        PinAlone(e, s2, id, classify, f);
      } else if q.info.pathOverride {
        PinAlone(e, s1, id, classify, f);
        DoneStays(e, s2, id, classify, f);
      } else {
        AskAlone(e, s1, id, classify, f);
        PinAlone(e, s2, id, classify, f);
      }
    }
  }

  lemma AskAlone(e: Env, s: State, id: nat, classify: Option<ClassifyResult>, f: Fates)
    requires e.Valid() && id in s.requests && s.requests[id].pc.Asking?
    ensures Alone(e, s, id, classify, f) == ServeAnswer(e, s, id, classify)
  {
  }

  /** The hook's sequential meaning is the protocol's, under any outage: a request taking all its
      steps in a row changes the store, decides and logs exactly as ServeAlone says. */
  lemma UninterruptedIsServeAlone(e: Env, s: State, id: nat, info: Info, classify: Option<ClassifyResult>, f: Fates)
    requires e.Valid() && id !in s.requests
    ensures Leaves(s, Uninterrupted(e, s, id, info, classify, f), id, ServeAlone(e, s.db, info, classify, f))
  {
    hide ServeTurn, ServeFirst, PinEvents, EscalationEvent, Alone, Execute;
    var s0 := Next(e, s, Arrive(id, info));
    var s1 := Alone(e, s0, id, classify, f);
    var s2 := Alone(e, s1, id, classify, f);
    CallAlone(e, s0, id, classify, f);
    if !f.read.Answered? || info.key !in s.db.cells {
      FirstAlone(e, s1, id, classify, f);
    } else if s1.requests[id].pc.Updating? {
      UpdateAlone(e, s1, id, classify, f);
      DoneStays(e, s2, id, classify, f);
    } else {
      DoneStays(e, s1, id, classify, f);
    }
  }

  /** Replaying a header-free request of a pinned session decides the same model, logs nothing and
      writes nothing: it only slides the deadline, whatever happened to other keys in between. */
  lemma ReplayOnlySlidesTheDeadline(e: Env, db: Db, later: Db, info: Info, classify: Option<ClassifyResult>, f: Fates)
    requires e.Valid() && !info.turn.escalateHeader && f.read.Answered? && !f.update.Lost?
    requires info.key in db.cells && db.cells[info.key].record.Pinned?
    requires var first := ServeAlone(e, db, info, classify, f);
             Read(later, info.key) == Read(first.db, info.key)
    ensures var first := ServeAlone(e, db, info, classify, f);
            ServeAlone(e, later, info, classify, f)
            == Outcome(Execute(later, Refresh(info.key, e.ttl)), first.model, [])
  {
    hide ServeTurn, ServeFirst;
    var r := db.cells[info.key].record;
    var o := ServeTurn(e.policies, r, info.turn);
    SkippedWriteIsNoChange(e.policies, r, info.turn);
    assert Read(ServeAlone(e, db, info, classify, f).db, info.key) == Some(o.record);
    ReplayIsIdempotentExactly(e.policies, r, info.turn);
  }

  // ---------------------------------------------------------------- runs

  datatype Input = Request(q: Incoming, out: Outages) | Pass(ms: nat)

  function Start(db: Db): RouterState {
    RouterState(db, true, [], [])
  }

  function StepInput(cfg: Config, st: RouterState, i: Input): RouterState
    requires cfg.env.Valid()
  {
    match i
    case Request(q, out) => Route(cfg, st, q, out).0
    case Pass(ms) => st.(db := Advance(st.db, ms))
  }

  function HookRun(cfg: Config, st: RouterState, inputs: seq<Input>): RouterState
    requires cfg.env.Valid()
  {
    if inputs == [] then st
    else StepInput(cfg, HookRun(cfg, st, inputs[..|inputs| - 1]), inputs[|inputs| - 1])
  }

  /** The request is routed by its session. */
  predicate Matters(cfg: Config, q: Incoming) {
    !Bypasses(cfg, q) && !SideChannel(cfg, q)
  }

  /** The responses to the requests that are actually routed by session, in order. */
  function Answers(cfg: Config, st: RouterState, inputs: seq<Input>): seq<Response>
    requires cfg.env.Valid()
  {
    if inputs == [] then []
    else
      var init, last := inputs[..|inputs| - 1], inputs[|inputs| - 1];
      Answers(cfg, st, init)
      + (if last.Request? && Matters(cfg, last.q) then [Route(cfg, HookRun(cfg, st, init), last.q, last.out).1] else [])
  }

  /** The routing decisions in a log, without the override entries. */
  function DecisionsIn(log: seq<LogEntry>): seq<LogEntry> {
    if log == [] then []
    else DecisionsIn(log[..|log| - 1]) + (if log[|log| - 1].Decision? then [log[|log| - 1]] else [])
  }

  function OverridesIn(log: seq<LogEntry>): seq<Pair> {
    if log == [] then []
    else OverridesIn(log[..|log| - 1])
         + (if log[|log| - 1].Override? then [(log[|log| - 1].session, log[|log| - 1].model)] else [])
  }

  lemma {:induction false} LogsAppend(a: seq<LogEntry>, b: seq<LogEntry>)
    ensures DecisionsIn(a + b) == DecisionsIn(a) + DecisionsIn(b)
    ensures OverridesIn(a + b) == OverridesIn(a) + OverridesIn(b)
  {
    if b == [] {
      assert a + b == a;
    } else {
      assert (a + b)[..|a + b| - 1] == a + b[..|b| - 1];
      LogsAppend(a, b[..|b| - 1]);
    }
  }

  lemma {:induction false} AllDecisions(log: seq<LogEntry>)
    requires forall i :: 0 <= i < |log| ==> log[i].Decision?
    ensures DecisionsIn(log) == log && OverridesIn(log) == []
  {
    if log != [] {
      AllDecisions(log[..|log| - 1]);
    }
  }

  predicate NamesAModel(cfg: Config, q: Incoming) {
    q.routable && q.model != Some(cfg.virtualModel)
  }

  /** How one request extends the two halves of the log. */
  lemma RouteLogs(cfg: Config, st: RouterState, q: Incoming, out: Outages)
    requires cfg.env.Valid()
    ensures var t := Route(cfg, st, q, out).0;
            if !Matters(cfg, q)
            then t.db == st.db && t.getex == st.getex && DecisionsIn(t.log) == DecisionsIn(st.log)
                 && (!NamesAModel(cfg, q) ==> t == st)
            else var f := Settled(cfg.env.server, st.getex, out);
                 var o := ServeAlone(cfg.env, st.db, InfoOf(cfg, q), q.classify, f);
                 && t.db == o.db && t.seen == st.seen
                 && t.getex == GetexAfter(cfg.env.server, st.getex, st.db, InfoOf(cfg, q), out)
                 && DecisionsIn(t.log) == DecisionsIn(st.log) + Decisions(cfg, o.events)
                 && OverridesIn(t.log) == OverridesIn(st.log)
  {
    hide ServeAlone, InfoOf, SideChannel, DecisionsIn, OverridesIn, Offer;
    if !Bypasses(cfg, q) && !SideChannel(cfg, q) {
      var o := ServeAlone(cfg.env, st.db, InfoOf(cfg, q), q.classify, Settled(cfg.env.server, st.getex, out));
      LogsAppend(st.log, Decisions(cfg, o.events));
      AllDecisions(Decisions(cfg, o.events));
    } else if q.routable && q.model != Some(cfg.virtualModel) {
      OverrideLogs(cfg, st, q);
    }
  }

  lemma OverrideLogs(cfg: Config, st: RouterState, q: Incoming)
    ensures var t := LogOverride(cfg, st, q);
            && t.db == st.db && t.getex == st.getex
            && DecisionsIn(t.log) == DecisionsIn(st.log)
            && (OverrideOffer(cfg, q).None? ==> t == st)
            && (OverrideOffer(cfg, q).Some? ==>
                  var (seen, logged) := Offer(st.seen, OverrideOffer(cfg, q).value);
                  t.seen == seen
                  && OverridesIn(t.log) == OverridesIn(st.log) + (if logged then [OverrideOffer(cfg, q).value] else []))
  {
    hide Offer, OverrideOffer;
    var offer := OverrideOffer(cfg, q);
    if offer.Some? {
      var entry := Override(offer.value.0, offer.value.1, cfg.shadow);
      LogsAppend(st.log, [entry]);
      LogsAppend(st.log, []);
      assert [entry][..0] == [];
    }
  }

  // ---------------------------------------------------------------- what a client gets

  predicate HoldsPinned(db: Db, key: string) {
    key in db.cells && db.cells[key].record.Pinned?
  }

  /** The decided model in terms of the store: a pinned record that was read and served, the pin of a
      claim that was won, or else the default model. Unless its write is lost, the model is that of
      the record the key holds afterwards. */
  lemma DecidedModel(e: Env, db: Db, info: Info, classify: Option<ClassifyResult>, f: Fates)
    requires e.Valid()
    ensures var o := ServeAlone(e, db, info, classify, f);
            var hit := f.read.Answered? && HoldsPinned(db, info.key);
            var won := f.claim.Answered? && info.key !in db.cells;
            && (hit ==> o.model == ServeTurn(e.policies, db.cells[info.key].record, info.turn).record.model)
            && ((hit && !f.update.Lost?) || (won && !f.pin.Lost?) ==>
                  HoldsPinned(o.db, info.key) && o.model == o.db.cells[info.key].record.model)
            && (!hit && !won ==> o.model == e.policies.defaultModel && o.events == []
                                 && (HoldsPinned(o.db, info.key) <==> HoldsPinned(db, info.key)))
  {
    hide ServeTurn, EscalationEvent, PinEvents, PinFor, BuildSubagentRecord;
    PinsArePinned(e, info, classify, db.now);
    if f.read.Answered? && HoldsPinned(db, info.key) {
      SkippedWriteIsNoChange(e.policies, db.cells[info.key].record, info.turn);
    }
  }

  /** What a request that wins its claim pins: what its path override, the classifier's answer or its
      parent's stored record asks for. A base key equal to its own holds the placeholder by then. */
  lemma FirstPin(e: Env, db: Db, info: Info, classify: Option<ClassifyResult>, f: Fates)
    requires e.Valid() && f.claim.Answered? && info.key !in db.cells
    requires info.baseKey in db.cells && db.cells[info.baseKey].record.Pinned? ==>
               e.policies.TierIndex(db.cells[info.baseKey].record.policyName).Some?
    ensures var o := ServeAlone(e, db, info, classify, f);
            var parent := if f.parent.Answered? && info.baseKey != info.key then Read(db, info.baseKey) else None;
            exists pin :: PinsFor(e, info, classify, parent, pin)
              && o.model == pin.model && (!f.pin.Lost? ==> Read(o.db, info.key) == Some(pin))
  {
    hide PinFor, BuildSubagentRecord, PinEvents, PinnedByOverride, PinnedByAnswer, PinnedByParent;
    if info.subagent {
      var parent := if f.parent.Answered? && info.baseKey != info.key then Read(db, info.baseKey) else None;
      var seen := if !f.parent.Answered? then None
                  else if info.baseKey != info.key then parent else Some(Placeholder(e.policies));
      ParentPin(e, seen, info, db.now);
      var pin := BuildSubagentRecord(e.policies, seen, info.hash, info.alias, |info.turn.messages|, db.now);
      if seen != parent { PlaceholderIsNoParent(e, seen, pin); }
      assert PinsFor(e, info, classify, parent, pin);
    } else {
      var parent := if f.parent.Answered? && info.baseKey != info.key then Read(db, info.baseKey) else None;
      var pin := PinFor(e, info, if info.pathOverride then None else classify, db.now);
      if info.pathOverride { OverridePin(e, info, None, db.now); } else { AnswerPin(e, info, classify, db.now); }
      assert PinsFor(e, info, classify, parent, pin);
    }
  }

  ghost predicate PinsFor(e: Env, info: Info, classify: Option<ClassifyResult>, parent: Option<Record>, pin: Record)
    requires e.Valid()
  {
    && pin.Pinned?
    && (info.subagent ==> PinnedByParent(e.policies, parent, pin))
    && (!info.subagent && info.pathOverride ==> PinnedByOverride(e.policies, pin))
    && (!info.subagent && !info.pathOverride ==> PinnedByAnswer(e.policies, classify, pin))
  }

  /** A session that is still being classified counts as no parent. */
  lemma PlaceholderIsNoParent(e: Env, seen: Option<Record>, pin: Record)
    requires e.Valid() && pin.Pinned? && seen.Some? && seen.value.Classifying?
    ensures PinnedByParent(e.policies, seen, pin) ==> PinnedByParent(e.policies, None, pin)
  {
  }

  /** A live client is served the model its request decided in the protocol, a shadow client the default
      model; either way the stash tells the decided one and under which key and mode. */
  lemma ResponseIsDecision(cfg: Config, st: RouterState, q: Incoming, out: Outages, s: State, id: nat)
    requires cfg.env.Valid() && Matters(cfg, q) && s.db == st.db && id !in s.requests
    ensures var info, f := InfoOf(cfg, q), Settled(cfg.env.server, st.getex, out);
            var t := Uninterrupted(cfg.env, s, id, info, q.classify, f);
            var (after, response) := Route(cfg, st, q, out);
            && id in t.requests && t.requests[id].pc.Done?
            && after.db == t.db
            && response == Routed(if cfg.shadow then cfg.env.policies.defaultModel else t.requests[id].pc.model,
                                  Some(Stash(info.key, KeyOf(cfg, q).1, t.requests[id].pc.model, cfg.shadow)))
  {
    hide ServeAlone, Uninterrupted, InfoOf, KeyOf, SideChannel, Settled, GetexAfter;
    UninterruptedIsServeAlone(cfg.env, s, id, InfoOf(cfg, q), q.classify, Settled(cfg.env.server, st.getex, out));
  }

  /** In store terms, over both steps: after a live request whose read was answered and whose write was
      not lost, a client has the model of the pinned record its session holds, if it holds one. */
  lemma LiveClientGetsStoredModel(cfg: Config, st: RouterState, q: Incoming, out: Outages)
    requires cfg.env.Valid() && Matters(cfg, q) && !cfg.shadow
    requires var f := Settled(cfg.env.server, st.getex, out);
             f.read.Answered? && !f.update.Lost? && !f.pin.Lost?
    ensures var (after, response) := Route(cfg, st, q, out);
            && response.Routed? && response.stash.Some? && response.stash.value.model == response.model
            && (HoldsPinned(after.db, InfoOf(cfg, q).key) ==>
                  response.model == after.db.cells[InfoOf(cfg, q).key].record.model)
            && (!HoldsPinned(after.db, InfoOf(cfg, q).key) ==> response.model == cfg.env.policies.defaultModel)
  {
    hide InfoOf, KeyOf, SideChannel, ServeAlone, Settled, GetexAfter, Decisions;
    var info, f := InfoOf(cfg, q), Settled(cfg.env.server, st.getex, out);
    DecidedModel(cfg.env, st.db, info, q.classify, f);
  }

  /** The requests that are not routed by session: the client's housekeeping goes to the cheapest tier,
      everything else is left alone; the store and the sessions see none of it. */
  lemma UnroutedResponse(cfg: Config, st: RouterState, q: Incoming, out: Outages)
    requires cfg.env.Valid() && !Matters(cfg, q)
    ensures var (after, response) := Route(cfg, st, q, out);
            && after.db == st.db
            && (response == Untouched <==> !q.routable || q.model != Some(cfg.virtualModel) || !cfg.enabled)
            && (response != Untouched <==>
                  q.routable && q.model == Some(cfg.virtualModel) && cfg.enabled
                  && SystemText(q.data) != "" && cfg.env.policies.isSideChannel(SystemText(q.data)))
            && (response != Untouched ==> after == st && response == Routed(cfg.env.policies.tiers[0].model, None))
            && (after != st ==> q.routable && q.model.Some? && q.model.value != "" && q.model.value != cfg.virtualModel)
  {
    hide Offer, SessionIdFromHeaders, SystemText;
  }

  /** Which session a request belongs to: a subagent's own, named after its agent id, if subagents are
      routed and the request names a parent agent; the conversation's otherwise. A subagent's path is
      never overridden. */
  lemma WhoseSession(cfg: Config, q: Incoming)
    ensures var info, base := InfoOf(cfg, q), KeyOf(cfg, q).0;
            var agent := Header(q.headers, "x-claude-code-agent-id");
            && info.baseKey == base
            && (info.subagent <==> cfg.subagentRouting && Header(q.headers, "x-claude-code-parent-agent-id") != "")
            && info.key == (if info.subagent && agent != "" then base + ":" + agent else base)
            && (info.pathOverride <==> q.pathOverride && !info.subagent)
            && info.turn == Turn(q.data.messages, q.escalate) && info.alias == q.alias
            && info.hash == cfg.hash(FirstUserMessageText(q.data))
  {
    hide DeriveSessionKey, FirstUserMessageText;
  }

  /** What is offered to the dedupe window: the session id and the concrete model, if there are both. */
  lemma OfferNamesBoth(cfg: Config, q: Incoming, pair: Pair)
    ensures OverrideOffer(cfg, q) == Some(pair)
            <==> pair.0 == SessionIdFromHeaders(q.headers, cfg.sessionHeaders) && pair.0 != ""
                 && q.model == Some(pair.1) && pair.1 != ""
  {
  }

  /** Every log entry of a run carries the router's own mode. */
  lemma {:induction false} EntriesTellTheMode(cfg: Config, db: Db, inputs: seq<Input>)
    requires cfg.env.Valid()
    ensures forall x :: x in HookRun(cfg, Start(db), inputs).log ==> x.shadow == cfg.shadow
  {
    hide ServeAlone, Offer, InfoOf, KeyOf, SideChannel, Settled, OverrideOffer;
    if inputs != [] {
      EntriesTellTheMode(cfg, db, inputs[..|inputs| - 1]);
    }
  }

  // ---------------------------------------------------------------- erasure

  /** The run without its side-channel and concrete-model requests. */
  function Erase(cfg: Config, inputs: seq<Input>): seq<Input> {
    if inputs == [] then []
    else
      var last := inputs[|inputs| - 1];
      Erase(cfg, inputs[..|inputs| - 1]) + (if last.Request? && !Matters(cfg, last.q) then [] else [last])
  }

  lemma RouteDependsOnStoreOnly(cfg: Config, st: RouterState, st2: RouterState, q: Incoming, out: Outages)
    requires cfg.env.Valid() && Matters(cfg, q)
    requires st.db == st2.db && st.getex == st2.getex && DecisionsIn(st.log) == DecisionsIn(st2.log)
    ensures var (t, r) := Route(cfg, st, q, out);
            var (t2, r2) := Route(cfg, st2, q, out);
            t.db == t2.db && t.getex == t2.getex && DecisionsIn(t.log) == DecisionsIn(t2.log) && r == r2
  {
    hide ServeAlone, InfoOf, SideChannel, DecisionsIn, OverridesIn, Decisions, KeyOf;
    RouteLogs(cfg, st, q, out);
    RouteLogs(cfg, st2, q, out);
  }

  /** Erasure: deleting every side-channel and concrete-model request from a run changes neither
      the store, nor any routing decision logged, nor any response to a remaining request. */
  lemma {:induction false} Erasure(cfg: Config, st: RouterState, inputs: seq<Input>)
    requires cfg.env.Valid()
    ensures var full, rest := HookRun(cfg, st, inputs), HookRun(cfg, st, Erase(cfg, inputs));
            && full.db == rest.db && full.getex == rest.getex
            && DecisionsIn(full.log) == DecisionsIn(rest.log)
            && Answers(cfg, st, inputs) == Answers(cfg, st, Erase(cfg, inputs))
  {
    hide Route, Matters, DecisionsIn;
    if inputs != [] {
      var init, last := inputs[..|inputs| - 1], inputs[|inputs| - 1];
      Erasure(cfg, st, init);
      var full, rest := HookRun(cfg, st, init), HookRun(cfg, st, Erase(cfg, init));
      if last.Request? && !Matters(cfg, last.q) {
        assert Erase(cfg, inputs) == Erase(cfg, init);
        RouteLogs(cfg, full, last.q, last.out);
      } else {
        assert Erase(cfg, inputs) == Erase(cfg, init) + [last];
        assert (Erase(cfg, init) + [last])[..|Erase(cfg, init)|] == Erase(cfg, init);
        if last.Request? {
          RouteDependsOnStoreOnly(cfg, full, rest, last.q, last.out);
        }
      }
    }
  }

  // ---------------------------------------------------------------- shadow mode

  function Unflagged(x: LogEntry): LogEntry {
    x.(shadow := false)
  }

  /** Equal but for the shadow flags of the log. */
  predicate SameButFlags(a: RouterState, b: RouterState) {
    && a.db == b.db && a.getex == b.getex && a.seen == b.seen && |a.log| == |b.log|
    && forall i :: 0 <= i < |a.log| ==> Unflagged(a.log[i]) == Unflagged(b.log[i])
  }

  /** A shadow response next to the live one: same decision, default model served. */
  predicate ShadowOf(cfg: Config, shadow: Response, live: Response) {
    if live.Routed? && live.stash.Some? then
      shadow == Routed(cfg.env.policies.defaultModel, Some(live.stash.value.(shadow := true)))
      && live.stash.value.model == live.model && !live.stash.value.shadow
    else shadow == live
  }

  lemma RouteShadow(cfg: Config, a: RouterState, b: RouterState, q: Incoming, out: Outages)
    requires cfg.env.Valid() && SameButFlags(a, b)
    ensures var (t, r) := Route(cfg.(shadow := true), a, q, out);
            var (u, live) := Route(cfg.(shadow := false), b, q, out);
            SameButFlags(t, u) && ShadowOf(cfg, r, live)
  {
    hide ServeAlone, Offer, InfoOf, KeyOf, OverrideOffer, SideChannel;
    ShadowChangesNoInput(cfg, q);
  }

  /** The shadow flag plays no part in reading a request. */
  lemma ShadowChangesNoInput(cfg: Config, q: Incoming)
    ensures var a, b := cfg.(shadow := true), cfg.(shadow := false);
            InfoOf(a, q) == InfoOf(b, q) && KeyOf(a, q) == KeyOf(b, q)
            && OverrideOffer(a, q) == OverrideOffer(b, q) && SideChannel(a, q) == SideChannel(b, q)
  {
  }

  /** The response to the request at position i of a run. */
  function ResponseAt(cfg: Config, st: RouterState, inputs: seq<Input>, i: nat): Response
    requires cfg.env.Valid() && i < |inputs| && inputs[i].Request?
  {
    Route(cfg, HookRun(cfg, st, inputs[..i]), inputs[i].q, inputs[i].out).1
  }

  /** Shadow mode watches without touching: a shadow run and a live run over the same inputs keep
      the same store, decisions and log up to the flag, while every routed shadow response is the
      default model. */
  lemma {:induction false} ShadowBisimulates(cfg: Config, st: RouterState, inputs: seq<Input>)
    requires cfg.env.Valid()
    ensures SameButFlags(HookRun(cfg.(shadow := true), st, inputs), HookRun(cfg.(shadow := false), st, inputs))
    ensures forall i :: 0 <= i < |inputs| && inputs[i].Request? ==>
              ShadowOf(cfg, ResponseAt(cfg.(shadow := true), st, inputs, i),
                       ResponseAt(cfg.(shadow := false), st, inputs, i))
  {
    hide Route, ShadowOf, SameButFlags;
    if inputs == [] {
      assert SameButFlags(st, st) by { SameAsItself(st); }
    } else {
      var init, last := inputs[..|inputs| - 1], inputs[|inputs| - 1];
      ShadowBisimulates(cfg, st, init);
      var a, b := HookRun(cfg.(shadow := true), st, init), HookRun(cfg.(shadow := false), st, init);
      if last.Request? {
        RouteShadow(cfg, a, b, last.q, last.out);
      } else {
        TimeShadow(a, b, last.ms);
      }
      forall i | 0 <= i < |inputs| && inputs[i].Request?
        ensures ShadowOf(cfg, ResponseAt(cfg.(shadow := true), st, inputs, i),
                         ResponseAt(cfg.(shadow := false), st, inputs, i))
      {
        if i < |init| {
          assert inputs[..i] == init[..i] && inputs[i] == init[i];
        }
      }
    }
  }

  lemma SameAsItself(st: RouterState)
    ensures SameButFlags(st, st)
  {
  }

  lemma TimeShadow(a: RouterState, b: RouterState, ms: nat)
    requires SameButFlags(a, b)
    ensures SameButFlags(a.(db := Advance(a.db, ms)), b.(db := Advance(b.db, ms)))
  {
  }

  // ---------------------------------------------------------------- override events

  /** The pairs offered to the dedupe window by a run. */
  function Offers(cfg: Config, inputs: seq<Input>): seq<Pair> {
    if inputs == [] then []
    else
      var last := inputs[|inputs| - 1];
      Offers(cfg, inputs[..|inputs| - 1])
      + (if last.Request? && NamesAModel(cfg, last.q) && OverrideOffer(cfg, last.q).Some?
         then [OverrideOffer(cfg, last.q).value] else [])
  }

  /** Over any run, the router's window and its override events are those of the dedupe window fed
      with the run's concrete-model requests, so the window's laws hold of the event log. */
  lemma {:induction false} OverrideEventsFollowTheWindow(cfg: Config, db: Db, inputs: seq<Input>)
    requires cfg.env.Valid()
    ensures var st := HookRun(cfg, Start(db), inputs);
            st.seen == SeenAfter(Offers(cfg, inputs)) && OverridesIn(st.log) == Logged(Offers(cfg, inputs))
  {
    hide Offer, OverrideOffer, ServeAlone, InfoOf, SideChannel, Decisions;
    if inputs != [] {
      var init, last := inputs[..|inputs| - 1], inputs[|inputs| - 1];
      OverrideEventsFollowTheWindow(cfg, db, init);
      var st := HookRun(cfg, Start(db), init);
      if last.Request? {
        RouteLogs(cfg, st, last.q, last.out);
        OverrideLogs(cfg, st, last.q);
        var offers, offer := Offers(cfg, init), OverrideOffer(cfg, last.q);
        if NamesAModel(cfg, last.q) && offer.Some? {
          assert (offers + [offer.value])[..|offers|] == offers;
        } else {
          assert Offers(cfg, inputs) == offers;
        }
      } else {
        assert Offers(cfg, inputs) == Offers(cfg, init);
      }
    }
  }
}
