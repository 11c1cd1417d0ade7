/** The pre-call hook as one object: requests in, routed requests out. */
module Hook {
  import opened Options
  import opened SessionKey
  import opened Escalation
  import opened StateMachine
  import opened Store
  import opened Protocol
  import opened Overrides

  datatype Config = Config(env: Env, enabled: bool, shadow: bool, virtualModel: string, subagentRouting: bool,
                           sessionHeaders: seq<string>, hash: string -> string)

  /** A request as the proxy hands it over. `model` is absent when it is not a string; `escalate`
      and `pathOverride` tell whether the escalation header is set and a path override matches;
      `classify` is what the classifier would answer. */
  datatype Incoming = Incoming(routable: bool, model: Option<string>, headers: Headers, alias: string,
                               data: RequestData, escalate: bool, pathOverride: bool,
                               classify: Option<ClassifyResult>)

  /** What happens to each command a request may send to the store. */
  datatype Outages = Outages(read: ReadAttempts, claim: Fault, parent: ReadAttempts, pin: Fault, update: Attempts)

  /** What becomes of each of its store calls in the end. */
  datatype Fates = Fates(read: Fault, claim: Fault, parent: Fault, pin: Fault, update: Fault)

  /** The decision stashed in the request's metadata. */
  datatype Stash = Stash(sessionKey: string, source: KeySource, model: string, shadow: bool)

  datatype Response = Untouched | Routed(model: string, stash: Option<Stash>)

  datatype LogEntry =
    | Decision(event: Event, shadow: bool)
    | Override(session: string, model: string, shadow: bool)

  type Pair = (string, string)

  /** `getex` tells whether the client still tries GETEX. */
  datatype RouterState = RouterState(db: Db, getex: bool, seen: seq<Pair>, log: seq<LogEntry>)

  // ---------------------------------------------------------------- one request, uninterrupted

  datatype Outcome = Outcome(db: Db, model: string, events: seq<Event>)

  function After(db: Db, c: Command, fate: Fault): Db {
    if fate.Lost? then db else Execute(db, c)
  }

  function ServePinned(e: Env, db: Db, info: Info, r: Record, update: Fault): Outcome
    requires e.Valid() && r.Pinned?
  {
    var o := ServeTurn(e.policies, r, info.turn);
    Outcome(if o.write then After(db, UpdateCommand(e.server, info.key, o.record, e.ttl), update) else db,
            o.record.model, EscalationEvent(info.key, r, o))
  }

  function PinIt(e: Env, db: Db, info: Info, answer: Option<ClassifyResult>, r: Record, pin: Fault): Outcome
    requires r.Pinned?
  {
    Outcome(After(db, SetWithTtl(info.key, r, e.ttl), pin), r.model, PinEvents(info, answer, r))
  }

  function ServeFirst(e: Env, db: Db, info: Info, classify: Option<ClassifyResult>,
                      claim: Fault, parentRead: Fault, pin: Fault): Outcome
    requires e.Valid()
  {
    var db1 := After(db, SetIfAbsent(info.key, Placeholder(e.policies), CLAIM_TTL), claim);
    if !claim.Answered? || info.key in db.cells then Outcome(db1, e.policies.defaultModel, [])
    else if info.subagent then
      var parent := if parentRead.Answered? then Read(db1, info.baseKey) else None;
      PinIt(e, After(db1, Refresh(info.baseKey, e.ttl), parentRead), info, None,
            BuildSubagentRecord(e.policies, parent, info.hash, info.alias, |info.turn.messages|, db.now), pin)
    else if info.pathOverride then PinIt(e, db1, info, None, PinFor(e, info, None, db.now), pin)
    else PinIt(e, db1, info, classify, PinFor(e, info, classify, db.now), pin)
  }

  /** The whole effect of one routed request that no other request interleaves with. */
  function ServeAlone(e: Env, db: Db, info: Info, classify: Option<ClassifyResult>, f: Fates): Outcome
    requires e.Valid()
  {
    var seen := if f.read.Answered? then Read(db, info.key) else None;
    var db1 := After(db, Refresh(info.key, e.ttl), f.read);
    match seen
    case None => ServeFirst(e, db1, info, classify, f.claim, f.parent, f.pin)
    case Some(Classifying(_, _)) => Outcome(db1, e.policies.defaultModel, [])
    case Some(r) => ServePinned(e, db1, info, r, f.update)
  }

  /** A request gets to read its parent's record if it is a subagent's and won its claim. */
  predicate ReadsParent(db: Db, info: Info, claim: Fault) {
    info.subagent && claim.Answered? && info.key !in db.cells
  }

  /** Whether the client still tries GETEX after a request's own read, and after all its reads. */
  predicate GetexAfterRead(server: Server, getex: bool, out: Outages) {
    StillTriesGetex(server, getex, out.read)
  }

  predicate GetexAfter(server: Server, getex: bool, db: Db, info: Info, out: Outages) {
    var getex1 := GetexAfterRead(server, getex, out);
    if ReadsParent(db, info, out.claim) then StillTriesGetex(server, getex1, out.parent) else getex1
  }

  function Settled(server: Server, getex: bool, out: Outages): Fates {
    Fates(ReadFate(server, getex, out.read), out.claim,
          ReadFate(server, GetexAfterRead(server, getex, out), out.parent),
          out.pin, UpdateFate(server, out.update))
  }

  // ---------------------------------------------------------------- routing

  function KeyOf(cfg: Config, q: Incoming): (string, KeySource) {
    DeriveSessionKey(q.data, q.headers, q.alias, cfg.sessionHeaders, cfg.hash)
  }

  function InfoOf(cfg: Config, q: Incoming): Info {
    var base := KeyOf(cfg, q).0;
    var agent := AgentId(q.headers, AGENT_HEADER);
    var subagent := cfg.subagentRouting && AgentId(q.headers, PARENT_AGENT_HEADER).Some?;
    var key := if subagent && agent.Some? then base + ":" + agent.value else base;
    Info(key, base, subagent, Turn(q.data.messages, q.escalate), q.pathOverride && !subagent,
         cfg.hash(FirstUserMessageText(q.data)), q.alias)
  }

  /** A request naming a concrete model bypasses routing; it is logged once per window if its
      session is known. */
  function OverrideOffer(cfg: Config, q: Incoming): Option<Pair> {
    var session := SessionIdFromHeaders(q.headers, cfg.sessionHeaders);
    if q.model.None? || q.model.value == "" || session == "" then None
    else Some((session, q.model.value))
  }

  function LogOverride(cfg: Config, st: RouterState, q: Incoming): RouterState {
    match OverrideOffer(cfg, q)
    case None => st
    case Some(pair) =>
      var (seen, logged) := Offer(st.seen, pair);
      st.(seen := seen, log := st.log + if logged then [Override(pair.0, pair.1, cfg.shadow)] else [])
  }

  predicate Bypasses(cfg: Config, q: Incoming) {
    !q.routable || q.model != Some(cfg.virtualModel) || !cfg.enabled
  }

  predicate SideChannel(cfg: Config, q: Incoming) {
    var text := SystemText(q.data);
    text != "" && cfg.env.policies.isSideChannel(text)
  }

  function Decisions(cfg: Config, events: seq<Event>): seq<LogEntry> {
    seq(|events|, i requires 0 <= i < |events| => Decision(events[i], cfg.shadow))
  }

  /** What one request does to the router, and how it leaves. */
  function Route(cfg: Config, st: RouterState, q: Incoming, out: Outages): (RouterState, Response)
    requires cfg.env.Valid()
  {
    if !q.routable then (st, Untouched)
    else if q.model != Some(cfg.virtualModel) then (LogOverride(cfg, st, q), Untouched)
    else if !cfg.enabled then (st, Untouched)
    else if SideChannel(cfg, q) then (st, Routed(cfg.env.policies.CheapestTier().model, None))
    else
      var info := InfoOf(cfg, q);
      var o := ServeAlone(cfg.env, st.db, info, q.classify, Settled(cfg.env.server, st.getex, out));
      (st.(db := o.db, getex := GetexAfter(cfg.env.server, st.getex, st.db, info, out),
           log := st.log + Decisions(cfg, o.events)),
       Routed(if cfg.shadow then cfg.env.policies.defaultModel else o.model,
              Some(Stash(info.key, KeyOf(cfg, q).1, o.model, cfg.shadow))))
  }

  // ---------------------------------------------------------------- the router object

  class LiteAutoRouter {
    const cfg: Config
    const store: SessionStore
    var overrideSeen: seq<Pair>
    var log: seq<LogEntry>

    ghost predicate Valid()
      reads this, store
    {
      cfg.env.Valid() && store.ttl == cfg.env.ttl && store.server == cfg.env.server
    }

    function View(): RouterState
      reads this, store
    {
      RouterState(store.db, store.getexSupported, overrideSeen, log)
    }

    constructor (cfg: Config, store: SessionStore)
      requires cfg.env.Valid() && store.ttl == cfg.env.ttl && store.server == cfg.env.server
      ensures Valid() && this.cfg == cfg && this.store == store
      ensures overrideSeen == [] && log == []
    {
      this.cfg, this.store := cfg, store;
      overrideSeen, log := [], [];
    }

    method Emit(events: seq<Event>)
      modifies this`log
      ensures log == old(log) + Decisions(cfg, events)
    {
      log := log + Decisions(cfg, events);
    }

    method MaybeLogOverride(q: Incoming)
      modifies this`log, this`overrideSeen
      ensures View() == LogOverride(cfg, old(View()), q)
    {
      if q.model.None? || q.model.value == "" {
        return;
      }
      var session := SessionIdFromHeaders(q.headers, cfg.sessionHeaders);
      if session == "" {
        return;
      }
      var pair := (session, q.model.value);
      if pair in overrideSeen {
        return;
      }
      overrideSeen := overrideSeen + [pair];
      if |overrideSeen| > WINDOW {
        overrideSeen := overrideSeen[1..];
      }
      log := log + [Override(session, q.model.value, cfg.shadow)];
    }

    /** The pinned path: detect, maybe escalate, write back only what changed. */
    method HandlePinned(info: Info, record: Record, out: Outages) returns (model: string)
      requires Valid() && record.Pinned?
      modifies this`log, store`db
      ensures Valid() && overrideSeen == old(overrideSeen)
      ensures var o := ServePinned(cfg.env, old(store.db), info, record, UpdateFate(cfg.env.server, out.update));
              store.db == o.db && model == o.model && log == old(log) + Decisions(cfg, o.events)
    {
      hide Scanned, Anchor, Execute, UpdateCommand;
      var p := cfg.env.policies;
      var messages := MessageList(info.turn.messages);
      var signal, newScan := Detect(messages, info.turn.escalateHeader, record.scan, p.escalation);
      var updated: Option<Record> := None;
      ghost var events: seq<Event> := [];
      if !signal.NoSignal? {
        var escalated := Escalate(p, record);
        if escalated.Some? {
          newScan := Consume(newScan, |info.turn.messages|);
          updated := Some(escalated.value.(scan := newScan));
          events := [Escalated(info.key, updated.value.model, updated.value.policyName, signal, record.model,
                               updated.value.escalations)];
          Emit([Escalated(info.key, updated.value.model, updated.value.policyName, signal, record.model,
                          updated.value.escalations)]);
        }
      }
      if updated.None? && newScan != record.scan {
        updated := Some(record.(scan := newScan));
      }
      if updated.Some? {
        store.Update(info.key, updated.value, out.update);
        model := updated.value.model;
      } else {
        model := record.model;
      }
      assert log == old(log) + Decisions(cfg, events);
    }

    /** The first request of a session: claim, classify or inherit, pin. */
    method HandleFirstRequest(info: Info, classify: Option<ClassifyResult>, out: Outages) returns (model: string)
      requires Valid()
      modifies this`log, store
      ensures Valid() && overrideSeen == old(overrideSeen)
      ensures var o := ServeFirst(cfg.env, old(store.db), info, classify, out.claim,
                                  ReadFate(cfg.env.server, old(store.getexSupported), out.parent), out.pin);
              store.db == o.db && model == o.model && log == old(log) + Decisions(cfg, o.events)
      ensures store.getexSupported == if ReadsParent(old(store.db), info, out.claim)
                                      then StillTriesGetex(cfg.env.server, old(store.getexSupported), out.parent)
                                      else old(store.getexSupported)
    {
      hide PinEvents, Placeholder;
      var e := cfg.env;
      var claimed := store.ClaimForClassification(info.key, Placeholder(e.policies), out.claim);
      if !claimed {
        assert log == old(log) + Decisions(cfg, []);
        return e.policies.defaultModel;
      }
      var record: Record;
      var answer: Option<ClassifyResult> := None;
      if info.subagent {
        var parent := store.GetAndRefresh(info.baseKey, out.parent);
        record := BuildSubagentRecord(e.policies, parent, info.hash, info.alias, |info.turn.messages|, store.db.now);
      } else {
        if !info.pathOverride {
          answer := classify;
        }
        record := PinFor(e, info, answer, store.db.now);
      }
      store.WritePin(info.key, record, out.pin);
      Emit(PinEvents(info, answer, record));
      model := record.model;
    }

    method RouteRequest(q: Incoming, out: Outages) returns (r: Response)
      requires Valid()
      modifies this, store
      ensures Valid()
      ensures (View(), r) == Route(cfg, old(View()), q, out)
    {
      if !q.routable {
        return Untouched;
      }
      if q.model != Some(cfg.virtualModel) {
        MaybeLogOverride(q);
        return Untouched;
      }
      if !cfg.enabled {
        return Untouched;
      }
      if SideChannel(cfg, q) {
        return Routed(cfg.env.policies.CheapestTier().model, None);
      }
      var info := InfoOf(cfg, q);
      var record := store.GetAndRefresh(info.key, out.read);
      var decided: string;
      if record.Some? && record.value.Pinned? {
        decided := HandlePinned(info, record.value, out);
      } else if record.Some? {
        decided := cfg.env.policies.defaultModel;
        assert log == old(log) + Decisions(cfg, []);
      } else {
        decided := HandleFirstRequest(info, q.classify, out);
      }
      r := Routed(if cfg.shadow then cfg.env.policies.defaultModel else decided,
                  Some(Stash(info.key, KeyOf(cfg, q).1, decided, cfg.shadow)));
    }
  }
}
