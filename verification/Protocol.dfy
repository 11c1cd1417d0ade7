/** Concurrent requests against the store, one atomic step at a time. Every point at which the
    router awaits something is a point at which other requests may run. */
module Protocol {
  import opened Options
  import opened Policies
  import opened Escalation
  import opened StateMachine
  import opened Store

  datatype Env = Env(policies: PoliciesConfig, ttl: nat, server: Server) {
    ghost predicate Valid() {
      policies.Valid() && ttl > 0
    }
  }

  /** What a request brings along. `key` and `baseKey` differ only for subagent requests. */
  datatype Info = Info(key: string, baseKey: string, subagent: bool, turn: Turn, pathOverride: bool,
                       hash: string, alias: string)

  /** Where a request stands: the await it is suspended at, or its decided model. */
  datatype Pc =
    | Reading                   // first GETEX of its key
    | Claiming                  // SET NX of the placeholder
    | ReadingParent             // claim won; GETEX of the parent's key
    | Asking                    // claim won; classifier call
    | Pinning(record: Record)   // SET EX of the pin
    | Updating(record: Record)  // SET KEEPTTL of the updated record
    | Done(model: string)

  /** Besides its position, a request remembers what it did: when it read its key and won its
      claim, how many classifier calls it made, and the pin it built. */
  datatype Request = Request(info: Info, pc: Pc, readAt: Option<int>, claimedAt: Option<int>, asks: nat,
                             answer: Option<ClassifyResult>, parent: Option<Record>, built: Option<Record>)

  datatype Event =
    | Classified(key: string, model: string, policyName: string, confidence: real)
    | Fallback(key: string, model: string, policyName: string)
    | PinnedEvent(key: string, model: string, policyName: string, pathOverride: bool, subagent: bool)
    | Escalated(key: string, model: string, policyName: string, reason: Signal, fromModel: string, escalations: int)

  /** A store command whose answer its request did not see. It may reach the server later, any
      number of times, or never. */
  datatype Pending = Pending(id: nat, command: Command)

  datatype State = State(db: Db, late: set<Pending>, requests: map<nat, Request>, events: seq<Event>,
                         served: map<string, seq<Turn>>, lastRead: map<string, int>)

  datatype Label =
    | Arrive(id: nat, info: Info)
    | Serve(id: nat, answered: bool)                           // the request's pending store call returns
    | Answer(id: nat, classify: Option<ClassifyResult>)        // the classifier call returns
    | Abort(id: nat)                                           // anything raises inside the hook
    | Land(pending: Pending)                                   // an unanswered command takes effect
    | Tick(ms: nat)
    | Drop(key: string)                                        // the server evicts a key

  function Init(now: int): State {
    State(Db(now, map[]), {}, map[], [], map[], map[])
  }

  function Turns(s: State, key: string): seq<Turn> {
    if key in s.served then s.served[key] else []
  }

  function Set(s: State, id: nat, q: Request): State {
    s.(requests := s.requests[id := q])
  }

  /** A store call of request id: answered, it takes effect now; otherwise it is left pending. */
  function Call(s: State, id: nat, c: Command, answered: bool): State {
    if answered then s.(db := Execute(s.db, c)) else s.(late := s.late + {Pending(id, c)})
  }

  function Looked(s: State, key: string): State {
    s.(lastRead := s.lastRead[key := s.db.now])
  }

  // ---------------------------------------------------------------- the steps of one request

  function EscalationEvent(key: string, before: Record, o: PinnedOutcome): seq<Event>
    requires before.Pinned? && o.record.Pinned?
  {
    if o.applied.NoSignal? then []
    else [Escalated(key, o.record.model, o.record.policyName, o.applied, before.model, o.record.escalations)]
  }

  /** Where the first read leaves its request: a miss goes on to claim, a placeholder means another
      request is classifying, and a pinned record runs the pinned path up to its write. */
  function AfterRead(e: Env, now: int, q: Request, seen: Option<Record>): Request
    requires e.Valid()
  {
    var q1 := q.(readAt := Some(now));
    match seen
    case None => q1.(pc := Claiming)
    case Some(Classifying(_, _)) => q1.(pc := Done(e.policies.defaultModel))
    case Some(r) =>
      var o := ServeTurn(e.policies, r, q.info.turn);
      q1.(pc := if o.write then Updating(o.record) else Done(o.record.model))
  }

  /** What a pinned read logs: the escalation event, if any, and the turn it served. */
  function LogHit(e: Env, s: State, key: string, r: Record, turn: Turn): State
    requires e.Valid() && r.Pinned?
  {
    s.(events := s.events + EscalationEvent(key, r, ServeTurn(e.policies, r, turn)),
       served := s.served[key := Turns(s, key) + [turn]])
  }

  /** The first read. A failed read looks like a miss. */
  function ServeRead(e: Env, s: State, id: nat, answered: bool): State
    requires e.Valid() && id in s.requests
  {
    var q, key := s.requests[id], s.requests[id].info.key;
    var s1 := Call(s, id, Refresh(key, e.ttl), answered);
    if !answered then Set(s1, id, q.(pc := Claiming))
    else
      var seen := Read(s.db, key);
      var s2 := Looked(s1, key);
      var s3 := if seen.Some? && seen.value.Pinned? then LogHit(e, s2, key, seen.value, q.info.turn) else s2;
      Set(s3, id, AfterRead(e, s.db.now, q, seen))
  }

  /** The claim. Losing it, or not hearing back, yields the default model for this request. */
  function ServeClaim(e: Env, s: State, id: nat, answered: bool): State
    requires e.Valid() && id in s.requests
  {
    var q, key := s.requests[id], s.requests[id].info.key;
    var s1 := Call(s, id, SetIfAbsent(key, Placeholder(e.policies), CLAIM_TTL), answered);
    if !answered || key in s.db.cells then Set(s1, id, q.(pc := Done(e.policies.defaultModel)))
    else Set(s1, id, Won(e, s.db.now, q))
  }

  /** A force-pinned session skips the classifier and goes straight to its pin. */
  function Won(e: Env, now: int, q: Request): Request
    requires e.Valid()
  {
    var q1 := q.(claimedAt := Some(now));
    if q.info.subagent then q1.(pc := ReadingParent)
    else if q.info.pathOverride then Build(q1, PinFor(e, q.info, None, now))
    else q1.(pc := Asking)
  }

  function PinFor(e: Env, info: Info, classify: Option<ClassifyResult>, now: int): Record
    requires e.Valid()
  {
    BuildPinRecord(e.policies, classify, info.pathOverride, info.hash, info.alias, |info.turn.messages|, now)
  }

  function Build(q: Request, pin: Record): Request {
    q.(pc := Pinning(pin), built := Some(pin))
  }

  function ServeParent(e: Env, s: State, id: nat, answered: bool): State
    requires e.Valid() && id in s.requests
  {
    var q := s.requests[id];
    var base := q.info.baseKey;
    var s1 := Call(s, id, Refresh(base, e.ttl), answered);
    var s2 := if answered then Looked(s1, base) else s1;
    var parent := if answered then Read(s.db, base) else None;
    var pin := BuildSubagentRecord(e.policies, parent, q.info.hash, q.info.alias, |q.info.turn.messages|, s.db.now);
    Set(s2, id, Build(q.(parent := parent), pin))
  }

  /** The classifier's answer, or None when it failed in any way. */
  function ServeAnswer(e: Env, s: State, id: nat, classify: Option<ClassifyResult>): State
    requires e.Valid() && id in s.requests
  {
    var q := s.requests[id];
    Set(s, id, Build(q.(asks := q.asks + 1, answer := classify), PinFor(e, q.info, classify, s.db.now)))
  }

  function PinEvents(info: Info, answer: Option<ClassifyResult>, r: Record): seq<Event>
    requires r.Pinned?
  {
    (if info.subagent || info.pathOverride then []
     else if answer.Some? then [Classified(info.key, r.model, r.policyName, r.confidence)]
     else [Fallback(info.key, r.model, r.policyName)])
    + [PinnedEvent(info.key, r.model, r.policyName, info.pathOverride && !info.subagent, info.subagent)]
  }

  function ServePin(e: Env, s: State, id: nat, answered: bool): State
    requires id in s.requests && s.requests[id].pc.Pinning?
  {
    var q := s.requests[id];
    var r := q.pc.record;
    var s1 := Call(s, id, SetWithTtl(q.info.key, r, e.ttl), answered);
    Set(s1.(events := s1.events + if r.Pinned? then PinEvents(q.info, q.answer, r) else []),
        id, q.(pc := Done(r.model)))
  }

  function ServeUpdate(e: Env, s: State, id: nat, answered: bool): State
    requires id in s.requests && s.requests[id].pc.Updating?
  {
    var q := s.requests[id];
    var r := q.pc.record;
    Set(Call(s, id, UpdateCommand(e.server, q.info.key, r, e.ttl), answered), id, q.(pc := Done(r.model)))
  }

  function ServeStore(e: Env, s: State, id: nat, answered: bool): State
    requires e.Valid() && id in s.requests
  {
    match s.requests[id].pc
    case Reading => ServeRead(e, s, id, answered)
    case Claiming => ServeClaim(e, s, id, answered)
    case ReadingParent => ServeParent(e, s, id, answered)
    case Pinning(_) => ServePin(e, s, id, answered)
    case Updating(_) => ServeUpdate(e, s, id, answered)
    case Asking => s
    case Done(_) => s
  }

  // ---------------------------------------------------------------- runs

  /** The effect of a label; one that is not enabled changes nothing. */
  function Next(e: Env, s: State, l: Label): State
    requires e.Valid()
  {
    match l
    case Arrive(id, info) =>
      if id in s.requests then s
      else Set(s, id, Request(info, Reading, None, None, 0, None, None, None))
    case Serve(id, answered) =>
      if id in s.requests then ServeStore(e, s, id, answered) else s
    case Answer(id, classify) =>
      if id in s.requests && s.requests[id].pc.Asking? then ServeAnswer(e, s, id, classify) else s
    case Abort(id) =>
      if id in s.requests && !s.requests[id].pc.Done?
      then Set(s, id, s.requests[id].(pc := Done(e.policies.defaultModel))) else s
    case Land(pending) =>
      if pending in s.late then s.(db := Execute(s.db, pending.command)) else s
    case Tick(ms) => s.(db := Advance(s.db, ms))
    case Drop(key) => s.(db := Store.Evict(s.db, key))
  }

  /** The state after a run. */
  function Run(e: Env, now: int, labels: seq<Label>): State
    requires e.Valid()
  {
    if labels == [] then Init(now)
    else Next(e, Run(e, now, labels[..|labels| - 1]), labels[|labels| - 1])
  }

  /** A plain request of the session with key k. */
  function Plain(k: string, turn: Turn): Info {
    Info(k, k, false, turn, false, "", "")
  }

  // ---------------------------------------------------------------- what a run looks like from one session

  predicate StoredPinned(s: State, k: string) {
    k in s.db.cells && s.db.cells[k].record.Pinned?
  }

  predicate OnKey(s: State, i: nat, k: string) {
    i in s.requests && s.requests[i].info.key == k
  }

  predicate ClaimedOn(s: State, id: nat, k: string) {
    id in s.requests && s.requests[id].info.key == k && s.requests[id].claimedAt.Some?
  }

  predicate UpdatingOn(s: State, i: nat, k: string) {
    OnKey(s, i, k) && s.requests[i].pc.Updating?
  }

  predicate PinningOn(s: State, i: nat, k: string) {
    OnKey(s, i, k) && s.requests[i].pc.Pinning?
  }

  /** A read of k that hits its pinned record. */
  predicate ReadsPinned(s: State, l: Label, k: string) {
    l.Serve? && l.answered && OnKey(s, l.id, k) && s.requests[l.id].pc.Reading? && StoredPinned(s, k)
  }

  predicate WritesPin(s: State, l: Label, k: string) {
    l.Serve? && l.answered && PinningOn(s, l.id, k)
  }

  predicate WritesBack(s: State, l: Label, k: string) {
    l.Serve? && l.answered && UpdatingOn(s, l.id, k)
  }

  predicate WritesRecord(c: Command) {
    c.SetWithTtl? || c.SetKeepTtl?
  }

  /** No write of a record of k is still on its way. */
  predicate NoLateWrites(s: State, k: string) {
    forall d :: d in s.late && d.command.key == k ==> !WritesRecord(d.command)
  }
}
