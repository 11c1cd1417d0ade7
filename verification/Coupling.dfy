/** What every interleaving, with any pattern of store failures, evictions, delays and aborted
    requests, keeps true of every session. */
module Coupling {
  import opened Options
  import opened StateMachine
  import opened Store
  import opened Protocol

  /** r descends from the pin that request id built for key. */
  predicate PinnedBy(e: Env, s: State, id: nat, key: string, r: Record)
    requires e.Valid()
  {
    && id in s.requests
    && s.requests[id].info.key == key
    && s.requests[id].built.Some?
    && DescendsFrom(e.policies, s.requests[id].built.value, r)
  }

  ghost predicate HasPin(e: Env, s: State, key: string, r: Record)
    requires e.Valid()
  {
    exists id :: PinnedBy(e, s, id, key, r)
  }

  ghost predicate CellOk(e: Env, s: State, key: string, r: Record)
    requires e.Valid()
  {
    (r.Pinned? ==> HasPin(e, s, key, r)) && (r.Classifying? ==> HoldsDefault(e, r))
  }

  /** A placeholder names the default model and the default tier. */
  predicate HoldsDefault(e: Env, r: Record)
    requires e.Valid()
  {
    r == Classifying(e.policies.defaultModel, e.policies.DefaultTier().name)
  }

  ghost predicate PendingOk(e: Env, s: State, d: Pending)
    requires e.Valid()
  {
    match d.command
    case SetIfAbsent(k, r, _) => HoldsDefault(e, r)
    case SetWithTtl(k, r, _) => r.Pinned? && HasPin(e, s, k, r)
    case SetKeepTtl(k, r) => r.Pinned? && HasPin(e, s, k, r)
    case Refresh(_, _) => true
  }

  ghost predicate LegalModel(e: Env, s: State, key: string, model: string)
    requires e.Valid()
  {
    model == e.policies.defaultModel || exists r :: HasPin(e, s, key, r) && r.model == model
  }

  /** A force-pinned parent read by a subagent bounds the subagent's pin from below. */
  predicate AboveForcedParent(e: Env, q: Request)
    requires e.Valid()
  {
    q.built.Some? && q.parent.Some? && q.parent.value.Pinned? && q.parent.value.pathOverride ==>
      WellPinned(e.policies, q.built.value)
      && e.policies.Position(e.policies.forceTier) <= e.policies.Position(q.built.value.policyName)
  }

  /** A request's own bookkeeping agrees with where it stands. */
  predicate Consistent(e: Env, q: Request)
    requires e.Valid()
  {
    && (q.pc.Reading? || q.pc.Claiming? || q.pc.Updating? ==> q.claimedAt.None?)
    && (q.pc.ReadingParent? || q.pc.Asking? ==> q.claimedAt.Some?)
    && (!q.pc.Pinning? && !q.pc.Done? ==> q.built.None? && q.parent.None?)
    && (q.pc.Pinning? ==> q.built == Some(q.pc.record))
    && (q.built.Some? ==> q.claimedAt.Some? && WellPinned(e.policies, q.built.value) && (q.pc.Pinning? || q.pc.Done?))
    && q.asks == (if q.built.Some? && !q.info.subagent && !q.info.pathOverride then 1 else 0)
    && (q.pc.ReadingParent? ==> q.info.subagent)
    && (q.pc.Asking? ==> !q.info.subagent && !q.info.pathOverride)
    && AboveForcedParent(e, q)
  }

  ghost predicate RequestOk(e: Env, s: State, q: Request)
    requires e.Valid()
  {
    && Consistent(e, q)
    && (q.pc.Updating? ==> q.pc.record.Pinned? && HasPin(e, s, q.info.key, q.pc.record))
    && (q.pc.Done? ==> LegalModel(e, s, q.info.key, q.pc.model))
  }

  ghost predicate Inv(e: Env, s: State)
    requires e.Valid()
  {
    && (forall id :: id in s.requests ==> RequestOk(e, s, s.requests[id]))
    && (forall k :: k in s.db.cells ==> CellOk(e, s, k, s.db.cells[k].record))
    && (forall d :: d in s.late ==> PendingOk(e, s, d))
  }

  // ---------------------------------------------------------------- preservation

  /** Requests are never forgotten and never rebuild their pin. */
  predicate Grows(s: State, t: State) {
    forall id :: id in s.requests ==>
      id in t.requests && t.requests[id].info == s.requests[id].info
      && (s.requests[id].built.Some? ==> t.requests[id].built == s.requests[id].built)
  }

  lemma HasPinGrows(e: Env, s: State, t: State, key: string, r: Record)
    requires e.Valid() && Grows(s, t) && HasPin(e, s, key, r)
    ensures HasPin(e, t, key, r)
  {
    var id :| PinnedBy(e, s, id, key, r);
    assert PinnedBy(e, t, id, key, r);
  }

  lemma LegalModelGrows(e: Env, s: State, t: State, key: string, model: string)
    requires e.Valid() && Grows(s, t) && LegalModel(e, s, key, model)
    ensures LegalModel(e, t, key, model)
  {
    if model != e.policies.defaultModel {
      var r :| HasPin(e, s, key, r) && r.model == model;
      HasPinGrows(e, s, t, key, r);
    }
  }

  /** A step that only adds lawful requests, cells and pending commands keeps the invariant. */
  lemma Preserve(e: Env, s: State, t: State)
    requires e.Valid() && Inv(e, s) && Grows(s, t)
    requires forall id :: id in t.requests ==>
               (id in s.requests && t.requests[id] == s.requests[id]) || RequestOk(e, t, t.requests[id])
    requires forall k :: k in t.db.cells ==>
               (k in s.db.cells && t.db.cells[k].record == s.db.cells[k].record)
               || CellOk(e, t, k, t.db.cells[k].record)
    requires forall d :: d in t.late ==> d in s.late || PendingOk(e, t, d)
    ensures Inv(e, t)
  {
    forall id | id in t.requests ensures RequestOk(e, t, t.requests[id]) {
      if id in s.requests && t.requests[id] == s.requests[id] {
        var q := s.requests[id];
        assert RequestOk(e, s, q);
        if q.pc.Updating? { HasPinGrows(e, s, t, q.info.key, q.pc.record); }
        if q.pc.Done? { LegalModelGrows(e, s, t, q.info.key, q.pc.model); }
      }
    }
    forall k | k in t.db.cells ensures CellOk(e, t, k, t.db.cells[k].record) {
      if k in s.db.cells && t.db.cells[k].record == s.db.cells[k].record {
        assert CellOk(e, s, k, s.db.cells[k].record);
        if t.db.cells[k].record.Pinned? { HasPinGrows(e, s, t, k, t.db.cells[k].record); }
      }
    }
    forall d | d in t.late ensures PendingOk(e, t, d) {
      if d in s.late {
        assert PendingOk(e, s, d);
        match d.command
        case SetWithTtl(k, r, _) => HasPinGrows(e, s, t, k, r);
        case SetKeepTtl(k, r) => HasPinGrows(e, s, t, k, r);
        case _ =>
      }
    }
  }

  /** Every step of one request has this shape: it replaces the request and issues at most one
      store command, which takes effect at once or is left pending. */
  predicate IsCall(s: State, t: State, id: nat, q: Request, c: Command, answered: bool) {
    && t.requests == s.requests[id := q]
    && t.db == (if answered then Execute(s.db, c) else s.db)
    && t.late == (if answered then s.late else s.late + {Pending(id, c)})
  }

  /** The store command a request is about to issue, if it is at a store call at all. */
  function CommandOf(e: Env, q: Request): Option<Command>
    requires e.Valid()
  {
    match q.pc
    case Reading => Some(Refresh(q.info.key, e.ttl))
    case Claiming => Some(SetIfAbsent(q.info.key, Placeholder(e.policies), CLAIM_TTL))
    case ReadingParent => Some(Refresh(q.info.baseKey, e.ttl))
    case Pinning(r) => Some(SetWithTtl(q.info.key, r, e.ttl))
    case Updating(r) => Some(UpdateCommand(e.server, q.info.key, r, e.ttl))
    case Asking => None
    case Done(_) => None
  }

  /** One store call of a request that now stands at r: the command takes effect or is left pending,
      and only a pinned hit makes a request due to write back, only an answered SET NX on an
      absent key makes it a claimant. */
  predicate Calls(e: Env, s: State, t: State, id: nat, c: Command, answered: bool)
    requires id in s.requests
  {
    && id in t.requests
    && var q, r := s.requests[id], t.requests[id];
    && IsCall(s, t, id, r, c, answered)
    && r.info == q.info
    && (r.pc.Updating? ==> q.pc.Reading? && answered && StoredPinned(s, q.info.key))
    && (r.claimedAt.Some? && q.claimedAt.None? ==> q.pc.Claiming? && answered && q.info.key !in s.db.cells)
  }

  lemma ClaimCalls(e: Env, s: State, id: nat, answered: bool)
    requires e.Valid() && id in s.requests && s.requests[id].pc.Claiming?
    ensures Calls(e, s, ServeClaim(e, s, id, answered), id,
                  SetIfAbsent(s.requests[id].info.key, Placeholder(e.policies), CLAIM_TTL), answered)
  {
    hide BuildPinRecord, Placeholder, Execute;
  }

  lemma ReadCalls(e: Env, s: State, id: nat, answered: bool)
    requires e.Valid() && id in s.requests && s.requests[id].pc.Reading?
    ensures Calls(e, s, ServeRead(e, s, id, answered), id, Refresh(s.requests[id].info.key, e.ttl), answered)
  {
    hide ServeTurn, EscalationEvent, Execute;
  }

  lemma ParentCalls(e: Env, s: State, id: nat, answered: bool)
    requires e.Valid() && id in s.requests && s.requests[id].pc.ReadingParent?
    ensures Calls(e, s, ServeParent(e, s, id, answered), id, Refresh(s.requests[id].info.baseKey, e.ttl), answered)
  {
    hide BuildSubagentRecord, Execute;
  }

  lemma WriteCalls(e: Env, s: State, id: nat, answered: bool)
    requires e.Valid() && id in s.requests
    ensures s.requests[id].pc.Pinning? ==>
              Calls(e, s, ServePin(e, s, id, answered), id,
                    SetWithTtl(s.requests[id].info.key, s.requests[id].pc.record, e.ttl), answered)
    ensures s.requests[id].pc.Updating? ==>
              Calls(e, s, ServeUpdate(e, s, id, answered), id,
                    UpdateCommand(e.server, s.requests[id].info.key, s.requests[id].pc.record, e.ttl), answered)
  {
    hide PinEvents, UpdateCommand, Execute;
  }

  lemma ServeIsCall(e: Env, s: State, id: nat, answered: bool)
    requires e.Valid() && id in s.requests
    ensures CommandOf(e, s.requests[id]).None? ==> ServeStore(e, s, id, answered) == s
    ensures CommandOf(e, s.requests[id]).Some? ==>
              Calls(e, s, ServeStore(e, s, id, answered), id, CommandOf(e, s.requests[id]).value, answered)
  {
    hide Calls, ServeRead, ServeClaim, ServeParent, ServePin, ServeUpdate, UpdateCommand, Placeholder;
    match s.requests[id].pc
    case Reading => ReadCalls(e, s, id, answered);
    case Claiming => ClaimCalls(e, s, id, answered);
    case ReadingParent => ParentCalls(e, s, id, answered);
    case Pinning(_) => WriteCalls(e, s, id, answered);
    case Updating(_) => WriteCalls(e, s, id, answered);
    case Asking =>
    case Done(_) =>
  }

  /** A request may only add to what it has built. */
  predicate Continues(q: Request, r: Request) {
    r.info == q.info && (q.built.Some? ==> r.built == q.built)
  }

  lemma CallKeepsInv(e: Env, s: State, t: State, id: nat, q: Request, c: Command, answered: bool)
    requires e.Valid() && Inv(e, s) && id in s.requests
    requires IsCall(s, t, id, q, c, answered) && Continues(s.requests[id], q)
    requires RequestOk(e, t, q) && PendingOk(e, t, Pending(id, c))
    ensures Inv(e, t)
  {
    hide DescendsFrom, WellPinned, Consistent, LegalModel;
    assert Grows(s, t);
    assert c.key in t.db.cells && !(c.key in s.db.cells && t.db.cells[c.key].record == s.db.cells[c.key].record)
      ==> CellOk(e, t, c.key, t.db.cells[c.key].record);
    Preserve(e, s, t);
  }

  /** The record a pinned read leaves its request with still descends from the session's pin. */
  lemma HitKeepsPin(e: Env, s: State, key: string, r: Record, turn: Turn)
    requires e.Valid() && r.Pinned? && HasPin(e, s, key, r)
    ensures HasPin(e, s, key, ServeTurn(e.policies, r, turn).record)
  {
    var w :| PinnedBy(e, s, w, key, r);
    TurnKeepsDescent(e.policies, s.requests[w].built.value, r, turn);
    assert PinnedBy(e, s, w, key, ServeTurn(e.policies, r, turn).record);
  }

  lemma ReadGrows(e: Env, s: State, id: nat)
    requires e.Valid() && id in s.requests && s.requests[id].pc.Reading?
    ensures Grows(s, ServeRead(e, s, id, true))
  {
    hide ServeTurn, EscalationEvent, Execute;
  }

  lemma CellOfInv(e: Env, s: State, key: string)
    requires e.Valid() && Inv(e, s) && key in s.db.cells
    ensures CellOk(e, s, key, s.db.cells[key].record)
  {
  }

  lemma AfterReadOk(e: Env, t: State, now: int, q: Request, seen: Option<Record>)
    requires e.Valid() && Consistent(e, q) && q.pc.Reading?
    requires seen.Some? && seen.value.Pinned? ==>
               HasPin(e, t, q.info.key, ServeTurn(e.policies, seen.value, q.info.turn).record)
    ensures RequestOk(e, t, AfterRead(e, now, q, seen))
    ensures Continues(q, AfterRead(e, now, q, seen))
  {
    hide HasPin, ServeTurn, WellPinned;
  }

  lemma ReadKeepsInv(e: Env, s: State, id: nat, answered: bool)
    requires e.Valid() && Inv(e, s) && id in s.requests && s.requests[id].pc.Reading?
    ensures Inv(e, ServeRead(e, s, id, answered))
  {
    var q, key := s.requests[id], s.requests[id].info.key;
    var t := ServeRead(e, s, id, answered);
    assert RequestOk(e, s, q);
    ReadCalls(e, s, id, answered);
    hide DescendsFrom, WellPinned, ServeTurn, HasPin, LogHit, AfterRead, Inv, AboveForcedParent, Execute;
    if answered {
      var seen := Read(s.db, key);
      assert t.requests[id] == AfterRead(e, s.db.now, q, seen);
      if seen.Some? && seen.value.Pinned? {
        CellOfInv(e, s, key);
        HitKeepsPin(e, s, key, seen.value, q.info.turn);
        assert Grows(s, t) by { ReadGrows(e, s, id); }
        HasPinGrows(e, s, t, key, ServeTurn(e.policies, seen.value, q.info.turn).record);
      }
      AfterReadOk(e, t, s.db.now, q, seen);
    }
    CallKeepsInv(e, s, t, id, t.requests[id], Refresh(key, e.ttl), answered);
  }

  lemma ClaimKeepsInv(e: Env, s: State, id: nat, answered: bool)
    requires e.Valid() && Inv(e, s) && id in s.requests && s.requests[id].pc.Claiming?
    ensures Inv(e, ServeClaim(e, s, id, answered))
  {
    var q, key := s.requests[id], s.requests[id].info.key;
    var t := ServeClaim(e, s, id, answered);
    assert RequestOk(e, s, q);
    BuiltPinsAreWellPinned(e.policies, None, q.info.pathOverride, q.info.hash, q.info.alias,
                           |q.info.turn.messages|, s.db.now);
    hide DescendsFrom, WellPinned, BuildPinRecord;
    if !answered || key in s.db.cells {
      assert t.requests[id] == q.(pc := Done(e.policies.defaultModel));
    } else {
      assert t.requests[id] == Won(e, s.db.now, q);
    }
    CallKeepsInv(e, s, t, id, t.requests[id], SetIfAbsent(key, Placeholder(e.policies), CLAIM_TTL), answered);
  }

  lemma ParentKeepsInv(e: Env, s: State, id: nat, answered: bool)
    requires e.Valid() && Inv(e, s) && id in s.requests && s.requests[id].pc.ReadingParent?
    ensures Inv(e, ServeParent(e, s, id, answered))
  {
    var q := s.requests[id];
    var t := ServeParent(e, s, id, answered);
    assert RequestOk(e, s, q);
    var parent := t.requests[id].parent;
    SubagentPinPosition(e.policies, parent, q.info.hash, q.info.alias, |q.info.turn.messages|, s.db.now);
    assert AboveForcedParent(e, t.requests[id]) by {
      if parent.Some? && parent.value.Pinned? && parent.value.pathOverride {
        assert CellOk(e, s, q.info.baseKey, parent.value);
        var w :| PinnedBy(e, s, w, q.info.baseKey, parent.value);
        EscalateDescendant(e.policies, s.requests[w].built.value, parent.value);
      }
    }
    hide DescendsFrom, WellPinned, BuildSubagentRecord, AboveForcedParent;
    CallKeepsInv(e, s, t, id, t.requests[id], Refresh(q.info.baseKey, e.ttl), answered);
  }

  lemma AnswerKeepsInv(e: Env, s: State, id: nat, classify: Option<ClassifyResult>)
    requires e.Valid() && Inv(e, s) && id in s.requests && s.requests[id].pc.Asking?
    ensures Inv(e, ServeAnswer(e, s, id, classify))
  {
    var q := s.requests[id];
    var t := ServeAnswer(e, s, id, classify);
    assert RequestOk(e, s, q);
    BuiltPinsAreWellPinned(e.policies, classify, q.info.pathOverride, q.info.hash, q.info.alias,
                           |q.info.turn.messages|, s.db.now);
    hide DescendsFrom, WellPinned, BuildPinRecord;
    assert Grows(s, t);
    assert RequestOk(e, t, t.requests[id]);
    Preserve(e, s, t);
  }

  lemma PinKeepsInv(e: Env, s: State, id: nat, answered: bool)
    requires e.Valid() && Inv(e, s) && id in s.requests && s.requests[id].pc.Pinning?
    ensures Inv(e, ServePin(e, s, id, answered))
  {
    hide DescendsFrom, WellPinned;
    var q := s.requests[id];
    var r := q.pc.record;
    var t := ServePin(e, s, id, answered);
    assert RequestOk(e, s, q);
    PinDescendsFromItself(e.policies, r);
    assert PinnedBy(e, t, id, q.info.key, r);
    assert HasPin(e, t, q.info.key, r);
    assert r.Pinned? by { WellPinnedIsPinned(e, r); }
    CallKeepsInv(e, s, t, id, t.requests[id], SetWithTtl(q.info.key, r, e.ttl), answered);
  }

  lemma WellPinnedIsPinned(e: Env, r: Record)
    requires e.Valid() && WellPinned(e.policies, r)
    ensures r.Pinned?
  {
  }

  lemma UpdateKeepsInv(e: Env, s: State, id: nat, answered: bool)
    requires e.Valid() && Inv(e, s) && id in s.requests && s.requests[id].pc.Updating?
    ensures Inv(e, ServeUpdate(e, s, id, answered))
  {
    hide DescendsFrom, WellPinned;
    var q := s.requests[id];
    var t := ServeUpdate(e, s, id, answered);
    assert RequestOk(e, s, q);
    HasPinGrows(e, s, t, q.info.key, q.pc.record);
    CallKeepsInv(e, s, t, id, t.requests[id], UpdateCommand(e.server, q.info.key, q.pc.record, e.ttl), answered);
  }

  lemma ServeKeepsInv(e: Env, s: State, id: nat, answered: bool)
    requires e.Valid() && Inv(e, s) && id in s.requests
    ensures Inv(e, ServeStore(e, s, id, answered))
  {
    hide Inv, ServeRead, ServeClaim, ServeParent, ServePin, ServeUpdate;
    match s.requests[id].pc
    case Reading => ReadKeepsInv(e, s, id, answered);
    case Claiming => ClaimKeepsInv(e, s, id, answered);
    case ReadingParent => ParentKeepsInv(e, s, id, answered);
    case Pinning(_) => PinKeepsInv(e, s, id, answered);
    case Updating(_) => UpdateKeepsInv(e, s, id, answered);
    case Asking =>
    case Done(_) =>
  }

  lemma LandKeepsInv(e: Env, s: State, d: Pending)
    requires e.Valid() && Inv(e, s) && d in s.late
    ensures Inv(e, s.(db := Execute(s.db, d.command)))
  {
    hide DescendsFrom, WellPinned, LegalModel, Consistent;
    var t := s.(db := Execute(s.db, d.command));
    assert PendingOk(e, s, d);
    assert Grows(s, t);
    var k := d.command.key;
    if !d.command.SetIfAbsent? && !d.command.Refresh? {
      HasPinGrows(e, s, t, k, d.command.record);
    }
    Preserve(e, s, t);
  }

  lemma AbortKeepsInv(e: Env, s: State, id: nat)
    requires e.Valid() && Inv(e, s) && id in s.requests
    ensures Inv(e, Next(e, s, Abort(id)))
  {
    hide DescendsFrom, WellPinned, HasPin;
    var t := Next(e, s, Abort(id));
    assert RequestOk(e, s, s.requests[id]);
    assert Grows(s, t);
    Preserve(e, s, t);
  }

  lemma ArriveKeepsInv(e: Env, s: State, id: nat, info: Info)
    requires e.Valid() && Inv(e, s)
    ensures Inv(e, Next(e, s, Arrive(id, info)))
  {
    hide DescendsFrom, WellPinned, HasPin, LegalModel;
    var t := Next(e, s, Arrive(id, info));
    assert Grows(s, t);
    var q := Request(info, Reading, None, None, 0, None, None, None);
    assert RequestOk(e, t, q);
    forall i | i in t.requests
      ensures (i in s.requests && t.requests[i] == s.requests[i]) || RequestOk(e, t, t.requests[i])
    {
      assert t.requests[i] == q || i in s.requests;
    }
    Preserve(e, s, t);
  }

  lemma KeyspaceShrinkKeepsInv(e: Env, s: State, db: Db)
    requires e.Valid() && Inv(e, s)
    requires forall k :: k in db.cells ==> k in s.db.cells && db.cells[k].record == s.db.cells[k].record
    ensures Inv(e, s.(db := db))
  {
    hide DescendsFrom, WellPinned, HasPin, LegalModel, Consistent;
    assert Grows(s, s.(db := db));
    Preserve(e, s, s.(db := db));
  }

  lemma StepKeepsInv(e: Env, s: State, l: Label)
    requires e.Valid() && Inv(e, s)
    ensures Inv(e, Next(e, s, l))
  {
    hide Inv, ServeStore, ServeAnswer;
    match l
    case Serve(id, answered) => if id in s.requests { ServeKeepsInv(e, s, id, answered); }
    case Answer(id, classify) =>
      if id in s.requests && s.requests[id].pc.Asking? { AnswerKeepsInv(e, s, id, classify); }
    case Abort(id) => if id in s.requests { AbortKeepsInv(e, s, id); }
    case Land(d) => if d in s.late { LandKeepsInv(e, s, d); }
    case Arrive(id, info) => ArriveKeepsInv(e, s, id, info);
    case Tick(ms) => KeyspaceShrinkKeepsInv(e, s, Advance(s.db, ms));
    case Drop(key) => KeyspaceShrinkKeepsInv(e, s, Store.Evict(s.db, key));
  }

  lemma {:induction false} RunKeepsInv(e: Env, now: int, labels: seq<Label>)
    requires e.Valid()
    ensures Inv(e, Run(e, now, labels))
  {
    if labels != [] {
      RunKeepsInv(e, now, labels[..|labels| - 1]);
      StepKeepsInv(e, Run(e, now, labels[..|labels| - 1]), labels[|labels| - 1]);
    }
  }
}
