/** The protocol's safety theorems over whole runs. */
module Theorems {
  import opened Options
  import opened StateMachine
  import opened Store
  import opened Protocol
  import opened Coupling

  // ---------------------------------------------------------------- coupling and range

  /** The model is one a session pinned by request id can reach: its pin's model, or that of a tier
      at most max_escalations above its pin. */
  ghost predicate OnLadderOf(e: Env, s: State, id: nat, key: string, model: string)
    requires e.Valid()
  {
    && id in s.requests && s.requests[id].info.key == key && s.requests[id].built.Some?
    && WellPinned(e.policies, s.requests[id].built.value)
    && exists n: nat :: n <= Max(0, e.policies.escalation.maxEscalations)
                        && e.policies.Position(s.requests[id].built.value.policyName) + n < |e.policies.tiers|
                        && model == ModelAfter(e.policies, s.requests[id].built.value, n)
  }

  /** r stands exactly as many tiers above the pin of request id as it counts escalations, within
      the cap and the ladder. */
  predicate Coupled(e: Env, s: State, id: nat, key: string, r: Record)
    requires e.Valid()
  {
    && PinnedBy(e, s, id, key, r)
    && var p, pin := e.policies, s.requests[id].built.value;
    && 0 <= r.escalations <= Max(0, p.escalation.maxEscalations)
    && p.TierIndex(r.policyName) == Some(p.Position(pin.policyName) + r.escalations)
    && r.model == ModelAfter(p, pin, r.escalations)
  }

  lemma PinnedIsCoupled(e: Env, s: State, key: string, r: Record)
    requires e.Valid() && HasPin(e, s, key, r)
    ensures exists id :: Coupled(e, s, id, key, r)
  {
    var id :| PinnedBy(e, s, id, key, r);
    EscalateDescendant(e.policies, s.requests[id].built.value, r);
    assert Coupled(e, s, id, key, r);
  }

  /** In every run, every pinned record in the store, held for write-back, or still on its way to
      the server is coupled to a pin some request built for that very key. */
  lemma CouplingInEveryRun(e: Env, now: int, labels: seq<Label>)
    requires e.Valid()
    ensures var s := Run(e, now, labels);
            && (forall k :: k in s.db.cells && s.db.cells[k].record.Pinned? ==>
                  exists id :: Coupled(e, s, id, k, s.db.cells[k].record))
            && (forall i :: i in s.requests && s.requests[i].pc.Updating? ==>
                  exists id :: Coupled(e, s, id, s.requests[i].info.key, s.requests[i].pc.record))
            && (forall d :: d in s.late && (d.command.SetWithTtl? || d.command.SetKeepTtl?) ==>
                  exists id :: Coupled(e, s, id, d.command.key, d.command.record))
  {
    hide DescendsFrom, WellPinned, Coupled, Run, Consistent, LegalModel;
    var s := Run(e, now, labels);
    RunKeepsInv(e, now, labels);
    forall k | k in s.db.cells && s.db.cells[k].record.Pinned?
      ensures exists id :: Coupled(e, s, id, k, s.db.cells[k].record)
    {
      assert CellOk(e, s, k, s.db.cells[k].record);
      PinnedIsCoupled(e, s, k, s.db.cells[k].record);
    }
    forall i | i in s.requests && s.requests[i].pc.Updating?
      ensures exists id :: Coupled(e, s, id, s.requests[i].info.key, s.requests[i].pc.record)
    {
      assert RequestOk(e, s, s.requests[i]);
      PinnedIsCoupled(e, s, s.requests[i].info.key, s.requests[i].pc.record);
    }
    forall d | d in s.late && (d.command.SetWithTtl? || d.command.SetKeepTtl?)
      ensures exists id :: Coupled(e, s, id, d.command.key, d.command.record)
    {
      assert PendingOk(e, s, d);
      PinnedIsCoupled(e, s, d.command.key, d.command.record);
    }
  }

  /** In every run, every decided model is the default model or on the ladder of a pin built for
      the request's own key. */
  lemma RoutedModelsInEveryRun(e: Env, now: int, labels: seq<Label>, i: nat)
    requires e.Valid()
    requires i in Run(e, now, labels).requests && Run(e, now, labels).requests[i].pc.Done?
    ensures var s := Run(e, now, labels);
            s.requests[i].pc.model == e.policies.defaultModel
            || exists id :: OnLadderOf(e, s, id, s.requests[i].info.key, s.requests[i].pc.model)
  {
    hide Run, DescendsFrom;
    var s := Run(e, now, labels);
    RunKeepsInv(e, now, labels);
    assert RequestOk(e, s, s.requests[i]);
    var key, model := s.requests[i].info.key, s.requests[i].pc.model;
    if model != e.policies.defaultModel {
      var r :| HasPin(e, s, key, r) && r.model == model;
      PinnedIsCoupled(e, s, key, r);
      var id :| Coupled(e, s, id, key, r);
      CoupledIsOnLadder(e, s, id, key, r);
    }
  }

  lemma CoupledIsOnLadder(e: Env, s: State, id: nat, key: string, r: Record)
    requires e.Valid() && Coupled(e, s, id, key, r)
    ensures OnLadderOf(e, s, id, key, r.model)
  {
    var n: nat := r.escalations;
    assert n <= Max(0, e.policies.escalation.maxEscalations);
    assert r.model == ModelAfter(e.policies, s.requests[id].built.value, n);
  }

  /** A subagent that read a force-pinned parent never sits below the forced tier, in any run and
      after any escalations of either session. */
  lemma ForcedParentBoundsSubagent(e: Env, now: int, labels: seq<Label>, id: nat, key: string, r: Record)
    requires e.Valid()
    requires PinnedBy(e, Run(e, now, labels), id, key, r)
    requires var q := Run(e, now, labels).requests[id];
             q.parent.Some? && q.parent.value.Pinned? && q.parent.value.pathOverride
    ensures e.policies.TierIndex(r.policyName).Some?
    ensures e.policies.Position(e.policies.forceTier) <= e.policies.Position(r.policyName)
  {
    RunKeepsInv(e, now, labels);
    var s := Run(e, now, labels);
    hide Run;
    assert RequestOk(e, s, s.requests[id]);
    EscalateDescendant(e.policies, s.requests[id].built.value, r);
  }

  // ---------------------------------------------------------------- one claim per session

  /** Key k, once present, is present for the rest of the run. */
  predicate Kept(e: Env, now: int, labels: seq<Label>, k: string)
    requires e.Valid()
  {
    labels == []
    || (Kept(e, now, labels[..|labels| - 1], k)
        && (k in Run(e, now, labels[..|labels| - 1]).db.cells ==> k in Run(e, now, labels).db.cells))
  }

  ghost predicate OneClaim(s: State, k: string) {
    && (forall i, j :: ClaimedOn(s, i, k) && ClaimedOn(s, j, k) ==> i == j)
    && (forall i :: ClaimedOn(s, i, k) ==> k in s.db.cells)
  }

  /** A claim is only ever won by an answered SET NX on an absent key. */
  lemma NewClaims(e: Env, s: State, l: Label, i: nat, k: string)
    requires e.Valid()
    requires ClaimedOn(Next(e, s, l), i, k)
    ensures ClaimedOn(s, i, k) || (l == Serve(i, true) && k !in s.db.cells && k in Next(e, s, l).db.cells)
  {
    hide ServeStore, BuildPinRecord, Placeholder, Advance;
    match l
    case Serve(id, answered) =>
      if id in s.requests { ServeIsCall(e, s, id, answered); }
    case _ =>
  }

  lemma StepKeepsOneClaim(e: Env, s: State, l: Label, k: string)
    requires e.Valid() && OneClaim(s, k)
    requires k in s.db.cells ==> k in Next(e, s, l).db.cells
    ensures OneClaim(Next(e, s, l), k)
  {
    hide Next;
    var t := Next(e, s, l);
    forall i, j | ClaimedOn(t, i, k) && ClaimedOn(t, j, k) ensures i == j && k in t.db.cells {
      NewClaims(e, s, l, i, k);
      NewClaims(e, s, l, j, k);
    }
  }

  lemma {:induction false} RunKeepsOneClaim(e: Env, now: int, labels: seq<Label>, k: string)
    requires e.Valid() && Kept(e, now, labels, k)
    ensures OneClaim(Run(e, now, labels), k)
  {
    hide Next;
    if labels != [] {
      RunKeepsOneClaim(e, now, labels[..|labels| - 1], k);
      StepKeepsOneClaim(e, Run(e, now, labels[..|labels| - 1]), labels[|labels| - 1], k);
    }
  }

  /** While a key stays present, whatever the interleaving and whichever store calls fail, at most
      one request wins its claim; only that one can call the classifier, at most once, and only
      that one builds a pin. A request that is waiting for the classifier holds the claim and has
      not been answered before. */
  lemma ClassifiedAtMostOnce(e: Env, now: int, labels: seq<Label>, k: string, i: nat, j: nat)
    requires e.Valid() && Kept(e, now, labels, k)
    requires var s := Run(e, now, labels);
             i in s.requests && s.requests[i].info.key == k && j in s.requests && s.requests[j].info.key == k
    ensures var s := Run(e, now, labels);
            && s.requests[i].asks <= 1
            && (s.requests[i].pc.Asking? ==> s.requests[i].claimedAt.Some? && s.requests[i].asks == 0)
            && (s.requests[i].claimedAt.None? ==> s.requests[i].asks == 0 && s.requests[i].built.None?)
            && (i != j && s.requests[i].claimedAt.Some? ==>
                  s.requests[j].claimedAt.None? && !s.requests[j].pc.Asking?
                  && s.requests[j].asks == 0 && s.requests[j].built.None?)
  {
    RunKeepsOneClaim(e, now, labels, k);
    RunKeepsInv(e, now, labels);
    var s := Run(e, now, labels);
    hide Run, Kept, DescendsFrom, WellPinned;
    assert RequestOk(e, s, s.requests[i]) && RequestOk(e, s, s.requests[j]);
    assert ClaimedOn(s, i, k) <==> s.requests[i].claimedAt.Some?;
    assert ClaimedOn(s, j, k) <==> s.requests[j].claimedAt.Some?;
  }

  /** A command that carries a pinned record, or none, or only fills absent keys. */
  predicate KeepsPins(c: Command) {
    match c
    case SetWithTtl(_, r, _) => r.Pinned?
    case SetKeepTtl(_, r) => r.Pinned?
    case SetIfAbsent(_, _, _) => true
    case Refresh(_, _) => true
  }

  lemma PinSurvives(db: Db, c: Command, k: string)
    requires KeepsPins(c) && k in db.cells && db.cells[k].record.Pinned?
    ensures k in Execute(db, c).cells && Execute(db, c).cells[k].record.Pinned?
  {
  }

  lemma RequestsKeepPins(e: Env, s: State, q: Request)
    requires e.Valid() && RequestOk(e, s, q) && CommandOf(e, q).Some?
    ensures KeepsPins(CommandOf(e, q).value)
  {
    hide DescendsFrom, LegalModel, HasPin, Placeholder, AboveForcedParent;
  }

  /** Only pinned records are ever written over a pinned record. */
  lemma StepKeepsPinned(e: Env, s: State, l: Label, k: string)
    requires e.Valid() && Inv(e, s) && StoredPinned(s, k)
    requires k in Next(e, s, l).db.cells
    ensures StoredPinned(Next(e, s, l), k)
  {
    hide ServeStore, BuildPinRecord, KeepsPins, RequestOk, CellOk, HasPin, Execute, CommandOf;
    match l
    case Serve(id, answered) =>
      if id in s.requests {
        ServeIsCall(e, s, id, answered);
        if CommandOf(e, s.requests[id]).Some? {
          RequestsKeepPins(e, s, s.requests[id]);
          PinSurvives(s.db, CommandOf(e, s.requests[id]).value, k);
        }
      }
    case Land(d) =>
      if d in s.late {
        assert KeepsPins(d.command) by { PendingKeepsPins(e, s, d); }
        PinSurvives(s.db, d.command, k);
      }
    case _ =>
  }

  lemma PendingKeepsPins(e: Env, s: State, d: Pending)
    requires e.Valid() && PendingOk(e, s, d)
    ensures KeepsPins(d.command)
  {
  }

  lemma {:induction false} NeverBackToClassifying(e: Env, now: int, labels: seq<Label>, k: string, m: nat)
    requires e.Valid() && Kept(e, now, labels, k) && m <= |labels|
    requires StoredPinned(Run(e, now, labels[..m]), k)
    ensures StoredPinned(Run(e, now, labels), k)
  {
    hide Next;
    if m == |labels| {
      assert labels[..m] == labels;
    } else {
      var init := labels[..|labels| - 1];
      assert init[..m] == labels[..m];
      NeverBackToClassifying(e, now, init, k, m);
      RunKeepsInv(e, now, init);
      StepKeepsPinned(e, Run(e, now, init), labels[|labels| - 1], k);
    }
  }

  /** While the key stays present, all its pinned records descend from one and the same pin. */
  lemma OnePinPerSession(e: Env, now: int, labels: seq<Label>, k: string, i: nat, q: Record, j: nat, r: Record)
    requires e.Valid() && Kept(e, now, labels, k)
    requires PinnedBy(e, Run(e, now, labels), i, k, q) && PinnedBy(e, Run(e, now, labels), j, k, r)
    ensures i == j
  {
    hide Run, Kept, DescendsFrom;
    RunKeepsOneClaim(e, now, labels, k);
    RunKeepsInv(e, now, labels);
    var s := Run(e, now, labels);
    assert RequestOk(e, s, s.requests[i]) && RequestOk(e, s, s.requests[j]);
    assert ClaimedOn(s, i, k) && ClaimedOn(s, j, k);
  }
}
