/** Deadlines: what the sliding expiry guarantees, and what it does not. */
module Timed {
  import opened Options
  import opened StateMachine
  import opened Store
  import opened Protocol
  import opened Coupling
  import opened Theorems
  import opened Overlap

  /** The effect of one store call on the times its request remembers. */
  lemma ServeTimes(e: Env, s: State, id: nat, answered: bool)
    requires e.Valid() && id in s.requests && Consistent(e, s.requests[id])
    ensures var q, r := s.requests[id], ServeStore(e, s, id, answered).requests[id];
            && r.readAt == (if q.pc.Reading? && answered then Some(s.db.now) else q.readAt)
            && (q.claimedAt.Some? ==> r.claimedAt == q.claimedAt)
            && (r.claimedAt.Some? && q.claimedAt.None? ==>
                  r.claimedAt == Some(s.db.now) && q.pc.Claiming? && answered && q.info.key !in s.db.cells)
  {
    hide AboveForcedParent, WellPinned, ServeTurn, EscalationEvent, Execute, BuildPinRecord, BuildSubagentRecord,
         PinEvents, UpdateCommand, Placeholder;
  }

  // ---------------------------------------------------------------- no immortal keys

  /** The lifetimes the router ever asks for. */
  predicate UsualTtl(e: Env, c: Command) {
    match c
    case SetIfAbsent(_, _, ttl) => ttl == CLAIM_TTL
    case SetWithTtl(_, _, ttl) => ttl == e.ttl
    case Refresh(_, ttl) => ttl == e.ttl
    case SetKeepTtl(_, _) => true
  }

  predicate Mortal(e: Env, c: Cell, now: int) {
    c.deadline.Some? && now <= c.deadline.value <= now + Max(e.ttl, CLAIM_TTL)
  }

  /** A hit at time t0 keeps its key present until at least t0 + ttl. */
  predicate Covered(e: Env, db: Db, k: string, t0: int) {
    && t0 <= db.now
    && (db.now <= t0 + e.ttl ==>
          k in db.cells && (db.cells[k].deadline.None? || t0 + e.ttl <= db.cells[k].deadline.value))
  }

  /** The owner of a pending or imminent KEEPTTL write on k has read a record there. */
  predicate ReadBefore(e: Env, s: State, id: nat, k: string) {
    id in s.requests && s.requests[id].readAt.Some? && Covered(e, s.db, k, s.requests[id].readAt.value)
  }

  ghost predicate TimeInv(e: Env, s: State)
    requires e.Valid()
  {
    && (forall k :: k in s.db.cells ==> Mortal(e, s.db.cells[k], s.db.now))
    && (forall i :: i in s.requests && s.requests[i].pc.Updating? ==> ReadBefore(e, s, i, s.requests[i].info.key))
    && (forall d :: d in s.late ==> UsualTtl(e, d.command)
                                    && (d.command.SetKeepTtl? ==>
                                          d.id in s.requests && s.requests[d.id].pc.Done?
                                          && ReadBefore(e, s, d.id, d.command.key)))
  }

  predicate Timely(e: Env, s: State, id: nat) {
    id in s.requests && s.requests[id].readAt.Some? && s.db.now <= s.requests[id].readAt.value + e.ttl
  }

  /** Every KEEPTTL write, prompt or late, reaches the server within ttl of its request's read, and
      the server evicts nothing by itself. */
  predicate TimelyStep(e: Env, s: State, l: Label) {
    && (l.Serve? && l.answered && l.id in s.requests && s.requests[l.id].pc.Updating? ==> Timely(e, s, l.id))
    && (l.Land? && l.pending in s.late && l.pending.command.SetKeepTtl? ==> Timely(e, s, l.pending.id))
    && !l.Drop?
  }

  predicate TimelyRun(e: Env, now: int, labels: seq<Label>)
    requires e.Valid()
  {
    labels == []
    || (TimelyRun(e, now, labels[..|labels| - 1])
        && TimelyStep(e, Run(e, now, labels[..|labels| - 1]), labels[|labels| - 1]))
  }

  lemma ExecuteStaysMortal(e: Env, db: Db, c: Command)
    requires forall k :: k in db.cells ==> Mortal(e, db.cells[k], db.now)
    requires UsualTtl(e, c) && (c.SetKeepTtl? ==> c.key in db.cells)
    ensures var after := Execute(db, c);
            forall k :: k in after.cells ==> Mortal(e, after.cells[k], after.now)
  {
  }

  lemma ExecuteCovers(e: Env, db: Db, c: Command, k: string, t0: int)
    requires Covered(e, db, k, t0) && UsualTtl(e, c)
    ensures Covered(e, Execute(db, c), k, t0)
  {
  }

  lemma AdvanceCovers(e: Env, db: Db, ms: nat, k: string, t0: int)
    requires Covered(e, db, k, t0)
    ensures Covered(e, Advance(db, ms), k, t0)
  {
  }

  lemma ServeKeepsTime(e: Env, s: State, id: nat, answered: bool)
    requires e.Valid() && TimeInv(e, s) && id in s.requests && Consistent(e, s.requests[id])
    requires TimelyStep(e, s, Serve(id, answered))
    ensures TimeInv(e, ServeStore(e, s, id, answered))
  {
    hide ServeStore, Execute, Covered, Mortal, UsualTtl, Placeholder, UpdateCommand;
    var t := ServeStore(e, s, id, answered);
    var q := s.requests[id];
    ServeIsCall(e, s, id, answered);
    ServeTimes(e, s, id, answered);
    var c := CommandOf(e, q);
    if c.Some? {
      CommandIsUsual(e, q);
      var db := if answered then Execute(s.db, c.value) else s.db;
      assert t.db == db;
      if answered {
        if q.pc.Updating? {
          TimelyMeansPresent(e, s, id, q.info.key);
        }
        ExecuteStaysMortal(e, s.db, c.value);
      }
      forall i, k | ReadBefore(e, s, i, k) && i != id ensures ReadBefore(e, t, i, k) {
        if answered { ExecuteCovers(e, s.db, c.value, k, s.requests[i].readAt.value); }
      }
      forall k | ReadBefore(e, s, id, k) && !q.pc.Reading? ensures ReadBefore(e, t, id, k) {
        if answered { ExecuteCovers(e, s.db, c.value, k, q.readAt.value); }
      }
      if t.requests[id].pc.Updating? {
        HitCovers(e, s.db, q.info.key);
      }
      UnansweredUpdate(e, s, id, answered);
    }
  }

  lemma UnansweredUpdate(e: Env, s: State, id: nat, answered: bool)
    requires e.Valid() && id in s.requests
    ensures s.requests[id].pc.Updating? ==> ServeStore(e, s, id, answered).requests[id].pc.Done?
    ensures s.requests[id].pc.Done? ==> ServeStore(e, s, id, answered) == s
  {
    hide ServeTurn, EscalationEvent, Execute, BuildPinRecord, BuildSubagentRecord, PinEvents, UpdateCommand,
         Placeholder;
  }

  lemma CommandIsUsual(e: Env, q: Request)
    requires e.Valid() && CommandOf(e, q).Some?
    ensures UsualTtl(e, CommandOf(e, q).value)
    ensures CommandOf(e, q).value.SetKeepTtl? ==> q.pc.Updating? && CommandOf(e, q).value.key == q.info.key
  {
    hide Placeholder;
  }

  lemma TimelyMeansPresent(e: Env, s: State, id: nat, k: string)
    requires ReadBefore(e, s, id, k) && Timely(e, s, id)
    ensures k in s.db.cells
  {
  }

  lemma HitCovers(e: Env, db: Db, k: string)
    requires k in db.cells
    ensures Covered(e, Execute(db, Refresh(k, e.ttl)), k, db.now)
  {
  }

  lemma StepKeepsTime(e: Env, s: State, l: Label)
    requires e.Valid() && Inv(e, s) && TimeInv(e, s) && TimelyStep(e, s, l)
    ensures TimeInv(e, Next(e, s, l))
  {
    hide ServeStore, TimeInv, BuildPinRecord, RequestOk, CellOk, PendingOk;
    match l
    case Serve(id, answered) =>
      if id in s.requests {
        assert RequestOk(e, s, s.requests[id]);
        assert Consistent(e, s.requests[id]) by { OkIsConsistent(e, s, s.requests[id]); }
        ServeKeepsTime(e, s, id, answered);
      }
    case Tick(ms) => TickKeepsTime(e, s, ms);
    case Land(d) => if d in s.late { LandKeepsTime(e, s, d); }
    case Drop(_) =>
    case _ => QuietKeepsTime(e, s, l);
  }

  lemma OkIsConsistent(e: Env, s: State, q: Request)
    requires e.Valid() && RequestOk(e, s, q)
    ensures Consistent(e, q)
  {
  }

  lemma TickKeepsTime(e: Env, s: State, ms: nat)
    requires e.Valid() && TimeInv(e, s)
    ensures TimeInv(e, Next(e, s, Tick(ms)))
  {
    hide Covered, UsualTtl;
    var t := Next(e, s, Tick(ms));
    forall i, k | ReadBefore(e, s, i, k) ensures ReadBefore(e, t, i, k) {
      AdvanceCovers(e, s.db, ms, k, s.requests[i].readAt.value);
    }
  }

  lemma LandKeepsTime(e: Env, s: State, d: Pending)
    requires e.Valid() && TimeInv(e, s) && TimelyStep(e, s, Land(d)) && d in s.late
    ensures TimeInv(e, Next(e, s, Land(d)))
  {
    hide Execute, Covered, UsualTtl;
    var t := Next(e, s, Land(d));
    if d.command.SetKeepTtl? { TimelyMeansPresent(e, s, d.id, d.command.key); }
    ExecuteStaysMortal(e, s.db, d.command);
    forall i, k | ReadBefore(e, s, i, k) ensures ReadBefore(e, t, i, k) {
      ExecuteCovers(e, s.db, d.command, k, s.requests[i].readAt.value);
    }
  }

  lemma QuietKeepsTime(e: Env, s: State, l: Label)
    requires e.Valid() && TimeInv(e, s) && (l.Arrive? || l.Answer? || l.Abort?)
    ensures TimeInv(e, Next(e, s, l))
  {
    hide Covered, UsualTtl, BuildPinRecord, Mortal;
    var t := Next(e, s, l);
    assert forall i, k :: ReadBefore(e, s, i, k) ==> ReadBefore(e, t, i, k);
  }

  /** In every timely run, with any interleaving, failures and aborts, every key in the store
      expires, at the latest max(ttl, claim ttl) from now. */
  lemma {:induction false} NoImmortalKeys(e: Env, now: int, labels: seq<Label>)
    requires e.Valid() && TimelyRun(e, now, labels)
    ensures TimeInv(e, Run(e, now, labels))
    ensures var s := Run(e, now, labels);
            forall k :: k in s.db.cells ==> Mortal(e, s.db.cells[k], s.db.now)
  {
    if labels != [] {
      NoImmortalKeys(e, now, labels[..|labels| - 1]);
      RunKeepsInv(e, now, labels[..|labels| - 1]);
      StepKeepsTime(e, Run(e, now, labels[..|labels| - 1]), labels[|labels| - 1]);
    }
  }

  // ---------------------------------------------------------------- classified exactly once

  predicate InFlight(s: State, i: nat, k: string) {
    ClaimedOn(s, i, k) && !s.requests[i].pc.Done?
  }

  /** What one step must respect for the session with key k: no store call fails, nothing raises,
      nothing is evicted; and time does not run past the pin's due date while a claim is open, nor
      more than ttl past the latest read of the key. */
  ghost predicate PromptStep(e: Env, s: State, l: Label, k: string) {
    && (l.Serve? ==> l.answered)
    && !l.Abort? && !l.Drop?
    && (l.Tick? ==>
          && (forall i :: InFlight(s, i, k) ==>
                s.db.now + l.ms <= s.requests[i].claimedAt.value + Min(CLAIM_TTL, e.ttl))
          && (k in s.lastRead ==> s.db.now + l.ms <= s.lastRead[k] + e.ttl))
  }

  ghost predicate PromptRun(e: Env, now: int, labels: seq<Label>, k: string)
    requires e.Valid()
  {
    labels == []
    || (PromptRun(e, now, labels[..|labels| - 1], k)
        && PromptStep(e, Run(e, now, labels[..|labels| - 1]), labels[|labels| - 1], k))
  }

  /** The cell of k outlives t. */
  predicate Outlives(s: State, k: string, t: int) {
    k in s.db.cells && s.db.cells[k].deadline.Some? && t <= s.db.cells[k].deadline.value
  }

  ghost predicate PromptInv(e: Env, s: State, k: string)
    requires e.Valid()
  {
    && s.late == {}
    && (forall i :: ClaimedOn(s, i, k) ==> s.requests[i].claimedAt.value <= s.db.now)
    && (forall i :: InFlight(s, i, k) ==>
          !StoredPinned(s, k) && Outlives(s, k, s.requests[i].claimedAt.value + Min(CLAIM_TTL, e.ttl)))
    && (forall i :: ClaimedOn(s, i, k) && s.requests[i].pc.Done? ==> s.requests[i].built.Some?)
    && (k in s.db.cells ==> exists i :: ClaimedOn(s, i, k))
    && (k in s.db.cells && !StoredPinned(s, k) ==> exists i :: InFlight(s, i, k))
    && (k in s.lastRead ==> s.lastRead[k] <= s.db.now)
    && (StoredPinned(s, k) ==> k in s.lastRead && Outlives(s, k, s.lastRead[k] + e.ttl))
    && (forall i :: i in s.requests && s.requests[i].info.key == k ==>
          (s.requests[i].pc.Updating? ==> StoredPinned(s, k))
          && (s.requests[i].pc.Done? ==> k in s.db.cells)
          && (!s.requests[i].pc.Reading? ==> k in s.lastRead))
  }

  /** How an answered store call moves its request, its claim, and the latest reads. */
  lemma Moves(e: Env, s: State, id: nat)
    requires e.Valid() && id in s.requests && Consistent(e, s.requests[id])
    ensures var q, t := s.requests[id], ServeStore(e, s, id, true);
            var r := t.requests[id];
            && (q.pc.Reading? ==>
                  && (r.pc.Claiming? <==> q.info.key !in s.db.cells)
                  && (r.pc.Claiming? || r.pc.Updating? || r.pc.Done?)
                  && (r.pc.Updating? ==> StoredPinned(s, q.info.key))
                  && r.claimedAt.None? && t.lastRead == s.lastRead[q.info.key := s.db.now])
            && (q.pc.Claiming? ==>
                  && t.lastRead == s.lastRead
                  && (q.info.key in s.db.cells ==> r.pc.Done? && r.claimedAt.None?)
                  && (q.info.key !in s.db.cells ==>
                        r.claimedAt == Some(s.db.now) && (r.pc.ReadingParent? || r.pc.Asking? || r.pc.Pinning?)))
            && (q.pc.ReadingParent? ==>
                  r.pc.Pinning? && r.claimedAt == q.claimedAt && t.lastRead == s.lastRead[q.info.baseKey := s.db.now])
            && (q.pc.Pinning? || q.pc.Updating? ==>
                  r.pc.Done? && r.claimedAt == q.claimedAt && r.built == q.built && t.lastRead == s.lastRead)
  {
    hide AboveForcedParent, WellPinned, ServeTurn, EscalationEvent, Execute, BuildPinRecord, BuildSubagentRecord,
         PinEvents, UpdateCommand, Placeholder;
    ClockStays(s.db, Refresh(s.requests[id].info.key, e.ttl));
    ClockStays(s.db, Refresh(s.requests[id].info.baseKey, e.ttl));
  }

  /** The three things a step must keep about k's cell; the rest of the invariant is about requests. */
  ghost predicate CellPrompt(e: Env, s: State, k: string)
    requires e.Valid()
  {
    && (forall i :: InFlight(s, i, k) ==>
          !StoredPinned(s, k) && Outlives(s, k, s.requests[i].claimedAt.value + Min(CLAIM_TTL, e.ttl)))
    && (StoredPinned(s, k) ==> k in s.lastRead && Outlives(s, k, s.lastRead[k] + e.ttl))
  }

  lemma RefreshKeepsCell(e: Env, s: State, t: State, c: Command, k: string)
    requires e.Valid() && PromptInv(e, s, k) && c.Refresh? && c.ttl == e.ttl
    requires t.db == Execute(s.db, c) && t.lastRead == s.lastRead[c.key := s.db.now]
    requires forall i :: InFlight(t, i, k) ==> InFlight(s, i, k) && t.requests[i].claimedAt == s.requests[i].claimedAt
    ensures CellPrompt(e, t, k)
    ensures k in t.db.cells <==> k in s.db.cells
    ensures StoredPinned(t, k) <==> StoredPinned(s, k)
    ensures t.db.now == s.db.now
  {
    assert forall i :: InFlight(s, i, k) ==> ClaimedOn(s, i, k);
  }

  lemma SameClaims(s: State, t: State, id: nat, k: string)
    requires id in t.requests && t.requests == s.requests[id := t.requests[id]]
    requires ClaimedOn(s, id, k) ==> t.requests[id].claimedAt == s.requests[id].claimedAt
    requires ClaimedOn(t, id, k) <==> ClaimedOn(s, id, k)
    requires InFlight(t, id, k) <==> InFlight(s, id, k)
    ensures forall i :: ClaimedOn(t, i, k) <==> ClaimedOn(s, i, k)
    ensures forall i :: InFlight(t, i, k) <==> InFlight(s, i, k)
    ensures forall i :: ClaimedOn(s, i, k) || InFlight(s, i, k) ==>
              i in s.requests && i in t.requests && t.requests[i].claimedAt == s.requests[i].claimedAt
    ensures forall i :: InFlight(s, i, k) ==> ClaimedOn(s, i, k)
  {
  }

  /** A read that moves one request, without opening or closing a claim of k. */
  lemma RefreshIsPrompt(e: Env, s: State, t: State, id: nat, c: Command, k: string)
    requires e.Valid() && PromptInv(e, s, k) && id in s.requests && c.Refresh? && c.ttl == e.ttl
    requires id in t.requests && IsCall(s, t, id, t.requests[id], c, true)
    requires t.lastRead == s.lastRead[c.key := s.db.now]
    requires t.requests[id].info == s.requests[id].info && t.requests[id].claimedAt == s.requests[id].claimedAt
    requires ClaimedOn(t, id, k) <==> ClaimedOn(s, id, k)
    requires InFlight(t, id, k) <==> InFlight(s, id, k)
    requires ClaimedOn(t, id, k) && t.requests[id].pc.Done? ==> t.requests[id].built.Some?
    requires t.requests[id].info.key == k ==>
               && k in t.lastRead
               && (t.requests[id].pc.Updating? ==> StoredPinned(s, k))
               && (t.requests[id].pc.Done? ==> k in s.db.cells)
    ensures PromptInv(e, t, k)
  {
    hide Execute, Outlives, StoredPinned, Min, ClaimedOn, InFlight;
    SameClaims(s, t, id, k);
    RefreshKeepsCell(e, s, t, c, k);
  }

  /** Reads, by the session itself or by a subagent of it, slide the deadline along. */
  lemma ReadIsPrompt(e: Env, s: State, id: nat, k: string)
    requires e.Valid() && PromptInv(e, s, k) && id in s.requests && Consistent(e, s.requests[id])
    requires s.requests[id].pc.Reading? || s.requests[id].pc.ReadingParent?
    ensures PromptInv(e, ServeStore(e, s, id, true), k)
  {
    hide ServeStore, AboveForcedParent, WellPinned, Placeholder, Execute, PromptInv, StoredPinned;
    var t := ServeStore(e, s, id, true);
    ServeIsCall(e, s, id, true);
    Moves(e, s, id);
    if s.requests[id].pc.ReadingParent? {
      PastReadingWasRead(e, s, id, k);
    } else if s.requests[id].info.key == k && t.requests[id].pc.Updating? {
      assert StoredPinned(s, k);
    }
    RefreshIsPrompt(e, s, t, id, CommandOf(e, s.requests[id]).value, k);
  }

  /** The claim of an absent key opens with its whole claim time ahead. */
  lemma WonClaimIsPrompt(e: Env, s: State, t: State, id: nat, k: string)
    requires e.Valid() && PromptInv(e, s, k) && OneClaim(s, k)
    requires id in s.requests && s.requests[id].info.key == k && !s.requests[id].pc.Reading? && k !in s.db.cells
    requires id in t.requests
    requires IsCall(s, t, id, t.requests[id], SetIfAbsent(k, Placeholder(e.policies), CLAIM_TTL), true)
    requires t.requests[id].info == s.requests[id].info && t.requests[id].claimedAt == Some(s.db.now)
    requires !t.requests[id].pc.Done? && !t.requests[id].pc.Updating? && !t.requests[id].pc.Reading?
    requires t.lastRead == s.lastRead
    ensures PromptInv(e, t, k)
  {
    assert forall i :: !ClaimedOn(s, i, k);
    assert forall i :: ClaimedOn(t, i, k) ==> i == id;
    assert InFlight(t, id, k);
  }

  /** A claim elsewhere, or one that finds the key taken, changes nothing for k. */
  lemma OtherClaimIsPrompt(e: Env, s: State, t: State, id: nat, c: Command, k: string)
    requires e.Valid() && PromptInv(e, s, k) && id in s.requests && s.requests[id].pc.Claiming?
    requires c.SetIfAbsent? && (c.key == k ==> k in s.db.cells) && c.key == s.requests[id].info.key
    requires id in t.requests && IsCall(s, t, id, t.requests[id], c, true) && t.requests[id].info == s.requests[id].info
    requires s.requests[id].claimedAt.None?
    requires c.key == k ==> t.requests[id].claimedAt.None? && t.requests[id].pc.Done?
    requires t.lastRead == s.lastRead && (c.key == k ==> k in s.lastRead)
    ensures PromptInv(e, t, k)
  {
    hide PromptInv;
    assert k in s.db.cells ==> t.db.cells[k] == s.db.cells[k];
    assert k in t.db.cells <==> k in s.db.cells;
    SameCellIsPrompt(e, s, t, id, k);
  }

  /** A step that leaves k's cell and latest read alone and moves one request, without opening or
      closing a claim of k. */
  lemma SameCellIsPrompt(e: Env, s: State, t: State, id: nat, k: string)
    requires e.Valid() && PromptInv(e, s, k)
    requires id in t.requests && t.requests == s.requests[id := t.requests[id]]
    requires t.db.now == s.db.now && t.late == s.late && t.lastRead == s.lastRead
    requires k in t.db.cells <==> k in s.db.cells
    requires k in s.db.cells ==> t.db.cells[k] == s.db.cells[k]
    requires ClaimedOn(s, id, k) ==> t.requests[id].claimedAt == s.requests[id].claimedAt
    requires ClaimedOn(t, id, k) <==> ClaimedOn(s, id, k)
    requires InFlight(t, id, k) <==> InFlight(s, id, k)
    requires ClaimedOn(t, id, k) && t.requests[id].pc.Done? ==> t.requests[id].built.Some?
    requires t.requests[id].info.key == k ==>
               && !t.requests[id].pc.Updating?
               && (t.requests[id].pc.Done? ==> k in s.db.cells)
               && (!t.requests[id].pc.Reading? ==> k in s.lastRead)
    ensures PromptInv(e, t, k)
  {
    hide Outlives, Min, StoredPinned, ClaimedOn, InFlight;
    assert StoredPinned(t, k) <==> StoredPinned(s, k) by { SameCellPinned(s, t, k); }
    assert forall x :: Outlives(s, k, x) <==> Outlives(t, k, x) by { SameCellOutlives(s, t, k); }
    SameClaims(s, t, id, k);
  }

  lemma SameCellPinned(s: State, t: State, k: string)
    requires k in t.db.cells <==> k in s.db.cells
    requires k in s.db.cells ==> t.db.cells[k] == s.db.cells[k]
    ensures StoredPinned(s, k) <==> StoredPinned(t, k)
  {
  }

  lemma SameCellOutlives(s: State, t: State, k: string)
    requires k in t.db.cells <==> k in s.db.cells
    requires k in s.db.cells ==> t.db.cells[k] == s.db.cells[k]
    ensures forall x :: Outlives(s, k, x) <==> Outlives(t, k, x)
  {
  }

  lemma ClaimIsPrompt(e: Env, s: State, id: nat, k: string)
    requires e.Valid() && PromptInv(e, s, k) && OneClaim(s, k) && id in s.requests && Consistent(e, s.requests[id])
    requires s.requests[id].pc.Claiming?
    ensures PromptInv(e, ServeStore(e, s, id, true), k)
  {
    hide ServeStore, AboveForcedParent, WellPinned, Consistent, PromptInv, OneClaim, Execute, Placeholder;
    var t := ServeStore(e, s, id, true);
    var key := s.requests[id].info.key;
    ServeIsCall(e, s, id, true);
    Moves(e, s, id);
    ClaimingIsUnclaimed(e, s.requests[id]);
    if key == k && k !in s.db.cells {
      WonClaimIsPrompt(e, s, t, id, k);
    } else {
      assert key == k ==> k in s.lastRead by { PastReadingWasRead(e, s, id, k); }
      OtherClaimIsPrompt(e, s, t, id, SetIfAbsent(key, Placeholder(e.policies), CLAIM_TTL), k);
    }
  }

  lemma PastReadingWasRead(e: Env, s: State, id: nat, k: string)
    requires e.Valid() && PromptInv(e, s, k) && id in s.requests && !s.requests[id].pc.Reading?
    ensures s.requests[id].info.key == k ==> k in s.lastRead
  {
  }

  lemma ClaimingIsUnclaimed(e: Env, q: Request)
    requires e.Valid() && Consistent(e, q) && q.pc.Claiming?
    ensures q.claimedAt.None?
  {
  }

  lemma PinIsPrompt(e: Env, s: State, t: State, id: nat, r: Record, k: string)
    requires e.Valid() && PromptInv(e, s, k) && OneClaim(s, k)
    requires id in t.requests
    requires InFlight(s, id, k) && r.Pinned? && !s.requests[id].pc.Reading? && t.requests[id].built.Some?
    requires IsCall(s, t, id, t.requests[id], SetWithTtl(k, r, e.ttl), true)
    requires t.requests[id].info == s.requests[id].info && t.requests[id].pc.Done?
    requires t.requests[id].claimedAt == s.requests[id].claimedAt && t.lastRead == s.lastRead
    ensures PromptInv(e, t, k)
  {
    assert forall i :: ClaimedOn(t, i, k) <==> ClaimedOn(s, i, k);
    assert forall i :: !InFlight(t, i, k);
    assert StoredPinned(t, k);
  }

  lemma UpdateIsPrompt(e: Env, s: State, t: State, id: nat, r: Record, k: string)
    requires e.Valid() && PromptInv(e, s, k) && r.Pinned?
    requires id in s.requests && s.requests[id].pc.Updating? && s.requests[id].info.key == k
    requires s.requests[id].claimedAt.None?
    requires id in t.requests && IsCall(s, t, id, t.requests[id], UpdateCommand(e.server, k, r, e.ttl), true)
    requires t.requests[id].info == s.requests[id].info && t.requests[id].pc.Done?
    requires t.requests[id].claimedAt == s.requests[id].claimedAt && t.lastRead == s.lastRead
    ensures PromptInv(e, t, k)
  {
    assert forall i :: ClaimedOn(t, i, k) <==> ClaimedOn(s, i, k);
    assert forall i :: InFlight(t, i, k) <==> InFlight(s, i, k);
    assert StoredPinned(s, k) && StoredPinned(t, k);
  }

  lemma WriteIsPrompt(e: Env, s: State, id: nat, k: string)
    requires e.Valid() && PromptInv(e, s, k) && OneClaim(s, k) && id in s.requests && RequestOk(e, s, s.requests[id])
    requires s.requests[id].pc.Pinning? || s.requests[id].pc.Updating?
    ensures PromptInv(e, ServeStore(e, s, id, true), k)
  {
    hide ServeStore, WellPinned, AboveForcedParent, HasPin, LegalModel, PromptInv, OneClaim, UpdateCommand;
    var t := ServeStore(e, s, id, true);
    var q := s.requests[id];
    ServeIsCall(e, s, id, true);
    Moves(e, s, id);
    assert q.pc.record.Pinned? by { PinningRecordIsPinned(e, s, id); }
    if q.info.key != k {
      assert CommandOf(e, q).value.key != k by { CommandIsForKey(e, q); }
      OtherKeysUntouched(s.db, CommandOf(e, q).value, k);
      SameCellIsPrompt(e, s, t, id, k);
    } else if q.pc.Pinning? {
      PinIsPrompt(e, s, t, id, q.pc.record, k);
    } else {
      UpdateIsPrompt(e, s, t, id, q.pc.record, k);
    }
  }

  lemma CommandIsForKey(e: Env, q: Request)
    requires e.Valid() && (q.pc.Pinning? || q.pc.Updating?)
    ensures CommandOf(e, q).Some? && CommandOf(e, q).value.key == q.info.key
  {
  }

  lemma PinningRecordIsPinned(e: Env, s: State, id: nat)
    requires e.Valid() && id in s.requests && RequestOk(e, s, s.requests[id])
    ensures s.requests[id].pc.Pinning? || s.requests[id].pc.Updating? ==> s.requests[id].pc.record.Pinned?
  {
  }

  lemma TickIsPrompt(e: Env, s: State, ms: nat, k: string)
    requires e.Valid() && PromptInv(e, s, k) && PromptStep(e, s, Tick(ms), k)
    ensures PromptInv(e, Next(e, s, Tick(ms)), k)
    ensures k in s.db.cells ==> k in Next(e, s, Tick(ms)).db.cells
  {
    var t := Next(e, s, Tick(ms));
    if k in s.db.cells {
      if StoredPinned(s, k) {
        assert Alive(s.db.cells[k], t.db.now);
      } else {
        var i :| InFlight(s, i, k);
        assert Alive(s.db.cells[k], t.db.now);
      }
    }
    assert forall i :: ClaimedOn(t, i, k) <==> ClaimedOn(s, i, k);
    assert forall i :: InFlight(t, i, k) <==> InFlight(s, i, k);
  }

  lemma AnswerIsPrompt(e: Env, s: State, id: nat, classify: Option<ClassifyResult>, k: string)
    requires e.Valid() && PromptInv(e, s, k) && id in s.requests && s.requests[id].pc.Asking?
    ensures PromptInv(e, ServeAnswer(e, s, id, classify), k)
  {
    hide BuildPinRecord, PromptInv;
    PastReadingWasRead(e, s, id, k);
    SameCellIsPrompt(e, s, ServeAnswer(e, s, id, classify), id, k);
  }

  lemma ArriveIsPrompt(e: Env, s: State, id: nat, info: Info, k: string)
    requires e.Valid() && PromptInv(e, s, k)
    ensures PromptInv(e, Next(e, s, Arrive(id, info)), k)
  {
    hide PromptInv;
    if id !in s.requests {
      SameCellIsPrompt(e, s, Next(e, s, Arrive(id, info)), id, k);
    }
  }

  lemma ServeIsPrompt(e: Env, s: State, id: nat, k: string)
    requires e.Valid() && PromptInv(e, s, k) && OneClaim(s, k) && id in s.requests && RequestOk(e, s, s.requests[id])
    ensures PromptInv(e, ServeStore(e, s, id, true), k)
    ensures k in s.db.cells ==> k in ServeStore(e, s, id, true).db.cells
  {
    hide ServeStore, PromptInv, OneClaim, HasPin, LegalModel, AboveForcedParent, WellPinned;
    ServeIsCall(e, s, id, true);
    match s.requests[id].pc
    case Reading => ReadIsPrompt(e, s, id, k);
    case ReadingParent => ReadIsPrompt(e, s, id, k);
    case Claiming => ClaimIsPrompt(e, s, id, k);
    case Pinning(_) => WriteIsPrompt(e, s, id, k);
    case Updating(_) => WriteIsPrompt(e, s, id, k);
    case Asking =>
    case Done(_) =>
  }

  lemma StepIsPrompt(e: Env, s: State, l: Label, k: string)
    requires e.Valid() && Inv(e, s) && OneClaim(s, k) && PromptInv(e, s, k) && PromptStep(e, s, l, k)
    ensures PromptInv(e, Next(e, s, l), k)
    ensures k in s.db.cells ==> k in Next(e, s, l).db.cells
  {
    hide ServeStore, OneClaim, ServeAnswer, RequestOk, CellOk, PendingOk, ClaimedOn, InFlight, Outlives, StoredPinned;
    match l
    case Arrive(id, info) => ArriveIsPrompt(e, s, id, info, k);
    case Serve(id, answered) => if id in s.requests { ServeIsPrompt(e, s, id, k); }
    case Answer(id, classify) =>
      if id in s.requests && s.requests[id].pc.Asking? {
        AnswerIsPrompt(e, s, id, classify, k);
        assert ServeAnswer(e, s, id, classify).db == s.db by { AnswerKeepsStore(e, s, id, classify); }
      }
    case Tick(ms) => TickIsPrompt(e, s, ms, k);
    case Land(d) =>
    case Abort(_) =>
    case Drop(_) =>
  }

  lemma AnswerKeepsStore(e: Env, s: State, id: nat, classify: Option<ClassifyResult>)
    requires e.Valid() && id in s.requests
    ensures ServeAnswer(e, s, id, classify).db == s.db
  {
  }

  lemma {:induction false} PromptRunsKeepTheKey(e: Env, now: int, labels: seq<Label>, k: string)
    requires e.Valid() && PromptRun(e, now, labels, k)
    ensures PromptInv(e, Run(e, now, labels), k)
    ensures Kept(e, now, labels, k)
  {
    hide Next, PromptStep;
    if labels == [] {
      assert forall i :: !ClaimedOn(Init(now), i, k);
    } else {
      var init := labels[..|labels| - 1];
      PromptRunsKeepTheKey(e, now, init, k);
      RunKeepsInv(e, now, init);
      RunKeepsOneClaim(e, now, init, k);
      StepIsPrompt(e, Run(e, now, init), labels[|labels| - 1], k);
    }
  }

  /** In every prompt run of any length, as soon as one request of the session is answered exactly
      one request has ever claimed it; that one alone classified, at most once, and the session is
      pinned unless its claim is still open. */
  lemma ClassifiedExactlyOnce(e: Env, now: int, labels: seq<Label>, k: string, i: nat)
    requires e.Valid() && PromptRun(e, now, labels, k)
    requires i in Run(e, now, labels).requests
    requires Run(e, now, labels).requests[i].info.key == k && Run(e, now, labels).requests[i].pc.Done?
    ensures var s := Run(e, now, labels);
            exists c :: ClaimedOn(s, c, k)
              && (StoredPinned(s, k) <==> s.requests[c].pc.Done?)
              && (StoredPinned(s, k) ==>
                    s.requests[c].asks
                    == (if s.requests[c].info.subagent || s.requests[c].info.pathOverride then 0 else 1))
              && forall j :: j in s.requests && s.requests[j].info.key == k && j != c ==>
                   s.requests[j].claimedAt.None? && !s.requests[j].pc.Asking?
                   && s.requests[j].asks == 0 && s.requests[j].built.None?
  {
    PromptRunsKeepTheKey(e, now, labels, k);
    var s := Run(e, now, labels);
    var c :| ClaimedOn(s, c, k);
    RunKeepsOneClaim(e, now, labels, k);
    RunKeepsInv(e, now, labels);
    assert RequestOk(e, s, s.requests[c]);
    forall j | j in s.requests && s.requests[j].info.key == k
      ensures j != c ==> s.requests[j].claimedAt.None? && !s.requests[j].pc.Asking?
                         && s.requests[j].asks == 0 && s.requests[j].built.None?
    {
      ClassifiedAtMostOnce(e, now, labels, k, c, j);
    }
  }

  // ---------------------------------------------------------------- the placeholder's short life

  /** Left alone, a placeholder is gone once its claim time is up. */
  lemma UnreadClaimLapses(db: Db, k: string, record: Record, ms: nat)
    requires k !in db.cells
    ensures k in Advance(Execute(db, SetIfAbsent(k, record, CLAIM_TTL)), ms).cells <==> ms <= 30_000
  {
  }

  /** A plain request for k that takes all its steps in a row: it arrives and reads, and then it
      claims, is classified and pins, or writes back, or is done already. */
  function Visit(e: Env, s: State, k: string, id: nat, answer: Option<ClassifyResult>): State
    requires e.Valid()
  {
    var s1 := Next(e, Next(e, s, Arrive(id, Plain(k, Turn([], false)))), Serve(id, true));
    Next(e, Next(e, Next(e, s1, Serve(id, true)), Answer(id, answer)), Serve(id, true))
  }

  /** One later request of a session whose claim was abandoned: some time passes, and it visits. */
  function Poll(e: Env, s: State, k: string, id: nat, ms: nat, answer: Option<ClassifyResult>): State
    requires e.Valid()
  {
    Visit(e, Next(e, s, Tick(ms)), k, id, answer)
  }

  function PollAll(e: Env, s: State, k: string, id: nat, gaps: seq<nat>, answers: nat -> Option<ClassifyResult>): State
    requires e.Valid()
  {
    if gaps == [] then s
    else
      var last := id + |gaps| - 1;
      Poll(e, PollAll(e, s, k, id, gaps[..|gaps| - 1], answers), k, last, gaps[|gaps| - 1], answers(last))
  }

  /** The placeholder of k is still there, with exactly `left` milliseconds to go. */
  predicate Abandoned(s: State, k: string, left: nat) {
    k in s.db.cells && s.db.cells[k].record.Classifying? && s.db.cells[k].deadline == Some(s.db.now + left)
  }

  /** A claim's winner whose request raises before its pin is written leaves such a placeholder. */
  lemma AbortedClaimIsAbandoned(e: Env, s: State, id: nat)
    requires e.Valid() && id in s.requests && s.requests[id].pc.Claiming?
    requires s.requests[id].info.key !in s.db.cells
    ensures Abandoned(Next(e, Next(e, s, Serve(id, true)), Abort(id)), s.requests[id].info.key, CLAIM_TTL)
  {
    hide BuildPinRecord;
  }

  /** The first gap fits into what is left of the placeholder's life, every later one into a ttl. */
  predicate InTime(gaps: seq<nat>, left: nat, ttl: nat) {
    forall i :: 0 <= i < |gaps| ==> gaps[i] <= if i == 0 then left else ttl
  }

  /** How a poll ends, given the gaps up to its own: as long as none came too late it gets the
      default model; the first late one claims the session, has it classified and pins it. */
  predicate PollEnds(e: Env, q: Request, gaps: seq<nat>, left: nat)
    requires gaps != []
  {
    && q.pc.Done?
    && (InTime(gaps, left, e.ttl) ==> q.pc == Done(e.policies.defaultModel) && q.claimedAt.None? && q.asks == 0)
    && (InTime(gaps[..|gaps| - 1], left, e.ttl) && !InTime(gaps, left, e.ttl) ==>
          q.claimedAt.Some? && q.asks == 1 && q.built.Some? && q.pc == Done(q.built.value.model))
  }

  predicate PollsEnd(e: Env, t: State, id: nat, gaps: seq<nat>, left: nat) {
    forall i :: id <= i < id + |gaps| ==> i in t.requests && PollEnds(e, t.requests[i], gaps[..i - id + 1], left)
  }

  /** But every read slides the placeholder's deadline by the full session ttl. So once the claim's
      winner is gone, the placeholder stays, and no poll ever claims the session, if and only if the
      client returns before the claim lapses and then at least once per ttl. After the first poll
      that comes later the session is pinned. */
  lemma {:induction false} AbandonedClaimStaysExactly(e: Env, s: State, k: string, id: nat, gaps: seq<nat>,
                                                      answers: nat -> Option<ClassifyResult>, left: nat)
    requires e.Valid() && Abandoned(s, k, left)
    requires forall i :: i in s.requests ==> i < id
    ensures var t := PollAll(e, s, k, id, gaps, answers);
            && (InTime(gaps, left, e.ttl) ==> Abandoned(t, k, if gaps == [] then left else e.ttl))
            && (!InTime(gaps, left, e.ttl) ==> StoredPinned(t, k))
            && PollsEnd(e, t, id, gaps, left)
            && ((forall i :: id <= i < id + |gaps| ==> i in t.requests && t.requests[i].claimedAt.None?)
                <==> InTime(gaps, left, e.ttl))
            && (forall i :: i in t.requests ==> i < id + |gaps|)
  {
    hide Poll, Abandoned, PollsEnd, StoredPinned;
    var t := PollAll(e, s, k, id, gaps, answers);
    if gaps == [] {
      NoPolls(e, s, id, left);
    } else {
      var n := |gaps| - 1;
      var init := gaps[..n];
      AbandonedClaimStaysExactly(e, s, k, id, init, answers, left);
      var before := PollAll(e, s, k, id, init, answers);
      if InTime(init, left, e.ttl) {
        PollOfPlaceholder(e, before, k, id + n, gaps[n], answers(id + n), if n == 0 then left else e.ttl);
      } else {
        PollOfPinned(e, before, k, id + n, gaps[n], answers(id + n));
      }
      OneMorePoll(e, before, t, id, gaps, left);
    }
    UnclaimedInTime(e, t, id, gaps, left);
  }

  lemma NoPolls(e: Env, s: State, id: nat, left: nat)
    ensures PollsEnd(e, s, id, [], left)
  {
  }

  lemma OneMorePoll(e: Env, before: State, t: State, id: nat, gaps: seq<nat>, left: nat)
    requires gaps != [] && var n := |gaps| - 1;
             && PollsEnd(e, before, id, gaps[..n], left)
             && id + n in t.requests && t.requests == before.requests[id + n := t.requests[id + n]]
             && PollEnds(e, t.requests[id + n], gaps, left)
    ensures PollsEnd(e, t, id, gaps, left)
  {
    hide PollEnds;
    var n := |gaps| - 1;
    forall i | id <= i < id + |gaps|
      ensures i in t.requests && PollEnds(e, t.requests[i], gaps[..i - id + 1], left)
    {
      if i < id + n {
        assert gaps[..i - id + 1] == gaps[..n][..i - id + 1];
        assert i in before.requests && PollEnds(e, before.requests[i], gaps[..n][..i - id + 1], left);
      } else {
        assert gaps[..i - id + 1] == gaps;
      }
    }
  }

  /** The first late poll, if there is one, is the first to claim. */
  lemma {:induction false} UnclaimedInTime(e: Env, t: State, id: nat, gaps: seq<nat>, left: nat)
    requires PollsEnd(e, t, id, gaps, left)
    ensures (forall i :: id <= i < id + |gaps| ==> i in t.requests && t.requests[i].claimedAt.None?)
            <==> InTime(gaps, left, e.ttl)
  {
    if gaps != [] {
      var n := |gaps| - 1;
      var init := gaps[..n];
      forall i | id <= i < id + n ensures i in t.requests && PollEnds(e, t.requests[i], init[..i - id + 1], left) {
        assert gaps[..i - id + 1] == init[..i - id + 1];
        assert i in t.requests && PollEnds(e, t.requests[i], gaps[..i - id + 1], left);
      }
      UnclaimedInTime(e, t, id, init, left);
      assert gaps[..|gaps|] == gaps;
      assert id + n in t.requests && PollEnds(e, t.requests[id + n], gaps[..id + n - id + 1], left);
      assert InTime(gaps, left, e.ttl) ==> InTime(init, left, e.ttl);
    }
  }

  /** A request that is done ignores what is left of its visit. */
  lemma DoneVisit(e: Env, s: State, id: nat, answer: Option<ClassifyResult>)
    requires e.Valid() && id in s.requests && s.requests[id].pc.Done?
    ensures Next(e, Next(e, Next(e, s, Serve(id, true)), Answer(id, answer)), Serve(id, true)) == s
    ensures Next(e, Next(e, s, Answer(id, answer)), Serve(id, true)) == s
  {
  }

  lemma VisitPlaceholder(e: Env, s: State, k: string, id: nat, answer: Option<ClassifyResult>)
    requires e.Valid() && id !in s.requests && k in s.db.cells && s.db.cells[k].record.Classifying?
    ensures var t := Visit(e, s, k, id, answer);
            && id in t.requests && t.requests == s.requests[id := t.requests[id]]
            && t.requests[id].pc == Done(e.policies.defaultModel)
            && t.requests[id].claimedAt.None? && t.requests[id].asks == 0
            && Abandoned(t, k, e.ttl)
  {
    hide ServeTurn, LogHit;
    var s1 := Next(e, Next(e, s, Arrive(id, Plain(k, Turn([], false)))), Serve(id, true));
    assert s1.requests[id].pc == Done(e.policies.defaultModel);
    DoneVisit(e, s1, id, answer);
  }

  lemma VisitAbsent(e: Env, s: State, k: string, id: nat, answer: Option<ClassifyResult>)
    requires e.Valid() && id !in s.requests && k !in s.db.cells
    ensures var t := Visit(e, s, k, id, answer);
            && id in t.requests && t.requests == s.requests[id := t.requests[id]]
            && t.requests[id].claimedAt.Some? && t.requests[id].asks == 1
            && t.requests[id].built.Some? && t.requests[id].pc == Done(t.requests[id].built.value.model)
            && StoredPinned(t, k)
  {
    hide ServeStore, PinFor;
    ClaimAndPin(e, Next(e, s, Arrive(id, Plain(k, Turn([], false)))), id, k, answer);
  }

  lemma VisitPinned(e: Env, s: State, k: string, id: nat, answer: Option<ClassifyResult>)
    requires e.Valid() && id !in s.requests && StoredPinned(s, k)
    ensures var t := Visit(e, s, k, id, answer);
            && id in t.requests && t.requests == s.requests[id := t.requests[id]] && t.requests[id].pc.Done?
            && StoredPinned(t, k)
  {
    hide ServeTurn, EscalationEvent, Next;
    var turn := Turn([], false);
    Arrives(e, s, id, Plain(k, turn));
    var s1 := Next(e, s, Arrive(id, Plain(k, turn)));
    var s2 := Next(e, s1, Serve(id, true));
    PinnedRead(e, s1, id, k, turn);
    if s2.requests[id].pc.Updating? {
      WriteBack(e, s2, id, k);
      DoneVisit(e, Next(e, s2, Serve(id, true)), id, answer);
    } else {
      DoneVisit(e, s2, id, answer);
    }
  }

  lemma PollOfPlaceholder(e: Env, s: State, k: string, id: nat, ms: nat, answer: Option<ClassifyResult>, left: nat)
    requires e.Valid() && Abandoned(s, k, left) && id !in s.requests
    ensures var t := Poll(e, s, k, id, ms, answer);
            && id in t.requests && t.requests == s.requests[id := t.requests[id]]
            && if ms <= left
               then Abandoned(t, k, e.ttl) && t.requests[id].pc == Done(e.policies.defaultModel)
                    && t.requests[id].claimedAt.None? && t.requests[id].asks == 0
               else StoredPinned(t, k) && t.requests[id].claimedAt.Some? && t.requests[id].asks == 1
                    && t.requests[id].built.Some? && t.requests[id].pc == Done(t.requests[id].built.value.model)
  {
    hide Visit;
    var s1 := Next(e, s, Tick(ms));
    assert k in s1.db.cells <==> ms <= left;
    if ms <= left {
      assert s1.db.cells[k] == s.db.cells[k];
      VisitPlaceholder(e, s1, k, id, answer);
    } else {
      VisitAbsent(e, s1, k, id, answer);
    }
  }

  lemma PollOfPinned(e: Env, s: State, k: string, id: nat, ms: nat, answer: Option<ClassifyResult>)
    requires e.Valid() && StoredPinned(s, k) && id !in s.requests
    ensures var t := Poll(e, s, k, id, ms, answer);
            && id in t.requests && t.requests == s.requests[id := t.requests[id]] && t.requests[id].pc.Done?
            && StoredPinned(t, k)
  {
    hide Visit;
    var s1 := Next(e, s, Tick(ms));
    if k in s1.db.cells {
      VisitPinned(e, s1, k, id, answer);
    } else {
      VisitAbsent(e, s1, k, id, answer);
    }
  }
}
