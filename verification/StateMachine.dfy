/** Session records and their transitions: the placeholder, the pin, the one-step escalation. */
module StateMachine {
  import opened Options
  import opened Policies
  import opened Content
  import opened Escalation
  import opened ScanLaws

  datatype ClassifyResult = ClassifyResult(policyName: string, model: string, confidence: real)

  /** What the store holds for a session. */
  datatype Record =
    | Classifying(model: string, policyName: string)
    | Pinned(model: string, policyName: string, classified: bool, confidence: real, pathOverride: bool,
             escalations: int, pinnedAt: int, firstMessageHash: string, apiKeyAlias: string,
             scan: ScanState, subagent: bool)

  function Placeholder(p: PoliciesConfig): Record
    requires p.Valid()
  {
    Classifying(p.defaultModel, p.DefaultTier().name)
  }

  /** The initial pin: path override before classifier result before default. An answer naming no
      tier of the ladder counts as no answer. */
  function BuildPinRecord(p: PoliciesConfig, classify: Option<ClassifyResult>, pathOverride: bool,
                          hash: string, alias: string, msgCount: nat, now: int): Record
    requires p.Valid()
  {
    var scan := ScanState(msgCount, 0, 0);
    if pathOverride then
      var tier := p.tiers[p.Position(p.forceTier)];
      Pinned(tier.model, tier.name, false, 1.0, true, 0, now, hash, alias, scan, false)
    else if classify.Some? && p.TierByName(classify.value.policyName).Some? then
      var tier := p.TierByName(classify.value.policyName).value;
      Pinned(tier.model, classify.value.policyName, true, classify.value.confidence, false, 0, now, hash, alias,
             scan, false)
    else
      Pinned(p.defaultModel, p.DefaultTier().name, false, 0.0, false, 0, now, hash, alias, scan, false)
  }

  /** The ladder position a record stands at. A name the ladder no longer has is re-anchored at
      the default tier. */
  function Anchor(p: PoliciesConfig, policyName: string): (i: nat)
    requires p.Valid()
    ensures i < |p.tiers|
  {
    match p.TierIndex(policyName)
    case Some(i) => i
    case None => p.Position(p.DefaultTier().name)
  }

  /** One tier up; None when not pinned, capped, or at the top. */
  function Escalate(p: PoliciesConfig, r: Record): Option<Record>
    requires p.Valid()
  {
    if !r.Pinned? || r.escalations >= p.escalation.maxEscalations then None
    else
      var i := Anchor(p, r.policyName);
      if i >= |p.tiers| - 1 then None
      else Some(r.(policyName := p.tiers[i + 1].name, model := p.tiers[i + 1].model,
                   escalations := r.escalations + 1))
  }

  /** One tier below the parent, or the parent's own tier when the parent was force-pinned. */
  function SubagentTier(p: PoliciesConfig, parent: Record): Tier
    requires p.Valid() && parent.Pinned?
  {
    var i := Anchor(p, parent.policyName);
    if parent.pathOverride then p.tiers[i] else p.tiers[Max(0, i - 1)]
  }

  /** The tier a subagent is pinned at, given what reading its parent's key returned. */
  function SubagentPinTier(p: PoliciesConfig, parent: Option<Record>): Tier
    requires p.Valid()
  {
    if parent.Some? && parent.value.Pinned? then SubagentTier(p, parent.value) else p.DefaultTier()
  }

  function BuildSubagentRecord(p: PoliciesConfig, parent: Option<Record>, hash: string, alias: string,
                               msgCount: nat, now: int): Record
    requires p.Valid()
  {
    var tier := SubagentPinTier(p, parent);
    var r := BuildPinRecord(p, Some(ClassifyResult(tier.name, tier.model, 1.0)), false, hash, alias, msgCount, now);
    if r.Pinned? then r.(subagent := true) else r
  }

  // ---------------------------------------------------------------- one pinned request

  /** What one request contributes to a pinned session. */
  datatype Turn = Turn(messages: seq<Message>, escalateHeader: bool)

  /** The effect of one pinned request: the record afterwards, whether it is written back, and
      the signal behind an applied escalation. */
  datatype PinnedOutcome = PinnedOutcome(record: Record, write: bool, applied: Signal)

  function ServeTurn(p: PoliciesConfig, r: Record, t: Turn): (o: PinnedOutcome)
    requires p.Valid() && r.Pinned?
    ensures o.record.Pinned?
  {
    var (signal, scan) := Detected(MessageList(t.messages), t.escalateHeader, r.scan, p.escalation);
    var raised := if signal.NoSignal? then None else Escalate(p, r);
    if raised.Some? then
      PinnedOutcome(raised.value.(scan := Consume(scan, |t.messages|)), true, signal)
    else
      PinnedOutcome(r.(scan := scan), scan != r.scan, NoSignal)
  }

  // ---------------------------------------------------------------- laws of the transitions

  predicate WellPinned(p: PoliciesConfig, r: Record)
    requires p.Valid()
  {
    && r.Pinned?
    && r.escalations == 0
    && Sound(r.scan) && r.scan.consecFailures == 0
    && p.TierIndex(r.policyName).Some?
    && (r.model == p.defaultModel || r.model == p.tiers[p.Position(r.policyName)].model)
    && (r.pathOverride ==> r.policyName == p.forceTier)
  }

  /** The model of a session pinned by `pin` after e escalations. */
  function ModelAfter(p: PoliciesConfig, pin: Record, e: nat): string
    requires p.Valid() && WellPinned(p, pin) && p.Position(pin.policyName) + e < |p.tiers|
  {
    if e == 0 then pin.model else p.tiers[p.Position(pin.policyName) + e].model
  }

  /** r is `pin` moved up by exactly its escalation count, with some sound scan state; nothing
      else about it differs. */
  predicate DescendsFrom(p: PoliciesConfig, pin: Record, r: Record)
    requires p.Valid()
  {
    && WellPinned(p, pin)
    && r.Pinned?
    && Sound(r.scan) && Countable(r.scan)
    && 0 <= r.escalations <= Max(0, p.escalation.maxEscalations)
    && p.Position(pin.policyName) + r.escalations < |p.tiers|
    && r == pin.(policyName := p.tiers[p.Position(pin.policyName) + r.escalations].name,
                 model := ModelAfter(p, pin, r.escalations),
                 escalations := r.escalations,
                 scan := r.scan)
  }

  /** Every way of building a pin yields a well-formed one, at the tier its inputs ask for. */
  lemma BuiltPinsAreWellPinned(p: PoliciesConfig, classify: Option<ClassifyResult>, pathOverride: bool,
                               hash: string, alias: string, msgCount: nat, now: int)
    requires p.Valid()
    ensures var r := BuildPinRecord(p, classify, pathOverride, hash, alias, msgCount, now);
            && WellPinned(p, r)
            && r.pathOverride == pathOverride && !r.subagent && r.scan == ScanState(msgCount, 0, 0)
            && r.firstMessageHash == hash && r.apiKeyAlias == alias && r.pinnedAt == now
            && var named := classify.Some? && p.TierIndex(classify.value.policyName).Some?;
            && r.classified == (!pathOverride && named)
            && (pathOverride || named ==> r.model == p.tiers[p.Position(r.policyName)].model)
            && (r.classified ==> r.policyName == classify.value.policyName && r.confidence == classify.value.confidence)
            && (pathOverride ==> r.policyName == p.forceTier && r.confidence == 1.0)
            && (!pathOverride && !named ==>
                  r.model == p.defaultModel && r.policyName == p.DefaultTier().name && r.confidence == 0.0)
  {
    var i :| 0 <= i < |p.tiers| && p.tiers[i] == p.DefaultTier();
    PositionRoundTrip(p, i);
    assert p.TierIndex(p.forceTier).Some?;
  }

  /** A pinned parent's subagent sits one tier below it, floored at the cheapest; a force-pinned
      parent's subagent keeps the parent's tier; without a pinned parent it gets the default. */
  lemma SubagentPinPosition(p: PoliciesConfig, parent: Option<Record>, hash: string, alias: string,
                            msgCount: nat, now: int)
    requires p.Valid()
    ensures var r := BuildSubagentRecord(p, parent, hash, alias, msgCount, now);
            && WellPinned(p, r) && r.subagent && !r.pathOverride
            && r.model == p.tiers[p.Position(r.policyName)].model && r.classified && r.confidence == 1.0
            && r.scan == ScanState(msgCount, 0, 0)
            && r.firstMessageHash == hash && r.apiKeyAlias == alias && r.pinnedAt == now
            && (parent.Some? && parent.value.Pinned? && p.TierIndex(parent.value.policyName).Some? ==>
                  var i := p.Position(parent.value.policyName);
                  p.Position(r.policyName) == if parent.value.pathOverride then i else Max(0, i - 1))
            && (parent.None? || parent.value.Classifying? ==> r.policyName == p.DefaultTier().name)
  {
    var tier := SubagentPinTier(p, parent);
    var i :| 0 <= i < |p.tiers| && p.tiers[i] == tier;
    PositionRoundTrip(p, i);
    if parent.Some? && parent.value.Pinned? {
      var a := Anchor(p, parent.value.policyName);
      PositionRoundTrip(p, if parent.value.pathOverride then a else Max(0, a - 1));
    }
    BuiltPinsAreWellPinned(p, Some(ClassifyResult(tier.name, tier.model, 1.0)), false, hash, alias, msgCount, now);
  }

  /** A record whose tier the ladder no longer has escalates to just above the default tier, from
      wherever it stood. */
  lemma ReanchoredEscalation(p: PoliciesConfig, r: Record)
    requires p.Valid() && r.Pinned? && p.TierIndex(r.policyName).None?
    ensures p.TierIndex(p.DefaultTier().name).Some?
    ensures var base := p.Position(p.DefaultTier().name);
            && (Escalate(p, r).Some? <==> r.escalations < p.escalation.maxEscalations && base < |p.tiers| - 1)
            && (Escalate(p, r).Some? ==>
                  p.TierIndex(Escalate(p, r).value.policyName) == Some(base + 1)
                  && Escalate(p, r).value.escalations == r.escalations + 1)
  {
    var base := p.Position(p.DefaultTier().name);
    if base + 1 < |p.tiers| {
      PositionRoundTrip(p, base + 1);
    }
  }

  /** For a descendant of a pin the re-anchoring branch is dead, and an escalation applies exactly
      when neither the cap nor the top of the ladder is reached. */
  lemma EscalateDescendant(p: PoliciesConfig, pin: Record, r: Record)
    requires p.Valid() && DescendsFrom(p, pin, r)
    ensures p.TierIndex(r.policyName) == Some(p.Position(pin.policyName) + r.escalations)
    ensures Escalate(p, r).Some? <==>
            r.escalations < p.escalation.maxEscalations
            && p.Position(pin.policyName) + r.escalations < |p.tiers| - 1
    ensures Escalate(p, r).Some? ==>
            DescendsFrom(p, pin, Escalate(p, r).value)
            && Escalate(p, r).value.escalations == r.escalations + 1
  {
    PositionRoundTrip(p, p.Position(pin.policyName) + r.escalations);
  }

  lemma ScanStateIsFree(p: PoliciesConfig, pin: Record, r: Record, scan: ScanState)
    requires p.Valid() && DescendsFrom(p, pin, r) && Sound(scan) && Countable(scan)
    ensures DescendsFrom(p, pin, r.(scan := scan))
  {
  }

  lemma DescendantIsSound(p: PoliciesConfig, pin: Record, r: Record)
    requires p.Valid() && DescendsFrom(p, pin, r)
    ensures r.Pinned? && Sound(r.scan) && Countable(r.scan)
  {
  }

  lemma ServedScanIsSound(p: PoliciesConfig, r: Record, t: Turn)
    requires p.Valid() && r.Pinned? && Sound(r.scan) && Countable(r.scan)
    ensures Sound(ServeTurn(p, r, t).record.scan) && Countable(ServeTurn(p, r, t).record.scan)
  {
    hide Detected, Escalate;
    var scan := Detected(MessageList(t.messages), t.escalateHeader, r.scan, p.escalation).1;
    SoundnessIsKept(MessageList(t.messages), t.escalateHeader, r.scan, p.escalation, 0);
    CountabilityIsKept(MessageList(t.messages), t.escalateHeader, r.scan, p.escalation, 0);
    SoundnessIsKept(NotAList, false, scan, p.escalation, |t.messages|);
    CountabilityIsKept(NotAList, false, scan, p.escalation, |t.messages|);
  }

  /** A pinned request keeps the descent and moves the tier by at most one, upwards. */
  lemma TurnKeepsDescent(p: PoliciesConfig, pin: Record, r: Record, t: Turn)
    requires p.Valid() && DescendsFrom(p, pin, r)
    ensures var o := ServeTurn(p, r, t);
            && DescendsFrom(p, pin, o.record)
            && o.record.escalations == r.escalations + (if o.applied.NoSignal? then 0 else 1)
            && (!o.write ==> o.record == r)
  {
    hide Detected, Sound, Countable, DescendsFrom;
    assert Sound(r.scan) && Countable(r.scan) by { DescendantIsSound(p, pin, r); }
    ServedScanIsSound(p, r, t);
    EscalateDescendant(p, pin, r);
    var scan := ServeTurn(p, r, t).record.scan;
    if Escalate(p, r).Some? {
      ScanStateIsFree(p, pin, Escalate(p, r).value, scan);
    }
    ScanStateIsFree(p, pin, r, scan);
  }

  lemma PinDescendsFromItself(p: PoliciesConfig, pin: Record)
    requires p.Valid() && WellPinned(p, pin)
    ensures DescendsFrom(p, pin, pin)
  {
    var i := p.Position(pin.policyName);
    assert p.tiers[i].name == pin.policyName;
  }

  /** Two descendants of one pin differ in tier exactly as they differ in escalations, so writing
      one over the other lowers the tier precisely when it carries fewer. */
  lemma TierGapIsEscalationGap(p: PoliciesConfig, pin: Record, before: Record, after: Record)
    requires p.Valid() && DescendsFrom(p, pin, before) && DescendsFrom(p, pin, after)
    ensures p.TierIndex(before.policyName).Some? && p.TierIndex(after.policyName).Some?
    ensures p.Position(after.policyName) - p.Position(before.policyName) == after.escalations - before.escalations
  {
    EscalateDescendant(p, pin, before);
    EscalateDescendant(p, pin, after);
  }
}
