/** The validated policy configuration: an ordered ladder of tiers and the escalation rules. */
module Policies {
  import opened Options

  datatype Tier = Tier(name: string, model: string)

  /** Pattern matching is delegated to a regular-expression engine, so the configured patterns
      appear as two arbitrary functions: the retry pattern a text hits, if any, and whether a
      tool result carries a failure marker. */
  datatype EscalationConfig = EscalationConfig(
    maxEscalations: int,
    consecutiveToolFailures: int,
    retryPattern: string -> Option<string>,
    failureMarker: string -> bool)

  datatype PolicyError = NoTiers | DuplicateTierNames | UnknownForceTier

  datatype PoliciesConfig = PoliciesConfig(
    defaultModel: string,
    tiers: seq<Tier>,
    forceTier: string,
    escalation: EscalationConfig,
    isSideChannel: string -> bool)
  {
    ghost predicate Valid() {
      && |tiers| > 0
      && DistinctNames(tiers)
      && (exists i :: 0 <= i < |tiers| && tiers[i].name == forceTier)
    }

    /** The checks run when a policy file is loaded, in their order. */
    function Validate(): Option<PolicyError> {
      if |tiers| == 0 then Some(NoTiers)
      else if |NameSet(tiers)| != |tiers| then Some(DuplicateTierNames)
      else if forceTier !in NameSet(tiers) then Some(UnknownForceTier)
      else None
    }

    function TierIndex(name: string): (r: Option<nat>)
      ensures r.Some? ==> r.value < |tiers| && tiers[r.value].name == name
      ensures r.None? ==> forall j :: 0 <= j < |tiers| ==> tiers[j].name != name
    {
      IndexFrom(tiers, name, 0)
    }

    function TierByName(name: string): (r: Option<Tier>)
      ensures r.Some? ==> r.value in tiers && r.value.name == name
      ensures r.None? <==> TierIndex(name).None?
    {
      match TierIndex(name)
      case Some(i) => Some(tiers[i])
      case None => None
    }

    /** The first tier serving the default model, or else the middle of the ladder. */
    function DefaultTier(): (t: Tier)
      requires |tiers| > 0
      ensures t in tiers
      ensures (exists u :: u in tiers && u.model == defaultModel) ==> t.model == defaultModel
    {
      match FirstServing(tiers, defaultModel)
      case Some(t) => t
      case None => tiers[|tiers| / 2]
    }

    function CheapestTier(): Tier
      requires |tiers| > 0
    {
      tiers[0]
    }

    /** The ladder position of a name, for names already known to be on the ladder. */
    function Position(name: string): (i: nat)
      requires TierIndex(name).Some?
      ensures i < |tiers| && tiers[i].name == name
    {
      TierIndex(name).value
    }
  }

  function NameSet(tiers: seq<Tier>): set<string> {
    set t | t in tiers :: t.name
  }

  function IndexFrom(tiers: seq<Tier>, name: string, i: nat): (r: Option<nat>)
    requires i <= |tiers|
    ensures r.Some? ==> i <= r.value < |tiers| && tiers[r.value].name == name
    ensures r.None? ==> forall j :: i <= j < |tiers| ==> tiers[j].name != name
    decreases |tiers| - i
  {
    if i == |tiers| then None
    else if tiers[i].name == name then Some(i)
    else IndexFrom(tiers, name, i + 1)
  }

  function FirstServing(tiers: seq<Tier>, model: string): (r: Option<Tier>)
    ensures r.Some? ==> r.value in tiers && r.value.model == model
    ensures r.None? ==> forall t :: t in tiers ==> t.model != model
  {
    if tiers == [] then None
    else if tiers[0].model == model then Some(tiers[0])
    else FirstServing(tiers[1..], model)
  }

  /** On a valid ladder a tier's name finds exactly that tier's position again. */
  lemma PositionRoundTrip(p: PoliciesConfig, i: nat)
    requires p.Valid() && i < |p.tiers|
    ensures p.TierIndex(p.tiers[i].name) == Some(i)
    ensures p.TierByName(p.tiers[i].name) == Some(p.tiers[i])
  {
    var r := p.TierIndex(p.tiers[i].name);
    assert r.Some? && !(r.value < i) && !(i < r.value);
  }

  /** The default tier is the first one serving the default model; only if there is none it is the
      middle of the ladder. */
  lemma DefaultTierIsFirstServing(p: PoliciesConfig)
    requires p.Valid()
    ensures (exists i :: 0 <= i < |p.tiers| && p.tiers[i] == p.DefaultTier() && p.tiers[i].model == p.defaultModel
                         && forall j :: 0 <= j < i ==> p.tiers[j].model != p.defaultModel)
            || ((forall t :: t in p.tiers ==> t.model != p.defaultModel) && p.DefaultTier() == p.tiers[|p.tiers| / 2])
  {
    var first := FirstServing(p.tiers, p.defaultModel);
    if first.Some? {
      var i := FirstServingAt(p.tiers, p.defaultModel);
      assert p.tiers[i] == p.DefaultTier();
    }
  }

  lemma {:induction false} FirstServingAt(tiers: seq<Tier>, model: string) returns (i: nat)
    requires FirstServing(tiers, model).Some?
    ensures i < |tiers| && FirstServing(tiers, model) == Some(tiers[i])
    ensures forall j :: 0 <= j < i ==> tiers[j].model != model
  {
    if tiers[0].model == model {
      i := 0;
    } else {
      i := FirstServingAt(tiers[1..], model);
      i := i + 1;
      assert forall j :: 0 < j < i ==> tiers[j] == tiers[1..][j - 1];
    }
  }

  ghost predicate DistinctNames(tiers: seq<Tier>) {
    forall i, j :: 0 <= i < j < |tiers| ==> tiers[i].name != tiers[j].name
  }

  lemma NameSetOfAppend(init: seq<Tier>, last: Tier)
    ensures NameSet(init + [last]) == NameSet(init) + {last.name}
  {
    assert forall t :: t in init + [last] <==> t in init || t == last;
  }

  lemma NameSetMember(tiers: seq<Tier>, name: string)
    ensures name in NameSet(tiers) <==> exists i :: 0 <= i < |tiers| && tiers[i].name == name
  {
    if i :| 0 <= i < |tiers| && tiers[i].name == name {
      assert tiers[i] in tiers;
    }
  }

  /** Comparing the number of names with the number of distinct names detects every duplicate. */
  lemma {:induction false} NameCountDetectsDuplicates(tiers: seq<Tier>)
    ensures |NameSet(tiers)| <= |tiers|
    ensures |NameSet(tiers)| == |tiers| <==> DistinctNames(tiers)
  {
    if tiers != [] {
      var n := |tiers| - 1;
      var init, last := tiers[..n], tiers[n];
      NameCountDetectsDuplicates(init);
      assert tiers == init + [last];
      NameSetOfAppend(init, last);
      NameSetMember(init, last.name);
      assert DistinctNames(tiers) <==> DistinctNames(init) && last.name !in NameSet(init);
    }
  }

  /** The load-time checks accept exactly the ladders the rest of the router relies on. */
  lemma ValidateAcceptsExactlyValid(p: PoliciesConfig)
    ensures p.Validate().None? <==> p.Valid()
    ensures p.Validate() == Some(NoTiers) <==> p.tiers == []
    ensures p.Validate() == Some(DuplicateTierNames) <==> p.tiers != [] && !DistinctNames(p.tiers)
  {
    NameCountDetectsDuplicates(p.tiers);
    NameSetMember(p.tiers, p.forceTier);
  }
}
