/**
 The independent checker of orchestration evidence: what it accepts, and the checking loop itself.

 The fixed header fields of an evidence file (schema version, kind, platform fact, recording time)
 are constants and are not part of the record.

 Line numbers refer to evals/orchestration-evidence.ts.
 */
module OrchestrationEvidence {
  import opened Basics
  import opened Sorting
  import opened Texts
  import opened Provider
  import opened Orchestration

  datatype Mode = Fixture | Live
  datatype Result = FanOutR(fanOut: FanOutResult) | AdversarialR(adversarial: AdversarialResult) | LoopR(loop: LoopResult)

  datatype Evidence = Evidence(
    mode: Mode, pattern: Pattern, taskIds: seq<string>, caps: Caps, maxIterations: Option<int>,
    expectsIterationCap: bool, result: Option<Result>, log: Entry)

  // ---- What is acceptable ------------------------------------------------------------------------

  ghost function SumCost(calls: seq<Call>): real {
    if calls == [] then 0.0 else SumCost(calls[..|calls| - 1]) + calls[|calls| - 1].cost
  }

  ghost function SumPredicted(calls: seq<Call>): real {
    if calls == [] then 0.0 else SumPredicted(calls[..|calls| - 1]) + calls[|calls| - 1].predicted
  }

  ghost function SumUsage(calls: seq<Call>): Usage {
    if calls == [] then NO_USAGE else AddUsage(SumUsage(calls[..|calls| - 1]), calls[|calls| - 1].usage)
  }

  ghost function Roles(calls: seq<Call>): (r: seq<Role>)
    ensures |r| == |calls|
  {
    seq(|calls|, i requires 0 <= i < |calls| => calls[i].role)
  }

  predicate CallOk(c: Call) {
    !(c.requested.Other? && Blank(c.requested.name)) && ModelsOk(c.models) && c.predicted > 0.0 && c.cost >= 0.0 && UsageOk(c.usage)
  }

  ghost predicate CallsOk(calls: seq<Call>) {
    calls != [] && (forall i :: 0 <= i < |calls| ==> CallOk(calls[i])) && NoDuplicates(Roles(calls))
  }

  ghost predicate TaskIdsOk(ids: seq<string>) {
    ids != [] && (forall i :: 0 <= i < |ids| ==> ids[i] != "") && NoDuplicates(ids)
  }

  predicate IterationsOk(pattern: Pattern, max: Option<int>) {
    if pattern.LoopUntilDone? then max.Some? && max.value > 0 else max.None?
  }

  /** The totals of the entry are those of its calls, and within the caps. */
  predicate WithinCaps(r: Receipt, caps: Caps) {
    && CapsOk(caps)
    && 0.0 < r.predicted <= caps.maxSpendUsd + TOLERANCE
    && 0.0 <= r.cost <= caps.maxSpendUsd + TOLERANCE
    && 0 <= r.elapsed <= caps.maxWallClockMs
    && UsageOk(r.usage) && TokenTotal(r.usage) <= caps.maxTokens
    && ModelsOk(r.models)
  }

  ghost predicate Totals(r: Receipt) {
    && Abs(SumCost(r.calls) - r.cost) <= TOLERANCE
    && SumPredicted(r.calls) - r.predicted <= TOLERANCE
    && SumUsage(r.calls) == r.usage
    && SortText(Sorting.Distinct(AllModels(r.calls))) == SortText(r.models)
  }

  ghost predicate RolesOk(pattern: Pattern, roles: seq<Role>, max: Option<int>) {
    match pattern
    case FanOutSynthesize => FanOutRolesOk(roles)
    case AdversarialPattern => roles == [Maker, Critic, Judge]
    case LoopUntilDone => max.Some? && |roles| % 2 == 0 && |roles| <= max.value * 2 && roles == LoopRoles(|roles| / 2)
  }

  ghost predicate FanOutRolesOk(roles: seq<Role>) {
    && (exists i :: 0 <= i < |roles| && roles[i].Worker?)
    && (exists i :: 0 <= i < |roles| && roles[i] == Synthesizer && forall j :: 0 <= j < |roles| && j != i ==> roles[j].Worker?)
  }

  ghost function LoopRoles(n: nat): (r: seq<Role>)
    ensures |r| == 2 * n
  {
    if n == 0 then [] else LoopRoles(n - 1) + [LoopMaker(n), LoopVerifier(n)]
  }

  ghost predicate ModeOk(mode: Mode, r: Receipt) {
    match mode
    case Fixture => (forall i :: 0 <= i < |r.models| ==> IsFixture(r.models[i])) && r.cost == 0.0
    case Live => (forall i :: 0 <= i < |r.models| ==> !IsFixture(r.models[i])) && r.cost > 0.0
  }

  predicate ResultOk(pattern: Pattern, result: Result, max: Option<int>, calls: nat) {
    match pattern
    case FanOutSynthesize => result.FanOutR? && result.fanOut.workers != []
    case AdversarialPattern =>
      && result.AdversarialR?
      && var a := result.adversarial;
         && !Blank(a.makerOutput) && a.position in {"refute", "concede"} && !Blank(a.refutation)
         && a.verdict in {"maker", "critic", "mixed"} && !(a.position == "concede" && a.verdict == "critic")
         && !Blank(a.output) && !Blank(a.justification)
    case LoopUntilDone =>
      && result.LoopR?
      && var l := result.loop;
         l.verified && l.iterations >= 1 && max.Some? && l.iterations <= max.value && calls == l.iterations * 2 && !Blank(l.output)
  }

  function SpendOf(result: Result): Receipt {
    match result
    case FanOutR(r) => r.spend
    case AdversarialR(r) => r.spend
    case LoopR(r) => r.spend
  }

  predicate EndOk(e: Evidence) {
    if !e.expectsIterationCap then
      && e.log.status == Completed && e.result.Some? && SpendOf(e.result.value) == e.log.receipt
      && ResultOk(e.pattern, e.result.value, e.maxIterations, |e.log.receipt.calls|)
    else
      && e.pattern == LoopUntilDone && e.log.status == Failed(IterationCapCode) && e.result.None?
      && e.maxIterations.Some? && |e.log.receipt.calls| == e.maxIterations.value * 2
  }

  ghost predicate ValidEvidence(e: Evidence) {
    && TaskIdsOk(e.taskIds) && IterationsOk(e.pattern, e.maxIterations) && e.log.pattern == e.pattern
    && WithinCaps(e.log.receipt, e.caps)
    && CallsOk(e.log.receipt.calls) && Totals(e.log.receipt)
    && RolesOk(e.pattern, Roles(e.log.receipt.calls), e.maxIterations)
    && ModeOk(e.mode, e.log.receipt)
    && EndOk(e)
  }

  // ---- The checker -------------------------------------------------------------------------------

  /** `new Set(s).size === s.length`. */
  method Unique<T(==)>(s: seq<T>) returns (ok: bool)
    ensures ok <==> NoDuplicates(s)
  {
    var seen: set<T> := {};
    for i := 0 to |s|
      invariant seen == set x | x in s[..i]
    {
      assert s[..i + 1] == s[..i] + [s[i]];
      seen := seen + {s[i]};
    }
    assert s[..|s|] == s;
    SetSize(s);
    ok := |seen| == |s|;
  }

  /** Lines 59-80: one pass over the calls, then the totals. */
  method CheckCalls(r: Receipt) returns (ok: bool, roles: seq<Role>)
    ensures ok <==> CallsOk(r.calls) && Totals(r)
    ensures ok ==> roles == Roles(r.calls)
  {
    roles := [];
    if r.calls == [] { return false, []; }
    var cost, predicted, usage := 0.0, 0.0, NO_USAGE;
    var models: seq<string> := [];
    for i := 0 to |r.calls|
      invariant cost == SumCost(r.calls[..i]) && predicted == SumPredicted(r.calls[..i])
      invariant usage == SumUsage(r.calls[..i]) && models == AllModels(r.calls[..i])
      invariant roles == Roles(r.calls)[..i]
      invariant forall k :: 0 <= k < i ==> CallOk(r.calls[k])
    {
      var call := r.calls[i];
      if !CallOk(call) { return false, roles; }
      assert r.calls[..i + 1][..i] == r.calls[..i];
      cost, predicted := cost + call.cost, predicted + call.predicted;
      usage, models, roles := AddUsage(usage, call.usage), models + call.models, roles + [call.role];
    }
    assert r.calls[..|r.calls|] == r.calls && Roles(r.calls)[..|r.calls|] == Roles(r.calls);
    var unique := Unique(roles);
    ok := unique && Abs(cost - r.cost) <= TOLERANCE && predicted - r.predicted <= TOLERANCE && usage == r.usage
       && SortText(Sorting.Distinct(models)) == SortText(r.models);
  }

  /** `validateRoles` (110-132). */
  method CheckRoles(pattern: Pattern, roles: seq<Role>, max: Option<int>) returns (ok: bool)
    requires IterationsOk(pattern, max) && NoDuplicates(roles)
    ensures ok <==> RolesOk(pattern, roles, max)
  {
    match pattern
    case FanOutSynthesize => ok := CheckFanOutRoles(roles);
    case AdversarialPattern => ok := roles == [Maker, Critic, Judge];
    case LoopUntilDone => ok := CheckLoopRoles(roles, max.value);
  }

  method CheckFanOutRoles(roles: seq<Role>) returns (ok: bool)
    requires NoDuplicates(roles)
    ensures ok <==> FanOutRolesOk(roles)
  {
    var workers, synthesizers := 0, 0;
    ghost var at := 0;
    for i := 0 to |roles|
      invariant workers >= 0 && synthesizers >= 0 && workers + synthesizers == i
      invariant workers > 0 <==> exists k :: 0 <= k < i && roles[k].Worker?
      invariant forall k :: 0 <= k < i ==> roles[k].Worker? || roles[k] == Synthesizer
      invariant synthesizers == 0 <==> forall k :: 0 <= k < i ==> roles[k] != Synthesizer
      invariant synthesizers <= 1
      invariant synthesizers == 1 ==> 0 <= at < i && roles[at] == Synthesizer
    {
      if roles[i].Worker? {
        workers := workers + 1;
      } else if roles[i] == Synthesizer {
        synthesizers := synthesizers + 1;
        at := i;
      } else {
        return false;
      }
    }
    ok := workers >= 1 && synthesizers == 1;
  }

  method CheckLoopRoles(roles: seq<Role>, max: int) returns (ok: bool)
    ensures ok <==> |roles| % 2 == 0 && |roles| <= max * 2 && roles == LoopRoles(|roles| / 2)
  {
    if |roles| % 2 != 0 || |roles| > max * 2 { return false; }
    for i := 0 to |roles| / 2
      invariant roles[..2 * i] == LoopRoles(i)
    {
      assert roles[..2 * (i + 1)] == roles[..2 * i] + [roles[2 * i], roles[2 * i + 1]];
      if roles[2 * i] != LoopMaker(i + 1) || roles[2 * i + 1] != LoopVerifier(i + 1) {
        LoopRolesAt(|roles| / 2, i + 1);
        return false;
      }
    }
    assert roles[..|roles|] == roles;
    ok := true;
  }

  lemma {:induction false} LoopRolesAt(n: nat, i: nat)
    requires 1 <= i <= n
    ensures LoopRoles(n)[2 * i - 2] == LoopMaker(i) && LoopRoles(n)[2 * i - 1] == LoopVerifier(i)
  {
    if i < n { LoopRolesAt(n - 1, i); }
  }

  method CheckMode(mode: Mode, r: Receipt) returns (ok: bool)
    ensures ok <==> ModeOk(mode, r)
  {
    for i := 0 to |r.models|
      invariant forall k :: 0 <= k < i ==> (IsFixture(r.models[k]) <==> mode == Fixture)
    {
      if IsFixture(r.models[i]) != (mode == Fixture) { return false; }
    }
    ok := if mode == Fixture then r.cost == 0.0 else r.cost > 0.0;
  }

  /** `assertOrchestrationEvidence` (28-108): accepts exactly the valid evidence. */
  method CheckEvidence(e: Evidence) returns (accepted: bool)
    ensures accepted <==> ValidEvidence(e)
  {
    accepted := false;
    if e.taskIds == [] { return; }
    for i := 0 to |e.taskIds|
      invariant forall k :: 0 <= k < i ==> e.taskIds[k] != ""
    {
      if e.taskIds[i] == "" { return; }
    }
    var unique := Unique(e.taskIds);
    if !unique { return; }
    if !IterationsOk(e.pattern, e.maxIterations) || e.log.pattern != e.pattern { return; }
    if !WithinCaps(e.log.receipt, e.caps) { return; }
    var ok, roles := CheckCalls(e.log.receipt);
    if !ok { return; }
    ok := CheckRoles(e.pattern, roles, e.maxIterations);
    if !ok { return; }
    ok := CheckMode(e.mode, e.log.receipt);
    if !ok { return; }
    accepted := EndOk(e);
  }
}
