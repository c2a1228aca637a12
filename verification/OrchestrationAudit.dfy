/**
 What the checker of orchestration evidence is good for.  First, in plain terms, what it accepts: the
 claims of a log that are true of its own calls.  Then what it therefore refuses: claims that do not
 follow from the calls, calls that were altered, dropped or repeated, and evidence passed off as of
 another mode or another ending.

 Line numbers refer to evals/orchestration-evidence.ts.
 */
module OrchestrationAudit {
  import opened Basics
  import opened Sorting
  import opened Texts
  import opened Provider
  import opened Sums
  import opened Orchestration
  import opened OrchestrationEvidence
  import opened OrchestrationTheorems

  // ---- Sums over the calls -----------------------------------------------------------------------

  function CostOf(c: Call): real { c.cost }
  function PredictedOf(c: Call): real { c.predicted }
  function UsageIn(c: Call): Usage { c.usage }

  ghost function UsageOf(calls: seq<Call>): Usage { UsageTotal(calls, UsageIn) }

  /** The checker's running sums are these sums. */
  lemma {:induction false} SumsAgree(calls: seq<Call>)
    ensures SumCost(calls) == Total(calls, CostOf) && SumPredicted(calls) == Total(calls, PredictedOf) && SumUsage(calls) == UsageOf(calls)
  {
    hide UsageTotal;
    if calls == [] {
      NoUsage();
    } else {
      var front, last := calls[..|calls| - 1], calls[|calls| - 1];
      SumsAgree(front);
      assert calls == front + [last];
      PushTotal(front, last, CostOf, UsageIn);
      PushTotal(front, last, PredictedOf, UsageIn);
    }
  }

  lemma NoUsage()
    ensures UsageOf([]) == NO_USAGE
  {
  }

  // ---- Models ------------------------------------------------------------------------------------

  ghost predicate UsedBy(calls: seq<Call>, model: string) {
    exists k :: 0 <= k < |calls| && model in calls[k].models
  }

  lemma {:induction false} AllModelsAreUsed(calls: seq<Call>, model: string)
    ensures model in AllModels(calls) <==> UsedBy(calls, model)
  {
    if calls != [] {
      var front, last := calls[..|calls| - 1], calls[|calls| - 1];
      AllModelsAreUsed(front, model);
      if UsedBy(front, model) {
        var k :| 0 <= k < |front| && model in front[k].models;
        assert model in calls[k].models;
      }
      if UsedBy(calls, model) {
        var k :| 0 <= k < |calls| && model in calls[k].models;
        if k < |front| { assert model in front[k].models; }
      }
      if model in last.models { assert model in calls[|calls| - 1].models; }
    }
  }

  /** The models claimed are those the calls used, each once. */
  ghost predicate ModelsListed(calls: seq<Call>, models: seq<string>) {
    NoDuplicates(models) && forall x :: x in models <==> UsedBy(calls, x)
  }

  lemma ModelsAgree(calls: seq<Call>, models: seq<string>)
    ensures SortText(Sorting.Distinct(AllModels(calls))) == SortText(models) <==> ModelsListed(calls, models)
  {
    hide SortText, Sorting.Distinct, UsedBy;
    var all := Sorting.Distinct(AllModels(calls));
    SortTextAgrees(all, models);
    DistinctHolds(AllModels(calls));
    forall x ensures x in all <==> UsedBy(calls, x) { AllModelsAreUsed(calls, x); }
    NoDuplicatesCounts(all);
    if multiset(all) == multiset(models) {
      forall x ensures x in models <==> x in all { assert x in multiset(models) <==> x in multiset(all); }
      OnceEach(models);
    }
    if ModelsListed(calls, models) {
      NoDuplicatesCounts(models);
      assert forall x :: multiset(all)[x] == multiset(models)[x];
    }
  }

  // ---- In plain terms ----------------------------------------------------------------------------

  /** What the log claims in sum is true of its calls. */
  ghost predicate TrueTotals(r: Receipt) {
    && -TOLERANCE <= Total(r.calls, CostOf) - r.cost <= TOLERANCE
    && Total(r.calls, PredictedOf) <= r.predicted + TOLERANCE
    && r.usage == UsageOf(r.calls)
    && ModelsListed(r.calls, r.models)
  }

  ghost predicate InOrder(c: Call) {
    && c.predicted > 0.0 && c.cost >= 0.0
    && c.usage.input >= 0 && c.usage.output >= 0 && c.usage.cacheRead >= 0 && c.usage.cacheCreation >= 0
    && c.models != [] && "" !in c.models && (c.requested.Other? ==> !Blank(c.requested.name))
  }

  /** The calls are those of the pattern: each in its place, none twice. */
  ghost predicate InPlace(e: Evidence) {
    var calls := e.log.receipt.calls;
    match e.pattern
    case FanOutSynthesize =>
      && |calls| >= 2
      && (exists s :: 0 <= s < |calls| && SynthesizerAt(calls, s))
      && forall i, j :: 0 <= i < j < |calls| ==> calls[i].role != calls[j].role
    case AdversarialPattern => |calls| == 3 && calls[0].role == Maker && calls[1].role == Critic && calls[2].role == Judge
    case LoopUntilDone =>
      && calls != [] && |calls| % 2 == 0 && e.maxIterations.Some? && |calls| / 2 <= e.maxIterations.value
      && forall k :: 0 <= k < |calls| ==> calls[k].role == LoopRole(k)
  }

  function LoopRole(k: nat): Role {
    if k % 2 == 0 then LoopMaker(k / 2 + 1) else LoopVerifier(k / 2 + 1)
  }

  ghost predicate SynthesizerAt(calls: seq<Call>, s: nat) {
    s < |calls| && calls[s].role == Synthesizer && forall k :: 0 <= k < |calls| && k != s ==> calls[k].role.Worker?
  }

  /** The log stays within the caps. */
  ghost predicate InBounds(r: Receipt, caps: Caps) {
    && caps.maxTokens > 0 && caps.maxWallClockMs > 0 && caps.maxSpendUsd > 0.0
    && 0.0 < r.predicted <= caps.maxSpendUsd + TOLERANCE && 0.0 <= r.cost <= caps.maxSpendUsd + TOLERANCE
    && 0 <= r.elapsed <= caps.maxWallClockMs
    && r.usage.input + r.usage.output + r.usage.cacheRead + r.usage.cacheCreation <= caps.maxTokens
  }

  /** A fixture run cost nothing and used only fixtures; a live one cost something and used none. */
  ghost predicate OfMode(mode: Mode, r: Receipt) {
    && (mode == Fixture <==> r.cost == 0.0)
    && forall x :: x in r.models ==> (mode == Fixture <==> IsFixture(x))
  }

  ghost predicate Described(e: Evidence) {
    && e.taskIds != [] && "" !in e.taskIds && NoDuplicates(e.taskIds) && e.log.pattern == e.pattern
    && (e.maxIterations.Some? <==> e.pattern == LoopUntilDone) && (e.maxIterations.Some? ==> e.maxIterations.value > 0)
  }

  /** The run ended as the evidence says: with a result that repeats the log's spend, or by running out of iterations. */
  ghost predicate TrueEnd(e: Evidence) {
    var calls := |e.log.receipt.calls|;
    if e.expectsIterationCap then
      && e.pattern == LoopUntilDone && e.log.status == Failed(IterationCapCode) && e.result.None?
      && e.maxIterations.Some? && calls == 2 * e.maxIterations.value
    else
      && e.log.status == Completed && e.result.Some?
      && match e.result.value
         case FanOutR(FanOutResult(workers, _, spend)) => e.pattern == FanOutSynthesize && spend == e.log.receipt && workers != []
         case AdversarialR(AdversarialResult(made, position, refutation, verdict, output, justification, spend)) =>
           && e.pattern == AdversarialPattern && spend == e.log.receipt
           && !Blank(made) && !Blank(refutation) && !Blank(output) && !Blank(justification)
           && (position == "refute" || position == "concede")
           && (verdict == "maker" || verdict == "mixed" || (verdict == "critic" && position == "refute"))
         case LoopR(LoopResult(output, iterations, verified, spend)) =>
           && e.pattern == LoopUntilDone && spend == e.log.receipt && verified && !Blank(output)
           && e.maxIterations.Some? && 1 <= iterations <= e.maxIterations.value && calls == 2 * iterations
  }

  lemma EndsAgree(e: Evidence)
    ensures TrueEnd(e) <==> EndOk(e)
  {
    assert "concede" != "refute";
  }

  ghost predicate Sound(e: Evidence) {
    && Described(e) && InBounds(e.log.receipt, e.caps) && (forall c :: c in e.log.receipt.calls ==> InOrder(c))
    && TrueTotals(e.log.receipt) && InPlace(e) && OfMode(e.mode, e.log.receipt) && TrueEnd(e)
  }

  lemma DescribedAgrees(e: Evidence)
    ensures Described(e) <==> TaskIdsOk(e.taskIds) && IterationsOk(e.pattern, e.maxIterations) && e.log.pattern == e.pattern
  {
    assert "" in e.taskIds <==> exists i :: 0 <= i < |e.taskIds| && e.taskIds[i] == "";
  }

  lemma CallsAgree(calls: seq<Call>)
    ensures (forall c :: c in calls ==> InOrder(c)) <==> forall i :: 0 <= i < |calls| ==> CallOk(calls[i])
  {
    forall c ensures InOrder(c) <==> CallOk(c) { CallAgrees(c); }
    if forall c :: c in calls ==> InOrder(c) {
      forall i | 0 <= i < |calls| ensures CallOk(calls[i]) { assert calls[i] in calls; }
    }
  }

  lemma CallAgrees(c: Call)
    ensures InOrder(c) <==> CallOk(c)
  {
    assert "" in c.models <==> exists i :: 0 <= i < |c.models| && c.models[i] == "";
  }

  lemma TotalsAgree(r: Receipt)
    ensures TrueTotals(r) <==> Totals(r)
  {
    hide SortText, Sorting.Distinct, ModelsListed, Total, UsageOf, SumCost, SumPredicted, SumUsage;
    SumsAgree(r.calls);
    ModelsAgree(r.calls, r.models);
  }

  lemma {:induction false} LoopRolesAre(n: nat)
    ensures forall k :: 0 <= k < 2 * n ==> LoopRoles(n)[k] == LoopRole(k)
  {
    if n > 0 { LoopRolesAre(n - 1); }
  }

  lemma LoopPlaces(calls: seq<Call>)
    requires |calls| % 2 == 0
    ensures Roles(calls) == LoopRoles(|calls| / 2) <==> forall k :: 0 <= k < |calls| ==> calls[k].role == LoopRole(k)
  {
    LoopRolesAre(|calls| / 2);
    var roles, expected := Roles(calls), LoopRoles(|calls| / 2);
    if forall k :: 0 <= k < |calls| ==> calls[k].role == LoopRole(k) {
      forall k | 0 <= k < |calls| ensures roles[k] == expected[k] { assert calls[k].role == LoopRole(k); }
    }
  }

  lemma LoopRolesDiffer(calls: seq<Call>)
    requires forall k :: 0 <= k < |calls| ==> calls[k].role == LoopRole(k)
    ensures NoDuplicates(Roles(calls))
  {
    var roles := Roles(calls);
    forall i, j | 0 <= i < j < |roles| ensures roles[i] != roles[j] {
      assert roles[i] == LoopRole(i) && roles[j] == LoopRole(j);
    }
  }

  lemma FanOutPlaces(calls: seq<Call>)
    requires NoDuplicates(Roles(calls))
    ensures FanOutRolesOk(Roles(calls)) <==> |calls| >= 2 && exists s :: 0 <= s < |calls| && SynthesizerAt(calls, s)
  {
    var roles := Roles(calls);
    if FanOutRolesOk(roles) {
      var w :| 0 <= w < |roles| && roles[w].Worker?;
      var s :| 0 <= s < |roles| && roles[s] == Synthesizer && forall j :: 0 <= j < |roles| && j != s ==> roles[j].Worker?;
      forall k | 0 <= k < |calls| && k != s ensures calls[k].role.Worker? { assert roles[k].Worker?; }
      assert SynthesizerAt(calls, s) && w != s;
    }
    if |calls| >= 2 && exists s :: 0 <= s < |calls| && SynthesizerAt(calls, s) {
      var s :| 0 <= s < |calls| && SynthesizerAt(calls, s);
      forall k | 0 <= k < |roles| && k != s ensures roles[k].Worker? { assert calls[k].role.Worker?; }
      assert roles[s] == Synthesizer;
      assert roles[if s == 0 then 1 else 0].Worker?;
    }
  }

  lemma PlacesAgree(e: Evidence)
    requires IterationsOk(e.pattern, e.maxIterations)
    ensures var calls := e.log.receipt.calls;
            InPlace(e) <==> calls != [] && NoDuplicates(Roles(calls)) && RolesOk(e.pattern, Roles(calls), e.maxIterations)
  {
    hide FanOutRolesOk, SynthesizerAt, LoopRole, LoopRoles;
    var calls := e.log.receipt.calls;
    var roles := Roles(calls);
    match e.pattern
    case FanOutSynthesize =>
      if NoDuplicates(roles) {
        FanOutPlaces(calls);
        assert forall i, j :: 0 <= i < j < |calls| ==> roles[i] == calls[i].role && roles[j] == calls[j].role;
      }
      if InPlace(e) {
        forall i, j | 0 <= i < j < |roles| ensures roles[i] != roles[j] { assert calls[i].role != calls[j].role; }
      }
    case AdversarialPattern => assert |calls| == 3 ==> (roles == [Maker, Critic, Judge] <==> roles[0] == Maker && roles[1] == Critic && roles[2] == Judge);
    case LoopUntilDone =>
      if |calls| % 2 == 0 { LoopPlaces(calls); }
      if InPlace(e) { LoopRolesDiffer(calls); }
  }

  lemma ModesAgree(mode: Mode, r: Receipt)
    requires r.cost >= 0.0
    ensures OfMode(mode, r) <==> ModeOk(mode, r)
  {
    if ModeOk(mode, r) {
      forall x | x in r.models ensures mode == Fixture <==> IsFixture(x) {
        var i :| 0 <= i < |r.models| && r.models[i] == x;
      }
    }
    if OfMode(mode, r) {
      forall i | 0 <= i < |r.models| ensures mode == Fixture <==> IsFixture(r.models[i]) { assert r.models[i] in r.models; }
    }
  }

  /** What true totals and calls in order imply about the claimed usage and models. */
  lemma ClaimsInOrder(r: Receipt)
    requires CallsOk(r.calls) && Totals(r)
    ensures UsageOk(r.usage) && ModelsOk(r.models)
  {
    hide SumCost, SumPredicted, SumUsage, SortText, Sorting.Distinct, AllModels, Roles;
    SumsNonNegative(r.calls);
    ReportedModels(r.calls);
    SortTextAgrees(Sorting.Distinct(AllModels(r.calls)), r.models);
    var all := SortText(Sorting.Distinct(AllModels(r.calls)));
    SortTextHolds(r.models);
    assert |all| == |r.models|;
    forall i | 0 <= i < |r.models| ensures r.models[i] != "" {
      assert r.models[i] in r.models;
      assert r.models[i] in all;
    }
  }

  /**
   The checker accepts evidence exactly when its description is complete, the log stays within the caps,
   every call is in order and in its place, the totals are true of the calls, the models and the cost
   are those of its mode, and it ends as it says.
   */
  lemma AcceptedExactlyWhen(e: Evidence)
    ensures ValidEvidence(e) <==> Sound(e)
  {
    hide CallsOk, Totals, TrueTotals, RolesOk, ModeOk, OfMode, EndOk, TrueEnd, InPlace, Described, TaskIdsOk, IterationsOk, Roles;
    var r := e.log.receipt;
    DescribedAgrees(e);
    EndsAgree(e);
    CallsAgree(r.calls);
    TotalsAgree(r);
    if IterationsOk(e.pattern, e.maxIterations) { PlacesAgree(e); }
    CallsMeans(r.calls);
    if r.cost >= 0.0 { ModesAgree(e.mode, r); }
    if CallsOk(r.calls) && Totals(r) { ClaimsInOrder(r); }
  }

  lemma CallsMeans(calls: seq<Call>)
    ensures CallsOk(calls) <==> calls != [] && (forall i :: 0 <= i < |calls| ==> CallOk(calls[i])) && NoDuplicates(Roles(calls))
  {
  }

  // ---- What it refuses ---------------------------------------------------------------------------

  /** The same evidence with another receipt, in the log and in the result. */
  function Relog(e: Evidence, r: Receipt): Evidence {
    e.(log := e.log.(receipt := r),
       result := match e.result
                 case None => None
                 case Some(FanOutR(x)) => Some(FanOutR(x.(spend := r)))
                 case Some(AdversarialR(x)) => Some(AdversarialR(x.(spend := r)))
                 case Some(LoopR(x)) => Some(LoopR(x.(spend := r))))
  }

  /** The calls leave no choice about the totals: two logs of the same calls claim the same, up to rounding. */
  lemma TotalsFollowFromCalls(e: Evidence, f: Evidence)
    requires ValidEvidence(e) && ValidEvidence(f) && e.log.receipt.calls == f.log.receipt.calls
    ensures Abs(e.log.receipt.cost - f.log.receipt.cost) <= 2.0 * TOLERANCE
    ensures e.log.receipt.usage == f.log.receipt.usage
    ensures multiset(e.log.receipt.models) == multiset(f.log.receipt.models)
  {
    hide Total, UsageOf, UsedBy, InPlace, OfMode, TrueEnd, Described, InBounds, ValidEvidence, InOrder;
    AcceptedExactlyWhen(e);
    AcceptedExactlyWhen(f);
    var a, b := e.log.receipt.models, f.log.receipt.models;
    NoDuplicatesCounts(a);
    NoDuplicatesCounts(b);
    assert forall x :: multiset(a)[x] == multiset(b)[x];
  }

  lemma ReplacedTotals(calls: seq<Call>, k: nat, c: Call)
    requires k < |calls|
    ensures Total(calls[k := c], CostOf) == Total(calls, CostOf) - calls[k].cost + c.cost
    ensures AddUsage(UsageOf(calls[k := c]), calls[k].usage) == AddUsage(UsageOf(calls), c.usage)
  {
    hide UsageTotal, Total;
    var a, b := calls[..k], calls[k + 1..];
    assert calls == a + ([calls[k]] + b) && calls[k := c] == a + ([c] + b);
    Amid(a, calls[k], b, CostOf, UsageIn);
    Amid(a, c, b, CostOf, UsageIn);
  }

  /** A call cannot be passed off as another: cost, usage and place have to be those of the call it replaces. */
  lemma AlteredCallIsCaught(e: Evidence, k: nat, c: Call)
    requires ValidEvidence(e) && k < |e.log.receipt.calls|
    requires ValidEvidence(Relog(e, e.log.receipt.(calls := e.log.receipt.calls[k := c])))
    ensures Abs(c.cost - e.log.receipt.calls[k].cost) <= 2.0 * TOLERANCE
    ensures c.usage == e.log.receipt.calls[k].usage
    ensures !e.pattern.FanOutSynthesize? ==> c.role == e.log.receipt.calls[k].role
    ensures c.role == Synthesizer <==> e.log.receipt.calls[k].role == Synthesizer
  {
    hide Total, UsageOf, ModelsListed, OfMode, TrueEnd, Described, InBounds, ValidEvidence, InOrder;
    var calls := e.log.receipt.calls;
    var f := Relog(e, e.log.receipt.(calls := calls[k := c]));
    AcceptedExactlyWhen(e);
    AcceptedExactlyWhen(f);
    ReplacedTotals(calls, k, c);
    if e.pattern == FanOutSynthesize {
      var s :| 0 <= s < |calls| && SynthesizerAt(calls, s);
      var q :| 0 <= q < |calls| && SynthesizerAt(calls[k := c], q);
      assert s != k ==> calls[k := c][s] == calls[s];
      assert q != k ==> calls[k := c][q] == calls[q];
      assert calls[k := c][k] == c;
    }
  }

  lemma DroppedTotals(calls: seq<Call>, k: nat)
    requires k < |calls|
    ensures Total(calls, CostOf) == Total(Without(calls, k), CostOf) + calls[k].cost
    ensures Total(calls, PredictedOf) == Total(Without(calls, k), PredictedOf) + calls[k].predicted
    ensures UsageOf(calls) == AddUsage(UsageOf(Without(calls, k)), calls[k].usage)
  {
    hide UsageTotal, Total;
    var a, b, x := calls[..k], calls[k + 1..], calls[k];
    assert calls == a + ([x] + b);
    Amid(a, x, b, CostOf, UsageIn);
    Amid(a, x, b, PredictedOf, UsageIn);
    TotalSplits(a, b, CostOf);
    TotalSplits(a, b, PredictedOf);
    UsageSplits(a, b, UsageIn);
  }

  /** A worker other than call `k` and the synthesizer are left. */
  ghost predicate SparesWorker(calls: seq<Call>, k: nat) {
    k < |calls| && calls[k].role.Worker? && |calls| >= 3
  }

  /** The models of the dropped call are all used by others. */
  ghost predicate ModelsRemain(calls: seq<Call>, k: nat)
    requires k < |calls|
  {
    forall x :: x in calls[k].models ==> UsedBy(Without(calls, k), x)
  }

  lemma DroppedPlaces(e: Evidence, k: nat)
    requires InPlace(e) && k < |e.log.receipt.calls|
    ensures var calls := e.log.receipt.calls;
            InPlace(Relog(e, e.log.receipt.(calls := Without(calls, k)))) <==> e.pattern.FanOutSynthesize? && SparesWorker(calls, k)
  {
    hide SynthesizerAt;
    var calls := e.log.receipt.calls;
    var rest := Without(calls, k);
    match e.pattern
    case FanOutSynthesize =>
      assert forall i :: 0 <= i < |rest| ==> rest[i] == calls[if i < k then i else i + 1];
      DroppedSynthesizer(calls, k);
    case AdversarialPattern =>
    case LoopUntilDone =>
  }

  lemma DroppedSynthesizer(calls: seq<Call>, k: nat)
    requires k < |calls| && exists s :: 0 <= s < |calls| && SynthesizerAt(calls, s)
    ensures (exists s :: 0 <= s < |Without(calls, k)| && SynthesizerAt(Without(calls, k), s)) <==> calls[k].role.Worker?
  {
    var rest := Without(calls, k);
    assert forall i :: 0 <= i < |rest| ==> rest[i] == calls[if i < k then i else i + 1];
    var s :| 0 <= s < |calls| && SynthesizerAt(calls, s);
    if calls[k].role.Worker? {
      assert SynthesizerAt(rest, if s < k then s else s - 1);
    } else {
      assert s == k && forall q :: 0 <= q < |rest| ==> rest[q].role.Worker?;
    }
  }

  lemma DroppedModels(calls: seq<Call>, models: seq<string>, k: nat)
    requires k < |calls| && ModelsListed(calls, models)
    ensures ModelsListed(Without(calls, k), models) <==> ModelsRemain(calls, k)
  {
    var rest := Without(calls, k);
    assert forall i :: 0 <= i < |rest| ==> rest[i] == calls[if i < k then i else i + 1];
    forall x ensures UsedBy(calls, x) <==> UsedBy(rest, x) || x in calls[k].models {
      if UsedBy(calls, x) {
        var i :| 0 <= i < |calls| && x in calls[i].models;
        if i != k { assert x in rest[if i < k then i else i - 1].models; }
      }
      if UsedBy(rest, x) {
        var i :| 0 <= i < |rest| && x in rest[i].models;
        assert x in calls[if i < k then i else i + 1].models;
      }
    }
  }

  /**
   A call cannot be left out of the log: without it the evidence is accepted exactly if it was one of
   several workers of a fan-out, used no tokens, cost nothing that shows, and used no model of its own.
   */
  lemma DroppedCallIsCaughtUnless(e: Evidence, k: nat)
    requires ValidEvidence(e) && k < |e.log.receipt.calls|
    ensures var r := e.log.receipt;
            ValidEvidence(Relog(e, r.(calls := Without(r.calls, k)))) <==>
              && e.pattern.FanOutSynthesize? && SparesWorker(r.calls, k)
              && r.calls[k].usage == NO_USAGE && Abs(Total(r.calls, CostOf) - r.calls[k].cost - r.cost) <= TOLERANCE
              && ModelsRemain(r.calls, k)
  {
    hide Total, UsageOf, ModelsListed, ModelsRemain, OfMode, Described, InBounds, ValidEvidence, InPlace, SparesWorker, InOrder;
    var r := e.log.receipt;
    var f := Relog(e, r.(calls := Without(r.calls, k)));
    AcceptedExactlyWhen(e);
    AcceptedExactlyWhen(f);
    DroppedTotals(r.calls, k);
    DroppedPlaces(e, k);
    DroppedModels(r.calls, r.models, k);
    assert forall c :: c in Without(r.calls, k) ==> c in r.calls;
    assert r.calls[k] in r.calls;
    DroppedRest(e, f);
    NoUsageAdds(UsageOf(Without(r.calls, k)), r.calls[k].usage, r.usage);
    PredictedIsPositive(r.calls[k]);
    if e.pattern.FanOutSynthesize? { DroppedEnd(e, k); }
  }

  lemma PredictedIsPositive(c: Call)
    requires InOrder(c)
    ensures c.predicted > 0.0
  {
  }

  lemma NoUsageAdds(a: Usage, b: Usage, c: Usage)
    requires c == AddUsage(a, b)
    ensures a == c <==> b == NO_USAGE
  {
  }

  /** Nothing but the calls differs. */
  lemma DroppedRest(e: Evidence, f: Evidence)
    requires f == Relog(e, f.log.receipt) && f.log.receipt == e.log.receipt.(calls := f.log.receipt.calls)
    ensures Described(f) <==> Described(e)
    ensures InBounds(f.log.receipt, f.caps) <==> InBounds(e.log.receipt, e.caps)
    ensures OfMode(f.mode, f.log.receipt) <==> OfMode(e.mode, e.log.receipt)
  {
  }

  lemma DroppedEnd(e: Evidence, k: nat)
    requires TrueEnd(e) && e.pattern.FanOutSynthesize? && k < |e.log.receipt.calls|
    ensures TrueEnd(Relog(e, e.log.receipt.(calls := Without(e.log.receipt.calls, k))))
  {
  }

  /** No role may be filled twice, and no call promised more cheaply than it was. */
  lemma RepeatedOrUnderstatedIsRefused(e: Evidence, i: nat, j: nat)
    requires i < j < |e.log.receipt.calls|
    requires e.log.receipt.calls[i].role == e.log.receipt.calls[j].role
          || Total(e.log.receipt.calls, PredictedOf) > e.log.receipt.predicted + TOLERANCE
    ensures !ValidEvidence(e)
  {
    hide Total, UsageOf, ModelsListed, OfMode, TrueEnd, Described, InBounds, ValidEvidence, InOrder;
    AcceptedExactlyWhen(e);
  }

  /** Evidence cannot be passed off as of the other mode or the other ending. */
  lemma RelabelledIsRefused(e: Evidence, mode: Mode)
    requires ValidEvidence(e)
    ensures mode != e.mode ==> !ValidEvidence(e.(mode := mode))
    ensures !ValidEvidence(e.(expectsIterationCap := !e.expectsIterationCap))
  {
    hide TrueTotals, InPlace, Described, InBounds, ValidEvidence, InOrder;
    AcceptedExactlyWhen(e);
    AcceptedExactlyWhen(e.(mode := mode));
    AcceptedExactlyWhen(e.(expectsIterationCap := !e.expectsIterationCap));
  }
}
