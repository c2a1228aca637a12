/**
 The independent checker of maker-verifier evidence: what it accepts, and the checking loop itself.

 The evidence header (schema version, kind, provider, recording time, task file name and digest) is
 not part of the record; the source task gives its id and rubric.

 Line numbers refer to evals/maker-verifier-evidence.ts.
 */
module MakerVerifierEvidence {
  import opened Basics
  import opened Sorting
  import opened Texts
  import opened Provider
  import opened MakerVerifier

  datatype Evidence = Evidence(
    sourceId: string, sourceRubric: seq<Criterion>, rubric: seq<Criterion>, faultCriterion: Option<string>, trace: Trace)

  const SEEDED := "fixture:seeded-maker-error"

  predicate AllFixture(models: seq<string>) {
    forall i :: 0 <= i < |models| ==> IsFixture(models[i])
  }

  // ---- Receipts ----------------------------------------------------------------------------------

  ghost function ModelCost(us: seq<ModelUsage>): real {
    if us == [] then 0.0 else ModelCost(us[..|us| - 1]) + us[|us| - 1].cost
  }

  ghost function ModelTokens(us: seq<ModelUsage>): Usage {
    if us == [] then NO_USAGE else AddUsage(ModelTokens(us[..|us| - 1]), us[|us| - 1].usage)
  }

  function ModelNames(us: seq<ModelUsage>): (r: seq<string>)
    ensures |r| == |us|
  {
    seq(|us|, i requires 0 <= i < |us| => us[i].model)
  }

  predicate ModelUsageOk(u: ModelUsage) {
    !Blank(u.model) && u.cost >= 0.0 && UsageOk(u.usage)
  }

  /** The parts of a receipt add up to it; only a free fixture may have no parts. */
  ghost predicate PartsOk(r: CallReceipt) {
    if r.modelUsage == [] then AllFixture(r.models) && r.cost == 0.0 && TokenTotal(r.usage) == 0
    else
      && (forall i :: 0 <= i < |r.modelUsage| ==> ModelUsageOk(r.modelUsage[i]))
      && SortText(Sorting.Distinct(ModelNames(r.modelUsage))) == SortText(r.models)
      && Abs(ModelCost(r.modelUsage) - r.cost) <= TOLERANCE
      && ModelTokens(r.modelUsage) == r.usage
  }

  predicate ReceiptHeadOk(r: CallReceipt) {
    && !(r.requested.Other? && Blank(r.requested.name)) && ModelsOk(r.models)
    && !r.refused && r.cost >= 0.0 && r.duration >= 0.0 && UsageOk(r.usage)
  }

  ghost predicate ReceiptOk(r: CallReceipt) { ReceiptHeadOk(r) && PartsOk(r) }

  /** A live call takes time, and no call takes longer than its time stamps allow, give or take two seconds. */
  predicate DurationOk(r: CallReceipt, from: int, to: int) {
    && (!AllFixture(r.models) ==> r.duration > 0.0)
    && r.duration <= (to - from) as real + 2000.0
  }

  // ---- Iterations --------------------------------------------------------------------------------

  predicate EntryOk(r: CriterionResult) { !Blank(r.criterion) && !Blank(r.observed) }

  ghost predicate CriteriaOk(rs: seq<CriterionResult>, rubric: seq<Criterion>) {
    && |rs| == |rubric|
    && (forall i :: 0 <= i < |rs| ==> EntryOk(rs[i]))
    && SortText(Criteria(rs)) == SortText(Ids(rubric))
  }

  predicate AllPass(rs: seq<CriterionResult>) {
    forall i :: 0 <= i < |rs| ==> rs[i].pass
  }

  predicate FailureOk(f: StructuredFailure) {
    !Blank(f.criterion) && !Blank(f.expected) && !Blank(f.observed)
  }

  /** The rubric by id (line 52). */
  function TableOf(rubric: seq<Criterion>): map<string, Criterion> {
    if rubric == [] then map[] else TableOf(rubric[..|rubric| - 1])[rubric[|rubric| - 1].id := rubric[|rubric| - 1]]
  }

  /** `criteria.filter(({ pass }) => !pass)`. */
  function FailedOnly(rs: seq<CriterionResult>): seq<CriterionResult> {
    if rs == [] then [] else (if rs[0].pass then [] else [rs[0]]) + FailedOnly(rs[1..])
  }

  /** Where the table lacks the criterion the source throws; a blank expectation is refused just the same. */
  function Explain(r: CriterionResult, table: map<string, Criterion>): StructuredFailure {
    StructuredFailure(r.criterion, if r.criterion in table then table[r.criterion].expected else "", r.observed)
  }

  /** What the failures should be, derived from the verifier's results alone (182-186). */
  function Derived(rs: seq<CriterionResult>, table: map<string, Criterion>): seq<StructuredFailure> {
    Map((r: CriterionResult) => Explain(r, table), FailedOnly(rs))
  }

  /** The checker's own normalisation (248-262). */
  function Canonical(fs: seq<StructuredFailure>, collate: string -> string): seq<StructuredFailure> {
    var plain := (f: StructuredFailure) => StructuredFailure(Normalize(f.criterion), Normalize(f.expected), Normalize(f.observed));
    Sort((f: StructuredFailure) => collate(f.criterion), Map(plain, fs))
  }

  ghost predicate FailuresOk(fs: seq<StructuredFailure>, rs: seq<CriterionResult>, rubric: seq<Criterion>) {
    (forall i :: 0 <= i < |fs| ==> FailureOk(fs[i])) && fs == Derived(rs, TableOf(rubric))
  }

  ghost predicate IterationOk(it: Iteration, index: nat, previous: int, rubric: seq<Criterion>, collate: string -> string) {
    && it.number == index + 1
    && previous <= it.maker.completedAt <= it.verifier.completedAt
    && !Blank(it.maker.output) && !Blank(it.maker.summary) && OneLine(it.maker.summary)
    && ReceiptOk(it.maker.receipt) && DurationOk(it.maker.receipt, previous, it.maker.completedAt)
    && CriteriaOk(it.verifier.criteria, rubric) && it.verifier.pass == AllPass(it.verifier.criteria)
    && ReceiptOk(it.verifier.receipt) && DurationOk(it.verifier.receipt, it.maker.completedAt, it.verifier.completedAt)
    && FailuresOk(it.failures, it.verifier.criteria, rubric)
    && it.normalized == Canonical(it.failures, collate)
  }

  /** When the iteration before `k` ended, or the run started. */
  function TimeBefore(t: Trace, k: nat): int
    requires k <= |t.iterations|
  {
    if k == 0 then t.startedAt else t.iterations[k - 1].verifier.completedAt
  }

  ghost function TraceCost(its: seq<Iteration>): real {
    if its == [] then 0.0
    else
      var it := its[|its| - 1];
      TraceCost(its[..|its| - 1]) + (it.maker.receipt.cost + it.verifier.receipt.cost)
  }

  ghost function TraceUsage(its: seq<Iteration>): Usage {
    if its == [] then NO_USAGE
    else
      var it := its[|its| - 1];
      AddUsage(AddUsage(TraceUsage(its[..|its| - 1]), it.maker.receipt.usage), it.verifier.receipt.usage)
  }

  ghost predicate SeededSeen(its: seq<Iteration>) {
    exists i :: 0 <= i < |its| && SEEDED in its[i].maker.receipt.models
  }

  // ---- Traces ------------------------------------------------------------------------------------

  predicate HeadOk(e: Evidence) {
    && RubricOk(e.rubric) && e.rubric == e.sourceRubric
    && !Blank(e.trace.taskId) && e.trace.taskId == e.sourceId
    && e.trace.startedAt <= e.trace.completedAt && e.trace.maxIters >= 1
    && 1 <= |e.trace.iterations| <= e.trace.maxIters
  }

  ghost predicate TotalsOk(t: Trace) {
    t.totalCost >= 0.0 && Abs(TraceCost(t.iterations) - t.totalCost) <= TOLERANCE && t.totalUsage == TraceUsage(t.iterations)
  }

  predicate StopOk(t: Trace)
    requires t.iterations != []
  {
    var passed := t.iterations[|t.iterations| - 1].verifier.pass;
    if t.stoppedBy == Verified then passed else !passed && |t.iterations| == t.maxIters
  }

  /** A seeded maker receipt is labelled as a fault injection on a criterion of the rubric, and only then. */
  ghost predicate FaultOk(e: Evidence) {
    if e.faultCriterion.None? then !SeededSeen(e.trace.iterations)
    else !Blank(e.faultCriterion.value) && e.faultCriterion.value in Ids(e.rubric) && SeededSeen(e.trace.iterations)
  }

  /** `collate` is the collation of the locale the checker runs in. */
  ghost predicate ValidEvidence(e: Evidence, collate: string -> string) {
    && HeadOk(e)
    && (forall k :: 0 <= k < |e.trace.iterations| ==> IterationOk(e.trace.iterations[k], k, TimeBefore(e.trace, k), e.rubric, collate))
    && e.trace.iterations[|e.trace.iterations| - 1].verifier.completedAt <= e.trace.completedAt
    && TotalsOk(e.trace) && StopOk(e.trace) && FaultOk(e)
  }

  // ---- The checker -------------------------------------------------------------------------------

  /** `validateReceipt` (191-224): one pass over the per-model usage. */
  method CheckReceipt(r: CallReceipt) returns (ok: bool)
    ensures ok <==> ReceiptOk(r)
  {
    if !ReceiptHeadOk(r) { return false; }
    if r.modelUsage == [] { return AllFixture(r.models) && r.cost == 0.0 && TokenTotal(r.usage) == 0; }
    var cost, tokens := 0.0, NO_USAGE;
    for i := 0 to |r.modelUsage|
      invariant cost == ModelCost(r.modelUsage[..i]) && tokens == ModelTokens(r.modelUsage[..i])
      invariant forall k :: 0 <= k < i ==> ModelUsageOk(r.modelUsage[k])
    {
      var u := r.modelUsage[i];
      if !ModelUsageOk(u) { return false; }
      assert r.modelUsage[..i + 1][..i] == r.modelUsage[..i];
      cost, tokens := cost + u.cost, AddUsage(tokens, u.usage);
    }
    assert r.modelUsage[..|r.modelUsage|] == r.modelUsage;
    ok := SortText(Sorting.Distinct(ModelNames(r.modelUsage))) == SortText(r.models)
       && Abs(cost - r.cost) <= TOLERANCE && tokens == r.usage;
  }

  method CheckCriteria(rs: seq<CriterionResult>, rubric: seq<Criterion>) returns (ok: bool)
    ensures ok <==> CriteriaOk(rs, rubric)
  {
    if |rs| != |rubric| { return false; }
    for i := 0 to |rs|
      invariant forall k :: 0 <= k < i ==> EntryOk(rs[k])
    {
      if !EntryOk(rs[i]) { return false; }
    }
    ok := SortText(Criteria(rs)) == SortText(Ids(rubric));
  }

  /** Line 52. */
  method IndexRubric(rubric: seq<Criterion>) returns (table: map<string, Criterion>)
    ensures table == TableOf(rubric)
  {
    table := map[];
    for i := 0 to |rubric|
      invariant table == TableOf(rubric[..i])
    {
      assert rubric[..i + 1][..i] == rubric[..i];
      table := table[rubric[i].id := rubric[i]];
    }
    assert rubric[..|rubric|] == rubric;
  }

  /** `validateFailures` (167-189). */
  method CheckFailures(fs: seq<StructuredFailure>, rs: seq<CriterionResult>, rubric: seq<Criterion>, table: map<string, Criterion>)
    returns (ok: bool)
    requires table == TableOf(rubric)
    ensures ok <==> FailuresOk(fs, rs, rubric)
  {
    hide Derived;
    for i := 0 to |fs|
      invariant forall k :: 0 <= k < i ==> FailureOk(fs[k])
    {
      if !FailureOk(fs[i]) { return false; }
    }
    ok := fs == Derived(rs, table);
  }

  /** Lines 76-100. */
  method CheckIteration(it: Iteration, index: nat, previous: int, rubric: seq<Criterion>, table: map<string, Criterion>,
                        collate: string -> string) returns (ok: bool)
    requires table == TableOf(rubric)
    ensures ok <==> IterationOk(it, index, previous, rubric, collate)
  {
    hide ReceiptOk, DurationOk, CriteriaOk, FailuresOk, Canonical, AllPass, Blank;
    if it.number != index + 1 || it.maker.completedAt < previous { return false; }
    if Blank(it.maker.output) || Blank(it.maker.summary) || !OneLine(it.maker.summary) { return false; }
    ok := CheckReceipt(it.maker.receipt);
    if !ok || !DurationOk(it.maker.receipt, previous, it.maker.completedAt) { return false; }
    if it.verifier.completedAt < it.maker.completedAt { return false; }
    ok := CheckCriteria(it.verifier.criteria, rubric);
    if !ok || it.verifier.pass != AllPass(it.verifier.criteria) { return false; }
    ok := CheckReceipt(it.verifier.receipt);
    if !ok || !DurationOk(it.verifier.receipt, it.maker.completedAt, it.verifier.completedAt) { return false; }
    ok := CheckFailures(it.failures, it.verifier.criteria, rubric, table);
    if !ok { return false; }
    ok := it.normalized == Canonical(it.failures, collate);
  }

  lemma PushIteration(its: seq<Iteration>, k: nat)
    requires k < |its|
    ensures TraceCost(its[..k + 1]) == TraceCost(its[..k]) + (its[k].maker.receipt.cost + its[k].verifier.receipt.cost)
    ensures TraceUsage(its[..k + 1])
            == AddUsage(AddUsage(TraceUsage(its[..k]), its[k].maker.receipt.usage), its[k].verifier.receipt.usage)
    ensures SeededSeen(its[..k + 1]) <==> SeededSeen(its[..k]) || SEEDED in its[k].maker.receipt.models
  {
    hide AddUsage;
    assert its[..k + 1][..k] == its[..k];
    if SEEDED in its[k].maker.receipt.models { assert its[..k + 1][k] == its[k]; }
    if i :| 0 <= i < k && SEEDED in its[..k][i].maker.receipt.models { assert its[..k + 1][i] == its[..k][i]; }
  }

  lemma NoIterations()
    ensures TraceCost([]) == 0.0 && TraceUsage([]) == NO_USAGE && !SeededSeen([])
  {
  }

  /** Lines 70-105: one pass over the iterations with running totals. */
  method CheckIterations(t: Trace, rubric: seq<Criterion>, collate: string -> string)
    returns (ok: bool, cost: real, usage: Usage, previous: int, seeded: bool)
    ensures ok <==> forall k :: 0 <= k < |t.iterations| ==> IterationOk(t.iterations[k], k, TimeBefore(t, k), rubric, collate)
    ensures ok ==> cost == TraceCost(t.iterations) && usage == TraceUsage(t.iterations)
    ensures ok ==> previous == TimeBefore(t, |t.iterations|) && (seeded <==> SeededSeen(t.iterations))
  {
    hide IterationOk, AddUsage, TraceCost, TraceUsage, SeededSeen;
    NoIterations();
    var table := IndexRubric(rubric);
    var its := t.iterations;
    cost, usage, previous, seeded := 0.0, NO_USAGE, t.startedAt, false;
    for k := 0 to |its|
      invariant previous == TimeBefore(t, k)
      invariant cost == TraceCost(its[..k]) && usage == TraceUsage(its[..k])
      invariant seeded <==> SeededSeen(its[..k])
      invariant forall i :: 0 <= i < k ==> IterationOk(its[i], i, TimeBefore(t, i), rubric, collate)
    {
      var it := its[k];
      ok := CheckIteration(it, k, previous, rubric, table, collate);
      if !ok { return; }
      PushIteration(its, k);
      previous := it.verifier.completedAt;
      cost := cost + (it.maker.receipt.cost + it.verifier.receipt.cost);
      usage := AddUsage(AddUsage(usage, it.maker.receipt.usage), it.verifier.receipt.usage);
      seeded := seeded || SEEDED in it.maker.receipt.models;
    }
    assert its[..|its|] == its;
    ok := true;
  }

  /** `assertMakerVerifierEvidence` (46-129): accepts exactly the valid evidence. */
  method CheckEvidence(e: Evidence, collate: string -> string) returns (accepted: bool)
    ensures accepted <==> ValidEvidence(e, collate)
  {
    hide IterationOk, RubricOk, Abs, StopOk, Ids, TraceCost, TraceUsage, SeededSeen, Blank;
    if !HeadOk(e) { return false; }
    var ok, cost, usage, previous, seeded := CheckIterations(e.trace, e.rubric, collate);
    if !ok { return false; }
    if previous > e.trace.completedAt { return false; }
    if e.trace.totalCost < 0.0 || Abs(cost - e.trace.totalCost) > TOLERANCE || e.trace.totalUsage != usage { return false; }
    if !StopOk(e.trace) { return false; }
    if e.faultCriterion.None? { return !seeded; }
    accepted := !Blank(e.faultCriterion.value) && e.faultCriterion.value in Ids(e.rubric) && seeded;
  }
}
