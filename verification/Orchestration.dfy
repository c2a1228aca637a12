/**
 Metered orchestration: the run meter and the three patterns that call models through it.

 Every run is a value: the outcome of the promise and the meter it leaves.  Provider replies, the
 order in which concurrent workers finish and the clock readings are parameters.
 */
module Orchestration {
  import opened Basics
  import opened Routing
  import opened Cost
  import opened Sorting
  import opened Texts
  import opened Provider

  datatype Plan = Plan(model: ModelId, inputTokens: int, outputTokens: int)
  datatype Caps = Caps(maxTokens: int, maxWallClockMs: int, maxSpendUsd: real)
  datatype Pattern = FanOutSynthesize | AdversarialPattern | LoopUntilDone

  /** The role texts `worker:<id>`, `synthesizer`, `maker`, `critic`, `judge`, `maker:<n>`, `verifier:<n>`. */
  datatype Role = Worker(id: string) | Synthesizer | Maker | Critic | Judge | LoopMaker(n: nat) | LoopVerifier(n: nat)

  datatype Call = Call(role: Role, requested: ModelId, models: seq<string>, predicted: real, cost: real, usage: Usage)
  datatype Receipt = Receipt(predicted: real, cost: real, elapsed: int, usage: Usage, models: seq<string>, calls: seq<Call>)

  datatype Code = InvalidInputCode | IterationCapCode | MalformedCode | RefusalCode | SpendCode | TokenCode | ClockCode | ProviderCode

  /** What may be thrown, one constructor per place that throws. */
  datatype Failure =
    | InvalidInput | Unpriced
    | PredictedSpend
    | TokensExhausted | SpendExhausted | ClockExhausted | NoBudget
    | ProviderError | Malformed | Refused
    | SpendExceeded | TokensExceeded | ClockExceeded
    | IterationCap

  function CodeOf(f: Failure): Code {
    match f
    case InvalidInput => InvalidInputCode
    case Unpriced => ProviderCode
    case PredictedSpend => SpendCode
    case TokensExhausted => TokenCode
    case SpendExhausted => SpendCode
    case ClockExhausted => ClockCode
    case NoBudget => SpendCode
    case ProviderError => ProviderCode
    case Malformed => MalformedCode
    case Refused => RefusalCode
    case SpendExceeded => SpendCode
    case TokensExceeded => TokenCode
    case ClockExceeded => ClockCode
    case IterationCap => IterationCapCode
  }

  datatype Status = Completed | Failed(code: Code)
  datatype Entry = Entry(pattern: Pattern, receipt: Receipt, status: Status)
  datatype Outcome<+T> = Done(value: T) | Threw(failure: Failure)

  // ---- The meter ---------------------------------------------------------------------------------

  datatype Env = Env(pattern: Pattern, predicted: real, caps: Caps, date: Date, clock: nat -> int)

  /** `budgets` remembers, for each recorded call, the budget it was given. */
  datatype Meter = Meter(
    started: int, ticks: nat, calls: seq<Call>, usage: Usage, cost: real, log: seq<Entry>, budgets: seq<real>)

  function NewMeter(env: Env): Meter {
    Meter(env.clock(0), 1, [], NO_USAGE, 0.0, [], [])
  }

  function AllModels(calls: seq<Call>): seq<string> {
    if calls == [] then [] else AllModels(calls[..|calls| - 1]) + calls[|calls| - 1].models
  }

  function Tick(m: Meter): Meter { m.(ticks := m.ticks + 1) }

  /** `receipt()`, which reads the clock once. */
  function ReceiptOf(env: Env, m: Meter): Receipt {
    var elapsed := env.clock(m.ticks) - m.started;
    Receipt(env.predicted, m.cost, if elapsed < 0 then 0 else elapsed, m.usage,
            SortText(Sorting.Distinct(AllModels(m.calls))), m.calls)
  }

  function OverCaps(caps: Caps, r: Receipt): Option<Failure> {
    if r.cost > caps.maxSpendUsd then Some(SpendExceeded)
    else if TokenTotal(r.usage) > caps.maxTokens then Some(TokensExceeded)
    else if r.elapsed > caps.maxWallClockMs then Some(ClockExceeded)
    else None
  }

  datatype Begun = Begun(budget: real) | Denied(failure: Failure)

  /** `invoke` up to the provider call. */
  function Begin(env: Env, m: Meter, share: Option<real>): (Meter, Begun) {
    if TokenTotal(m.usage) >= env.caps.maxTokens then (m, Denied(TokensExhausted))
    else if m.cost >= env.caps.maxSpendUsd then (m, Denied(SpendExhausted))
    else if env.clock(m.ticks) - m.started >= env.caps.maxWallClockMs then (Tick(m), Denied(ClockExhausted))
    else
      var remaining := env.caps.maxSpendUsd - m.cost;
      var budget := if share.Some? && share.value < remaining then share.value else remaining;
      (Tick(Tick(m)), if budget > 0.0 then Begun(budget) else Denied(NoBudget))
  }

  predicate CompletionOk(c: Completion, model: ModelId) {
    c.requested == model && ModelsOk(c.models) && c.cost >= 0.0 && c.duration >= 0.0 && UsageOk(c.usage) && !c.text.EmptyText?
  }

  function Predicted(plan: Plan, date: Date): Option<real> {
    EstimateCost(plan.model, plan.inputTokens, plan.outputTokens, date)
  }

  function Record(env: Env, m: Meter, role: Role, plan: Plan, budget: real, c: Completion): Meter {
    var predicted := Predicted(plan, env.date);
    m.(calls := m.calls + [Call(role, plan.model, c.models, if predicted.Some? then predicted.value else 0.0, c.cost, c.usage)],
       cost := m.cost + c.cost,
       usage := AddUsage(m.usage, c.usage),
       budgets := m.budgets + [budget])
  }

  /** `invoke` after the provider call. */
  function Finish(env: Env, m: Meter, role: Role, plan: Plan, budget: real, reply: Reply): (Meter, Option<Failure>) {
    if reply.Rejects? then (m, Some(ProviderError))
    else
      var c := reply.completion;
      if !CompletionOk(c, plan.model) then (m, Some(Malformed))
      else
        var r := Record(env, m, role, plan, budget, c);
        if c.refused || c.stopReason == Some("refusal") then (r, Some(Refused))
        else (Tick(r), OverCaps(env.caps, ReceiptOf(env, r)))
  }

  /** A whole `invoke` with nothing in between. */
  function Invoke(env: Env, m: Meter, role: Role, plan: Plan, reply: Reply): (Meter, Option<Failure>) {
    var (b, begun) := Begin(env, m, None);
    match begun
    case Denied(f) => (b, Some(f))
    case Begun(budget) => Finish(env, b, role, plan, budget, reply)
  }

  function Emit(env: Env, m: Meter, status: Status): Meter {
    Tick(m).(log := m.log + [Entry(env.pattern, ReceiptOf(env, m), status)])
  }

  /** `complete()`: the failed check has read the clock too. */
  function Complete(env: Env, m: Meter): (Meter, Outcome<Receipt>) {
    match OverCaps(env.caps, ReceiptOf(env, m))
    case Some(f) => (Tick(m), Threw(f))
    case None => (Emit(env, m, Completed), Done(ReceiptOf(env, m)))
  }

  /** `fail()`: nothing once an entry was written. */
  function Fail(env: Env, m: Meter, f: Failure): Meter {
    if m.log != [] then m else Emit(env, m, Failed(CodeOf(f)))
  }

  /** A finished run; there is no meter when the input was refused. */
  datatype Run<+T> = Run(outcome: Outcome<T>, meter: Option<Meter>)

  function Failing<T>(env: Env, m: Meter, f: Failure): Run<T> {
    Run(Threw(f), Some(Fail(env, m, f)))
  }

  // ---- Input checks ------------------------------------------------------------------------------

  predicate Bounded(s: string, max: nat) {
    0 < |s| <= max && !IsSpace(s[0]) && !IsSpace(s[|s| - 1])
  }

  predicate IsKebab(s: string) {
    && s != [] && s[0] != '-' && s[|s| - 1] != '-'
    && (forall i :: 0 <= i < |s| ==> 'a' <= s[i] <= 'z' || '0' <= s[i] <= '9' || s[i] == '-')
    && (forall i :: 0 < i < |s| ==> !(s[i - 1] == '-' && s[i] == '-'))
  }

  predicate CapsOk(caps: Caps) {
    caps.maxTokens > 0 && caps.maxWallClockMs > 0 && caps.maxSpendUsd > 0.0
  }

  predicate PlanOk(plan: Plan) { plan.inputTokens > 0 && plan.outputTokens > 0 }

  datatype Subtask = Subtask(id: string, input: string)

  predicate SubtasksOk(ts: seq<Subtask>) {
    && 1 <= |ts| <= 32
    && (forall i :: 0 <= i < |ts| ==> Bounded(ts[i].id, 100) && IsKebab(ts[i].id) && Bounded(ts[i].input, 10_000))
    && (forall i, j :: 0 <= i < j < |ts| ==> ts[i].id != ts[j].id)
  }

  predicate RubricOk(rubric: seq<Criterion>) {
    && 1 <= |rubric| <= 20
    && (forall i :: 0 <= i < |rubric| ==>
          Bounded(rubric[i].id, 100) && IsKebab(rubric[i].id) && Bounded(rubric[i].description, 1_000)
          && Bounded(rubric[i].expected, 1_000))
    && (forall i, j :: 0 <= i < j < |rubric| ==> rubric[i].id != rubric[j].id)
  }

  function ProportionalBudget(predicted: real, total: real, cap: real): real {
    if total == 0.0 then cap else predicted / total * cap
  }

  // ---- Fan-out and synthesis ---------------------------------------------------------------------

  datatype Conflict = Conflict(left: string, right: string, resolution: string)
  datatype Barrier = Barrier(criterionId: string, justification: string)
  datatype Synthesis = Synthesis(output: string, claims: seq<string>, conflicts: seq<Conflict>, rubric: seq<Barrier>)
  datatype WorkerOutput = WorkerOutput(id: string, output: string)
  datatype FanOutResult = FanOutResult(workers: seq<WorkerOutput>, synthesis: Synthesis, spend: Receipt)

  const BARRIER_IDS := ["deduplicate", "resolve-conflicts", "preserve-coverage"]

  function ReadText(j: Json): Option<string> {
    if j.JText? && !Blank(j.text) then Some(j.text) else None
  }

  function ReadBarrier(j: Json): Option<Barrier> {
    var o := ExactFields(j, {"criterionId", "pass", "justification"});
    if o.None? || o.value["pass"] != JBool(true) then None
    else
      var id, why := RequiredText(o.value, "criterionId"), RequiredText(o.value, "justification");
      if id.None? || why.None? then None else Some(Barrier(id.value, why.value))
  }

  function ReadConflict(j: Json): Option<Conflict> {
    var o := ExactFields(j, {"left", "right", "resolution"});
    if o.None? then None
    else
      var l, r, x := RequiredText(o.value, "left"), RequiredText(o.value, "right"), RequiredText(o.value, "resolution");
      if l.None? || r.None? || x.None? then None else Some(Conflict(l.value, r.value, x.value))
  }

  function ReadList<T>(fields: map<string, Json>, key: string, read: Json -> Option<T>): Option<seq<T>> {
    if key in fields && fields[key].JList? then ReadAll(fields[key].items, read) else None
  }

  function Ids(rubric: seq<Barrier>): seq<string> {
    seq(|rubric|, i requires 0 <= i < |rubric| => rubric[i].criterionId)
  }

  function ParseSynthesis(t: Text): Option<Synthesis> {
    var o := ExactObject(t, {"output", "deduplicatedClaims", "conflicts", "rubric"});
    if o.None? then None
    else
      var rubric := ReadList(o.value, "rubric", ReadBarrier);
      var conflicts := ReadList(o.value, "conflicts", ReadConflict);
      var claims := ReadList(o.value, "deduplicatedClaims", ReadText);
      var output := RequiredText(o.value, "output");
      if rubric.None? || conflicts.None? || claims.None? || output.None? then None
      else if SortText(Ids(rubric.value)) != SortText(BARRIER_IDS) then None
      else Some(Synthesis(output.value, claims.value, conflicts.value, rubric.value))
  }

  /** The single text field of a worker's or maker's answer. */
  function ParseOutput(t: Text, key: string): (r: Option<string>)
    ensures r.Some? ==> !Blank(r.value)
  {
    var o := ExactObject(t, {key});
    if o.None? then None else RequiredText(o.value, key)
  }

  /** All workers reach their provider call before any of them resumes. */
  function BeginWorkers(env: Env, m: Meter, n: nat, budget: real): (r: (Meter, seq<Begun>))
    ensures |r.1| == n
  {
    if n == 0 then (m, [])
    else
      var (before, begun) := BeginWorkers(env, m, n - 1, budget);
      var (after, b) := Begin(env, before, Some(budget));
      (after, begun + [b])
  }

  datatype Settlement = Pending | Fulfilled(output: string) | Rejected(failure: Failure)

  function Settlements(begun: seq<Begun>): (r: seq<Settlement>)
    ensures |r| == |begun|
  {
    seq(|begun|, i requires 0 <= i < |begun| => if begun[i].Begun? then Pending else Rejected(begun[i].failure))
  }

  /** Worker `i` resumes with its reply. */
  function Settle(env: Env, m: Meter, task: Subtask, plan: Plan, begun: Begun, reply: Reply): (Meter, Settlement) {
    match begun
    case Denied(f) => (m, Rejected(f))
    case Begun(budget) =>
      var (after, failure) := Finish(env, m, Worker(task.id), plan, budget, reply);
      if failure.Some? then (after, Rejected(failure.value))
      else
        var output := ParseOutput(reply.completion.text, "output");
        (after, if output.None? then Rejected(Malformed) else Fulfilled(output.value))
  }

  /** `Promise.allSettled`: the workers resume in the order given, and all of them do. */
  function SettleWorkers(env: Env, m: Meter, tasks: seq<Subtask>, plan: Plan, begun: seq<Begun>, replies: seq<Reply>,
                         order: seq<nat>): (r: (Meter, seq<Settlement>))
    requires |tasks| == |begun| == |replies| && forall k :: 0 <= k < |order| ==> order[k] < |tasks|
    ensures |r.1| == |begun|
  {
    if order == [] then (m, Settlements(begun))
    else
      var (before, settled) := SettleWorkers(env, m, tasks, plan, begun, replies, order[..|order| - 1]);
      var i := order[|order| - 1];
      var (after, s) := Settle(env, before, tasks[i], plan, begun[i], replies[i]);
      (after, settled[i := s])
  }

  function FirstRejected(settled: seq<Settlement>): Option<Failure> {
    if settled == [] then None else if settled[0].Rejected? then Some(settled[0].failure) else FirstRejected(settled[1..])
  }

  function Outputs(tasks: seq<Subtask>, settled: seq<Settlement>): seq<WorkerOutput>
    requires |tasks| == |settled|
  {
    seq(|tasks|, i requires 0 <= i < |tasks| =>
      WorkerOutput(tasks[i].id, if settled[i].Fulfilled? then settled[i].output else ""))
  }

  ghost predicate IsOrder(order: seq<nat>, n: nat) {
    |order| == n && (forall k :: 0 <= k < n ==> order[k] < n) && NoDuplicates(order)
  }

  /** The workers' part of a fan-out: begin all, then let all settle. */
  function Workers(env: Env, tasks: seq<Subtask>, plan: Plan, budget: real, replies: seq<Reply>, order: seq<nat>)
    : (r: (Meter, seq<Settlement>))
    requires |tasks| == |replies| && forall k :: 0 <= k < |order| ==> order[k] < |tasks|
    ensures |r.1| == |tasks|
  {
    var (m, begun) := BeginWorkers(env, NewMeter(env), |tasks|, budget);
    SettleWorkers(env, m, tasks, plan, begun, replies, order)
  }

  function FanOutEnv(n: nat, worker: real, synthesis: real, caps: Caps, date: Date, clock: nat -> int): Env {
    Env(FanOutSynthesize, worker * n as real + synthesis, caps, date, clock)
  }

  function FanOut(tasks: seq<Subtask>, worker: Plan, synthesizer: Plan, caps: Caps, date: Date, clock: nat -> int,
                  replies: seq<Reply>, order: seq<nat>, last: Reply): Run<FanOutResult>
    requires |tasks| == |replies| && forall k :: 0 <= k < |order| ==> order[k] < |tasks|
  {
    if !SubtasksOk(tasks) || !CapsOk(caps) || !PlanOk(worker) || !PlanOk(synthesizer) then Run(Threw(InvalidInput), None)
    else
      var w, s := Predicted(worker, date), Predicted(synthesizer, date);
      if w.None? || s.None? then Run(Threw(Unpriced), None)
      else
        var env := FanOutEnv(|tasks|, w.value, s.value, caps, date, clock);
        if env.predicted > caps.maxSpendUsd then Failing(env, NewMeter(env), PredictedSpend)
        else
          var budget := ProportionalBudget(w.value, env.predicted, caps.maxSpendUsd);
          var (m, settled) := Workers(env, tasks, worker, budget, replies, order);
          var rejected := FirstRejected(settled);
          if rejected.Some? then Failing(env, m, rejected.value)
          else Synthesize(env, m, synthesizer, last, Outputs(tasks, settled))
  }

  function Synthesize(env: Env, m: Meter, plan: Plan, reply: Reply, outputs: seq<WorkerOutput>): Run<FanOutResult> {
    var (after, failure) := Invoke(env, m, Synthesizer, plan, reply);
    if failure.Some? then Failing(env, after, failure.value)
    else
      var synthesis := ParseSynthesis(reply.completion.text);
      if synthesis.None? then Failing(env, after, Malformed)
      else
        var (done, spend) := Complete(env, after);
        if spend.Threw? then Failing(env, done, spend.failure)
        else Run(Done(FanOutResult(outputs, synthesis.value, spend.value)), Some(done))
  }

  // ---- Adversarial -------------------------------------------------------------------------------

  datatype AdversarialResult = AdversarialResult(
    makerOutput: string, position: string, refutation: string, verdict: string, output: string, justification: string,
    spend: Receipt)

  datatype Criticism = Criticism(position: string, refutation: string)
  datatype Judgement = Judgement(verdict: string, output: Option<string>, justification: Option<string>)

  function ParseCriticism(t: Text): (r: Option<Criticism>)
    ensures r.Some? ==> r.value.position in {"refute", "concede"} && !Blank(r.value.refutation)
  {
    var o := ExactObject(t, {"position", "refutation"});
    if o.None? then None
    else
      var position, refutation := RequiredText(o.value, "position"), RequiredText(o.value, "refutation");
      if position.None? || position.value !in {"refute", "concede"} || refutation.None? then None
      else Some(Criticism(position.value, refutation.value))
  }

  /** The judge's object; its two texts are only looked at after the run was completed. */
  function ParseJudgement(t: Text, position: string): (r: Option<Judgement>)
    ensures r.Some? ==> r.value.verdict in {"maker", "critic", "mixed"} && !(position == "concede" && r.value.verdict == "critic")
    ensures r.Some? && r.value.output.Some? ==> !Blank(r.value.output.value)
    ensures r.Some? && r.value.justification.Some? ==> !Blank(r.value.justification.value)
  {
    var o := ExactObject(t, {"verdict", "output", "justification"});
    if o.None? then None
    else
      var verdict := RequiredText(o.value, "verdict");
      if verdict.None? || verdict.value !in {"maker", "critic", "mixed"} then None
      else if position == "concede" && verdict.value == "critic" then None
      else Some(Judgement(verdict.value, RequiredText(o.value, "output"), RequiredText(o.value, "justification")))
  }

  function Adversarial(task: string, maker: Plan, critic: Plan, judge: Plan, caps: Caps, date: Date, clock: nat -> int,
                       made: Reply, criticized: Reply, judged: Reply): Run<AdversarialResult> {
    if !Bounded(task, 20_000) || !CapsOk(caps) || !PlanOk(maker) || !PlanOk(critic) || !PlanOk(judge)
    then Run(Threw(InvalidInput), None)
    else
      var a, b, c := Predicted(maker, date), Predicted(critic, date), Predicted(judge, date);
      if a.None? || b.None? || c.None? then Run(Threw(Unpriced), None)
      else
        var env := Env(AdversarialPattern, a.value + b.value + c.value, caps, date, clock);
        if env.predicted > caps.maxSpendUsd then Failing(env, NewMeter(env), PredictedSpend)
        else MakerTurn(env, NewMeter(env), maker, critic, judge, made, criticized, judged)
  }

  function MakerTurn(env: Env, m: Meter, maker: Plan, critic: Plan, judge: Plan, made: Reply, criticized: Reply, judged: Reply)
    : Run<AdversarialResult>
  {
    var (after, failure) := Invoke(env, m, Maker, maker, made);
    if failure.Some? then Failing(env, after, failure.value)
    else
      var output := ParseOutput(made.completion.text, "output");
      if output.None? then Failing(env, after, Malformed)
      else CriticTurn(env, after, critic, judge, criticized, judged, output.value)
  }

  function CriticTurn(env: Env, m: Meter, critic: Plan, judge: Plan, criticized: Reply, judged: Reply, made: string)
    : Run<AdversarialResult>
  {
    var (after, failure) := Invoke(env, m, Critic, critic, criticized);
    if failure.Some? then Failing(env, after, failure.value)
    else
      var criticism := ParseCriticism(criticized.completion.text);
      if criticism.None? then Failing(env, after, Malformed)
      else JudgeTurn(env, after, judge, judged, made, criticism.value)
  }

  function JudgeTurn(env: Env, m: Meter, judge: Plan, judged: Reply, made: string, criticism: Criticism): Run<AdversarialResult> {
    var (after, failure) := Invoke(env, m, Judge, judge, judged);
    if failure.Some? then Failing(env, after, failure.value)
    else
      var judgement := ParseJudgement(judged.completion.text, criticism.position);
      if judgement.None? then Failing(env, after, Malformed)
      else
        var (done, spend) := Complete(env, after);
        if spend.Threw? then Failing(env, done, spend.failure)
        else if judgement.value.output.None? || judgement.value.justification.None? then Failing(env, done, Malformed)
        else
          Run(Done(AdversarialResult(made, criticism.position, criticism.refutation, judgement.value.verdict,
                                     judgement.value.output.value, judgement.value.justification.value, spend.value)),
              Some(done))
  }

  // ---- Loop until done ---------------------------------------------------------------------------

  datatype Verification = Verification(pass: bool, failures: seq<StructuredFailure>)
  datatype LoopResult = LoopResult(output: string, iterations: nat, verified: bool, spend: Receipt)

  function ReadFailure(j: Json): Option<StructuredFailure> {
    var o := ExactFields(j, {"criterion", "expected", "observed"});
    if o.None? then None
    else
      var c, e, x := RequiredText(o.value, "criterion"), RequiredText(o.value, "expected"), RequiredText(o.value, "observed");
      if c.None? || e.None? || x.None? then None else Some(StructuredFailure(c.value, e.value, x.value))
  }

  function ParseVerification(t: Text): Option<Verification> {
    var o := ExactObject(t, {"pass", "failures"});
    if o.None? || !o.value["pass"].JBool? then None
    else
      var pass, failures := o.value["pass"].flag, ReadList(o.value, "failures", ReadFailure);
      if failures.None? || (pass && failures.value != []) || (!pass && failures.value == []) then None
      else Some(Verification(pass, failures.value))
  }

  /** Each failure quotes a criterion of the rubric with its expected value, and none twice. */
  ghost predicate FailuresOk(failures: seq<StructuredFailure>, rubric: seq<Criterion>) {
    && (forall i :: 0 <= i < |failures| ==> Quotes(failures[i], rubric))
    && (forall i, j :: 0 <= i < j < |failures| ==> failures[i].criterion != failures[j].criterion)
  }

  predicate Quotes(f: StructuredFailure, rubric: seq<Criterion>) {
    exists i :: 0 <= i < |rubric| && rubric[i].id == f.criterion && rubric[i].expected == f.expected
  }

  function LoopEnv(max: nat, maker: real, verifier: real, caps: Caps, date: Date, clock: nat -> int): (env: Env)
    ensures env.caps == caps && env.date == date
  {
    Env(LoopUntilDone, (maker + verifier) * max as real, caps, date, clock)
  }

  ghost function Loop(task: string, rubric: seq<Criterion>, maker: Plan, verifier: Plan, caps: Caps, maxIterations: int, date: Date,
                      clock: nat -> int, replies: nat -> Reply): Run<LoopResult> {
    if !Bounded(task, 20_000) || !CapsOk(caps) || maxIterations <= 0 || !PlanOk(maker) || !PlanOk(verifier) || !RubricOk(rubric)
    then Run(Threw(InvalidInput), None)
    else
      var a, b := Predicted(maker, date), Predicted(verifier, date);
      if a.None? || b.None? then Run(Threw(Unpriced), None)
      else
        var env := LoopEnv(maxIterations, a.value, b.value, caps, date, clock);
        if env.predicted > caps.maxSpendUsd then Failing(env, NewMeter(env), PredictedSpend)
        else Iterate(env, NewMeter(env), rubric, maker, verifier, maxIterations, 1, replies)
  }

  /** Iterations `i` to the last. */
  ghost function Iterate(env: Env, m: Meter, rubric: seq<Criterion>, maker: Plan, verifier: Plan, max: nat, i: nat,
                         replies: nat -> Reply): Run<LoopResult>
    requires 1 <= i <= max + 1
    decreases max + 1 - i
  {
    if i > max then Failing(env, m, IterationCap)
    else
      match Iteration(env, m, rubric, maker, verifier, i, replies(2 * i - 2), replies(2 * i - 1))
      case Stop(run) => run
      case Again(after) => Iterate(env, after, rubric, maker, verifier, max, i + 1, replies)
  }

  datatype Turn = Stop(run: Run<LoopResult>) | Again(meter: Meter)

  ghost function Iteration(env: Env, m: Meter, rubric: seq<Criterion>, maker: Plan, verifier: Plan, i: nat, made: Reply,
                           verified: Reply): Turn {
    var (b, failure) := Invoke(env, m, LoopMaker(i), maker, made);
    if failure.Some? then Stop(Failing(env, b, failure.value))
    else
      var candidate := ParseOutput(made.completion.text, "candidate");
      if candidate.None? then Stop(Failing(env, b, Malformed))
      else
        var (c, failed) := Invoke(env, b, LoopVerifier(i), verifier, verified);
        if failed.Some? then Stop(Failing(env, c, failed.value))
        else
          var v := ParseVerification(verified.completion.text);
          if v.None? then Stop(Failing(env, c, Malformed))
          else if v.value.pass then
            var (done, spend) := Complete(env, c);
            if spend.Threw? then Stop(Failing(env, done, spend.failure))
            else Stop(Run(Done(LoopResult(candidate.value, i, true, spend.value)), Some(done)))
          else if !FailuresOk(v.value.failures, rubric) then Stop(Failing(env, c, Malformed))
          else Again(c)
  }
}
