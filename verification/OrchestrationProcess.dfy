/**
 The run meter as the object it is, and the three patterns as the loops they are, each proved to
 produce exactly the run of `Orchestration`.

 Line numbers refer to harness/orchestration-patterns.ts.
 */
module OrchestrationProcess {
  import opened Basics
  import opened Cost
  import opened Sorting
  import opened Provider
  import opened Orchestration

  class RunMeter {
    const env: Env
    const started: int
    var ticks: nat
    var calls: seq<Call>
    var usage: Usage
    var cost: real
    var emitted: bool
    var log: seq<Entry>
    var budgets: seq<real>

    ghost predicate Valid()
      reads this
    {
      emitted <==> log != []
    }

    function View(): Meter
      reads this
    {
      Meter(started, ticks, calls, usage, cost, log, budgets)
    }

    constructor (env: Env)
      ensures Valid() && this.env == env && View() == NewMeter(env)
    {
      this.env := env;
      started := env.clock(0);
      ticks, calls, usage, cost, emitted, log, budgets := 1, [], NO_USAGE, 0.0, false, [], [];
    }

    method Now() returns (t: int)
      requires Valid()
      modifies this`ticks
      ensures Valid() && View() == Tick(old(View())) && t == env.clock(old(ticks))
    {
      t := env.clock(ticks);
      ticks := ticks + 1;
    }

    /** `receipt()` (469-478): the models are gathered call by call. */
    method TakeReceipt() returns (r: Receipt)
      requires Valid()
      modifies this`ticks
      ensures Valid() && View() == Tick(old(View())) && r == ReceiptOf(env, old(View()))
    {
      hide SortText, Sorting.Distinct;
      var models: seq<string> := [];
      for i := 0 to |calls|
        invariant models == AllModels(calls[..i])
      {
        assert calls[..i + 1][..i] == calls[..i];
        models := models + calls[i].models;
      }
      assert calls[..|calls|] == calls;
      var now := Now();
      var elapsed := now - started;
      r := Receipt(env.predicted, cost, if elapsed < 0 then 0 else elapsed, usage, SortText(Sorting.Distinct(models)), calls);
    }

    /** `invoke` (386-392), before the await. */
    method BeginCall(share: Option<real>) returns (begun: Begun)
      requires Valid()
      modifies this`ticks
      ensures Valid() && (View(), begun) == Begin(env, old(View()), share)
    {
      if TokenTotal(usage) >= env.caps.maxTokens { return Denied(TokensExhausted); }
      if cost >= env.caps.maxSpendUsd { return Denied(SpendExhausted); }
      var now := Now();
      if now - started >= env.caps.maxWallClockMs { return Denied(ClockExhausted); }
      now := Now();
      var remaining := env.caps.maxSpendUsd - cost;
      var budget := if share.Some? && share.value < remaining then share.value else remaining;
      if budget <= 0.0 { return Denied(NoBudget); }
      return Begun(budget);
    }

    /** `invoke` (403-421), after the await. */
    method FinishCall(role: Role, plan: Plan, budget: real, reply: Reply) returns (failure: Option<Failure>)
      requires Valid()
      modifies this
      ensures Valid() && (View(), failure) == Finish(env, old(View()), role, plan, budget, reply)
    {
      hide Predicted, ReceiptOf, CompletionOk;
      if reply.Rejects? { return Some(ProviderError); }
      var c := reply.completion;
      if !CompletionOk(c, plan.model) { return Some(Malformed); }
      var predicted := Predicted(plan, env.date);
      calls := calls + [Call(role, plan.model, c.models, if predicted.Some? then predicted.value else 0.0, c.cost, c.usage)];
      cost := cost + c.cost;
      usage := AddUsage(usage, c.usage);
      budgets := budgets + [budget];
      if c.refused || c.stopReason == Some("refusal") { return Some(Refused); }
      var r := TakeReceipt();
      failure := OverCaps(env.caps, r);
    }

    method InvokeModel(role: Role, plan: Plan, reply: Reply) returns (failure: Option<Failure>)
      requires Valid()
      modifies this
      ensures Valid() && (View(), failure) == Invoke(env, old(View()), role, plan, reply)
    {
      hide Begin, Finish;
      var begun := BeginCall(None);
      if begun.Denied? { return Some(begun.failure); }
      failure := FinishCall(role, plan, begun.budget, reply);
    }

    /** `complete()` (424-429). */
    method CompleteRun() returns (spend: Outcome<Receipt>)
      requires Valid()
      modifies this
      ensures Valid() && (View(), spend) == Complete(env, old(View()))
    {
      hide ReceiptOf;
      var r := TakeReceipt();
      var over := OverCaps(env.caps, r);
      if over.Some? { return Threw(over.value); }
      emitted := true;
      log := log + [Entry(env.pattern, r, Completed)];
      return Done(r);
    }

    /** `fail()` (431-439). */
    method FailRun(f: Failure)
      requires Valid()
      modifies this
      ensures Valid() && View() == Fail(env, old(View()), f)
    {
      hide ReceiptOf;
      if emitted { return; }
      var r := TakeReceipt();
      emitted := true;
      log := log + [Entry(env.pattern, r, Failed(CodeOf(f)))];
    }

    /** The `catch` of every pattern: log the failure and throw it on. */
    method Abort<T>(f: Failure) returns (run: Run<T>)
      requires Valid()
      modifies this
      ensures Valid() && run == Failing(env, old(View()), f)
    {
      hide Fail;
      FailRun(f);
      run := Run(Threw(f), Some(View()));
    }
  }

  /** All workers begin, in task order, before any of them resumes. */
  method StartWorkers(meter: RunMeter, n: nat, budget: real) returns (begun: seq<Begun>)
    requires meter.Valid()
    modifies meter
    ensures meter.Valid() && (meter.View(), begun) == BeginWorkers(meter.env, old(meter.View()), n, budget)
  {
    hide Begin;
    begun := [];
    for i := 0 to n
      invariant meter.Valid() && (meter.View(), begun) == BeginWorkers(meter.env, old(meter.View()), i, budget)
    {
      var b := meter.BeginCall(Some(budget));
      begun := begun + [b];
    }
  }

  /** `Promise.allSettled` over workers that resume in the given order. */
  method AwaitWorkers(meter: RunMeter, tasks: seq<Subtask>, plan: Plan, begun: seq<Begun>, replies: seq<Reply>, order: seq<nat>)
    returns (settled: seq<Settlement>)
    requires meter.Valid() && |tasks| == |begun| == |replies| && forall k :: 0 <= k < |order| ==> order[k] < |tasks|
    modifies meter
    ensures meter.Valid()
    ensures (meter.View(), settled) == SettleWorkers(meter.env, old(meter.View()), tasks, plan, begun, replies, order)
  {
    hide Settle;
    settled := Settlements(begun);
    for k := 0 to |order|
      invariant meter.Valid()
      invariant (meter.View(), settled) == SettleWorkers(meter.env, old(meter.View()), tasks, plan, begun, replies, order[..k])
    {
      var i := order[k];
      assert order[..k + 1][..k] == order[..k];
      var s := ResumeWorker(meter, tasks[i], plan, begun[i], replies[i]);
      settled := settled[i := s];
    }
    assert order[..|order|] == order;
  }

  method ResumeWorker(meter: RunMeter, task: Subtask, plan: Plan, begun: Begun, reply: Reply) returns (s: Settlement)
    requires meter.Valid()
    modifies meter
    ensures meter.Valid() && (meter.View(), s) == Settle(meter.env, old(meter.View()), task, plan, begun, reply)
  {
    hide Finish, ParseOutput;
    if begun.Denied? { return Rejected(begun.failure); }
    var failure := meter.FinishCall(Worker(task.id), plan, begun.budget, reply);
    if failure.Some? { return Rejected(failure.value); }
    assert reply.Answers? by { FinishedAnswers(meter.env, old(meter.View()), Worker(task.id), plan, begun.budget, reply); }
    var output := ParseOutput(reply.completion.text, "output");
    if output.None? { return Rejected(Malformed); }
    return Fulfilled(output.value);
  }

  lemma FinishedAnswers(env: Env, m: Meter, role: Role, plan: Plan, budget: real, reply: Reply)
    requires Finish(env, m, role, plan, budget, reply).1.None?
    ensures reply.Answers?
  {
  }

  lemma InvokedAnswers(env: Env, m: Meter, role: Role, plan: Plan, reply: Reply)
    requires Invoke(env, m, role, plan, reply).1.None?
    ensures reply.Answers?
  {
  }

  /** `workerSettlements.find(... rejected)`. */
  method FindRejected(settled: seq<Settlement>) returns (f: Option<Failure>)
    ensures f == FirstRejected(settled)
  {
    for i := 0 to |settled|
      invariant FirstRejected(settled) == FirstRejected(settled[i..])
    {
      if settled[i].Rejected? { return Some(settled[i].failure); }
    }
    return None;
  }

  /** `fanOutSynthesize` (169-224). */
  method FanOutSynthesizeRun(tasks: seq<Subtask>, worker: Plan, synthesizer: Plan, caps: Caps, date: Date, clock: nat -> int,
                             replies: seq<Reply>, order: seq<nat>, last: Reply) returns (run: Run<FanOutResult>)
    requires |tasks| == |replies| && forall k :: 0 <= k < |order| ==> order[k] < |tasks|
    ensures run == FanOut(tasks, worker, synthesizer, caps, date, clock, replies, order, last)
  {
    hide BeginWorkers, SettleWorkers, Predicted, SubtasksOk, Invoke, Complete, Fail, ParseSynthesis, FirstRejected;
    if !SubtasksOk(tasks) || !CapsOk(caps) || !PlanOk(worker) || !PlanOk(synthesizer) { return Run(Threw(InvalidInput), None); }
    var w, s := Predicted(worker, date), Predicted(synthesizer, date);
    if w.None? || s.None? { return Run(Threw(Unpriced), None); }
    var meter := new RunMeter(FanOutEnv(|tasks|, w.value, s.value, caps, date, clock));
    if meter.env.predicted > caps.maxSpendUsd {
      run := meter.Abort(PredictedSpend);
      return;
    }
    var budget := ProportionalBudget(w.value, meter.env.predicted, caps.maxSpendUsd);
    var begun := StartWorkers(meter, |tasks|, budget);
    var settled := AwaitWorkers(meter, tasks, worker, begun, replies, order);
    var rejected := FindRejected(settled);
    if rejected.Some? {
      run := meter.Abort(rejected.value);
      return;
    }
    run := SynthesizeRun(meter, synthesizer, last, Outputs(tasks, settled));
  }

  method SynthesizeRun(meter: RunMeter, plan: Plan, reply: Reply, outputs: seq<WorkerOutput>) returns (run: Run<FanOutResult>)
    requires meter.Valid()
    modifies meter
    ensures meter.Valid() && run == Synthesize(meter.env, old(meter.View()), plan, reply, outputs)
  {
    hide Invoke, Complete, Fail, ParseSynthesis;
    var failure := meter.InvokeModel(Synthesizer, plan, reply);
    if failure.Some? {
      run := meter.Abort(failure.value);
      return;
    }
    InvokedAnswers(meter.env, old(meter.View()), Synthesizer, plan, reply);
    var synthesis := ParseSynthesis(reply.completion.text);
    if synthesis.None? {
      run := meter.Abort(Malformed);
      return;
    }
    var spend := meter.CompleteRun();
    if spend.Threw? {
      run := meter.Abort(spend.failure);
      return;
    }
    run := Run(Done(FanOutResult(outputs, synthesis.value, spend.value)), Some(meter.View()));
  }

  /** `adversarial` (226-299). */
  method AdversarialRun(task: string, maker: Plan, critic: Plan, judge: Plan, caps: Caps, date: Date, clock: nat -> int,
                        made: Reply, criticized: Reply, judged: Reply) returns (run: Run<AdversarialResult>)
    ensures run == Adversarial(task, maker, critic, judge, caps, date, clock, made, criticized, judged)
  {
    hide Predicted, Bounded, Invoke, Complete, Fail, ParseOutput, ParseCriticism, ParseJudgement, JudgeTurn;
    if !Bounded(task, 20_000) || !CapsOk(caps) || !PlanOk(maker) || !PlanOk(critic) || !PlanOk(judge) {
      return Run(Threw(InvalidInput), None);
    }
    var a, b, c := Predicted(maker, date), Predicted(critic, date), Predicted(judge, date);
    if a.None? || b.None? || c.None? { return Run(Threw(Unpriced), None); }
    var meter := new RunMeter(Env(AdversarialPattern, a.value + b.value + c.value, caps, date, clock));
    if meter.env.predicted > caps.maxSpendUsd {
      run := meter.Abort(PredictedSpend);
      return;
    }
    ghost var m := meter.View();
    var failure := meter.InvokeModel(Maker, maker, made);
    if failure.Some? {
      run := meter.Abort(failure.value);
      return;
    }
    InvokedAnswers(meter.env, m, Maker, maker, made);
    var output := ParseOutput(made.completion.text, "output");
    if output.None? {
      run := meter.Abort(Malformed);
      return;
    }
    ghost var m1 := meter.View();
    failure := meter.InvokeModel(Critic, critic, criticized);
    if failure.Some? {
      run := meter.Abort(failure.value);
      return;
    }
    InvokedAnswers(meter.env, m1, Critic, critic, criticized);
    var criticism := ParseCriticism(criticized.completion.text);
    if criticism.None? {
      run := meter.Abort(Malformed);
      return;
    }
    run := JudgeRun(meter, judge, judged, output.value, criticism.value);
  }

  /** Lines 264-294: the judge's two texts are read after `complete()`. */
  method JudgeRun(meter: RunMeter, judge: Plan, judged: Reply, made: string, criticism: Criticism) returns (run: Run<AdversarialResult>)
    requires meter.Valid()
    modifies meter
    ensures meter.Valid() && run == JudgeTurn(meter.env, old(meter.View()), judge, judged, made, criticism)
  {
    hide Invoke, Complete, Fail, ParseJudgement;
    var failure := meter.InvokeModel(Judge, judge, judged);
    if failure.Some? {
      run := meter.Abort(failure.value);
      return;
    }
    InvokedAnswers(meter.env, old(meter.View()), Judge, judge, judged);
    var judgement := ParseJudgement(judged.completion.text, criticism.position);
    if judgement.None? {
      run := meter.Abort(Malformed);
      return;
    }
    var spend := meter.CompleteRun();
    if spend.Threw? {
      run := meter.Abort(spend.failure);
      return;
    }
    if judgement.value.output.None? || judgement.value.justification.None? {
      run := meter.Abort(Malformed);
      return;
    }
    run := Run(Done(AdversarialResult(made, criticism.position, criticism.refutation, judgement.value.verdict,
                                      judgement.value.output.value, judgement.value.justification.value, spend.value)),
               Some(meter.View()));
  }

  /** The criteria by id. */
  ghost predicate Indexes(criteria: map<string, Criterion>, rubric: seq<Criterion>) {
    && (forall k :: 0 <= k < |rubric| ==> rubric[k].id in criteria && criteria[rubric[k].id] == rubric[k])
    && (forall id :: id in criteria ==> criteria[id].id == id && criteria[id] in rubric)
  }

  method IndexRubric(rubric: seq<Criterion>) returns (criteria: map<string, Criterion>)
    requires RubricOk(rubric)
    ensures Indexes(criteria, rubric)
  {
    criteria := map[];
    for i := 0 to |rubric|
      invariant Indexes(criteria, rubric[..i])
    {
      assert forall k :: 0 <= k < i ==> rubric[k].id != rubric[i].id;
      assert rubric[..i + 1] == rubric[..i] + [rubric[i]];
      criteria := criteria[rubric[i].id := rubric[i]];
    }
    assert rubric[..|rubric|] == rubric;
  }

  lemma QuotesByIndex(f: StructuredFailure, rubric: seq<Criterion>, criteria: map<string, Criterion>)
    requires Indexes(criteria, rubric)
    ensures Quotes(f, rubric) <==> f.criterion in criteria && criteria[f.criterion].expected == f.expected
  {
    if f.criterion in criteria {
      var k :| 0 <= k < |rubric| && rubric[k] == criteria[f.criterion];
    }
  }

  /** `validateVerificationFailures` (562-577): a table of the rubric and a set of criteria seen. */
  method CheckFailures(failures: seq<StructuredFailure>, rubric: seq<Criterion>) returns (ok: bool)
    requires RubricOk(rubric)
    ensures ok <==> FailuresOk(failures, rubric)
  {
    hide RubricOk, Quotes, Indexes;
    var criteria := IndexRubric(rubric);
    var seen: set<string> := {};
    for i := 0 to |failures|
      invariant forall k :: 0 <= k < i ==> failures[k].criterion in seen
      invariant forall c :: c in seen ==> exists k :: 0 <= k < i && failures[k].criterion == c
      invariant forall k :: 0 <= k < i ==> Quotes(failures[k], rubric)
      invariant forall k, l :: 0 <= k < l < i ==> failures[k].criterion != failures[l].criterion
    {
      var f := failures[i];
      QuotesByIndex(f, rubric, criteria);
      if f.criterion !in criteria || criteria[f.criterion].expected != f.expected { return false; }
      if f.criterion in seen { return false; }
      seen := seen + {f.criterion};
    }
    ok := true;
  }

  /** `loopUntilDone` (301-350). */
  method LoopUntilDoneRun(task: string, rubric: seq<Criterion>, maker: Plan, verifier: Plan, caps: Caps, max: int, date: Date,
                          clock: nat -> int, replies: nat -> Reply) returns (run: Run<LoopResult>)
    ensures run == Loop(task, rubric, maker, verifier, caps, max, date, clock, replies)
  {
    hide Predicted, Bounded, RubricOk, Iteration, Fail;
    if !Bounded(task, 20_000) || !CapsOk(caps) || max <= 0 || !PlanOk(maker) || !PlanOk(verifier) || !RubricOk(rubric) {
      return Run(Threw(InvalidInput), None);
    }
    var a, b := Predicted(maker, date), Predicted(verifier, date);
    if a.None? || b.None? { return Run(Threw(Unpriced), None); }
    var meter := new RunMeter(LoopEnv(max, a.value, b.value, caps, date, clock));
    if meter.env.predicted > caps.maxSpendUsd {
      run := meter.Abort(PredictedSpend);
      return;
    }
    ghost var whole := Iterate(meter.env, meter.View(), rubric, maker, verifier, max, 1, replies);
    var i := 1;
    while i <= max
      invariant 1 <= i <= max + 1 && meter.Valid() && fresh(meter)
      invariant whole == Iterate(meter.env, meter.View(), rubric, maker, verifier, max, i, replies)
    {
      var turn := IterationRun(meter, rubric, maker, verifier, i, replies(2 * i - 2), replies(2 * i - 1));
      if turn.Some? { return turn.value; }
      i := i + 1;
    }
    run := meter.Abort(IterationCap);
  }

  /** One pass of the loop (318-340): a finished run, or nothing and another pass. */
  method IterationRun(meter: RunMeter, rubric: seq<Criterion>, maker: Plan, verifier: Plan, i: nat, made: Reply, verified: Reply)
    returns (run: Option<Run<LoopResult>>)
    requires meter.Valid() && RubricOk(rubric)
    modifies meter
    ensures meter.Valid()
    ensures Iteration(meter.env, old(meter.View()), rubric, maker, verifier, i, made, verified)
            == if run.Some? then Stop(run.value) else Again(meter.View())
  {
    hide Invoke, Complete, Fail, ParseOutput, ParseVerification, FailuresOk, RubricOk;
    var failure := meter.InvokeModel(LoopMaker(i), maker, made);
    if failure.Some? {
      var stop := meter.Abort(failure.value);
      return Some(stop);
    }
    InvokedAnswers(meter.env, old(meter.View()), LoopMaker(i), maker, made);
    var candidate := ParseOutput(made.completion.text, "candidate");
    if candidate.None? {
      var stop := meter.Abort(Malformed);
      return Some(stop);
    }
    ghost var m := meter.View();
    failure := meter.InvokeModel(LoopVerifier(i), verifier, verified);
    if failure.Some? {
      var stop := meter.Abort(failure.value);
      return Some(stop);
    }
    InvokedAnswers(meter.env, m, LoopVerifier(i), verifier, verified);
    var v := ParseVerification(verified.completion.text);
    if v.None? {
      var stop := meter.Abort(Malformed);
      return Some(stop);
    }
    if v.value.pass {
      var spend := meter.CompleteRun();
      if spend.Threw? {
        var stop := meter.Abort(spend.failure);
        return Some(stop);
      }
      return Some(Run(Done(LoopResult(candidate.value, i, true, spend.value)), Some(meter.View())));
    }
    var ok := CheckFailures(v.value.failures, rubric);
    if !ok {
      var stop := meter.Abort(Malformed);
      return Some(stop);
    }
    return None;
  }
}
