/**
 No call is made once a cap is reached: over every run of the sequential patterns, each recorded call
 was made while the calls before it had cost less than the cap and used fewer tokens than the cap, and
 its budget was exactly what they had left.

 Line numbers refer to harness/orchestration-patterns.ts.
 */
module MeterTheorems {
  import opened Basics
  import opened Sorting
  import opened Texts
  import opened Routing
  import opened Cost
  import opened Provider
  import opened Orchestration
  import opened OrchestrationEvidence
  import opened OrchestrationTheorems
  import opened OrchestrationAnswers

  /** Call `k` of the meter was allowed, and given what was left. */
  ghost predicate Allowed(caps: Caps, m: Meter, k: nat)
    requires k < |m.calls| == |m.budgets|
  {
    && SumCost(m.calls[..k]) < caps.maxSpendUsd && TokenTotal(SumUsage(m.calls[..k])) < caps.maxTokens
    && m.budgets[k] == caps.maxSpendUsd - SumCost(m.calls[..k])
  }

  ghost predicate Guarded(caps: Caps, m: Meter) {
    |m.budgets| == |m.calls| && forall k :: 0 <= k < |m.calls| ==> Allowed(caps, m, k)
  }

  /** The same calls and budgets. */
  lemma StillGuarded(caps: Caps, m: Meter, a: Meter)
    requires Guarded(caps, m) && a.calls == m.calls && a.budgets == m.budgets
    ensures Guarded(caps, a)
  {
    hide SumCost, SumUsage;
    forall k | 0 <= k < |a.calls| ensures Allowed(caps, a, k) {
      assert Allowed(caps, m, k);
    }
  }

  lemma OneMoreGuarded(caps: Caps, m: Meter, a: Meter, call: Call)
    requires Guarded(caps, m) && a.calls == m.calls + [call] && a.budgets == m.budgets + [caps.maxSpendUsd - SumCost(m.calls)]
    requires SumCost(m.calls) < caps.maxSpendUsd && TokenTotal(SumUsage(m.calls)) < caps.maxTokens
    ensures Guarded(caps, a)
  {
    hide SumCost, SumUsage;
    forall k | 0 <= k < |a.calls| ensures Allowed(caps, a, k) {
      if k < |m.calls| {
        assert Allowed(caps, m, k);
        assert a.calls[..k] == m.calls[..k];
      } else {
        assert a.calls[..k] == m.calls;
      }
    }
  }

  /** What a reply must be to be recorded: of the model asked for, with models, non-negative amounts and some text. */
  predicate Acceptable(reply: Reply, model: ModelId) {
    && reply.Answers?
    && var c := reply.completion;
       && c.requested == model && c.models != [] && "" !in c.models && c.cost >= 0.0 && c.duration >= 0.0 && c.text != EmptyText
       && c.usage.input >= 0 && c.usage.output >= 0 && c.usage.cacheRead >= 0 && c.usage.cacheCreation >= 0
  }

  lemma AcceptableAgrees(reply: Reply, model: ModelId)
    ensures Acceptable(reply, model) <==> reply.Answers? && CompletionOk(reply.completion, model)
  {
    if reply.Answers? {
      var models := reply.completion.models;
      assert "" in models <==> exists i :: 0 <= i < |models| && models[i] == "";
    }
  }

  /**
   A call is recorded exactly if money, tokens and time were all below their caps before it and its reply
   is acceptable; and it returns exactly if it is recorded, is no refusal, and leaves all three within
   their caps.
   */
  lemma CallIsRecordedExactlyWhen(env: Env, m: Meter, role: Role, plan: Plan, reply: Reply)
    requires CapsOk(env.caps)
    ensures var (a, failure) := Invoke(env, m, role, plan, reply);
            var recorded := |a.calls| == |m.calls| + 1;
            && (recorded || a.calls == m.calls)
            && (recorded <==>
                  && m.cost < env.caps.maxSpendUsd && TokenTotal(m.usage) < env.caps.maxTokens
                  && env.clock(m.ticks) - m.started < env.caps.maxWallClockMs && Acceptable(reply, plan.model))
            && (failure.None? <==>
                  && recorded && !IsRefusal(reply)
                  && m.cost + reply.completion.cost <= env.caps.maxSpendUsd
                  && TokenTotal(m.usage) + TokenTotal(reply.completion.usage) <= env.caps.maxTokens
                  && env.clock(m.ticks + 2) - m.started <= env.caps.maxWallClockMs)
  {
    hide CompletionOk, SortText, AllModels, Sorting.Distinct, Predicted, Acceptable;
    AcceptableAgrees(reply, plan.model);
  }

  lemma InvokeGuards(env: Env, m: Meter, role: Role, plan: Plan, reply: Reply, predicted: real)
    requires CapsOk(env.caps) && Open(m) && Guarded(env.caps, m) && Predicted(plan, env.date) == Some(predicted) && predicted > 0.0
    ensures var (a, failure) := Invoke(env, m, role, plan, reply);
            Open(a) && Guarded(env.caps, a) && (failure.None? ==> reply.Answers?)
  {
    hide Invoke, Predicted, SumCost, SumUsage, Guarded;
    InvokeKeeps(env, m, role, plan, reply, predicted);
    var a := Invoke(env, m, role, plan, reply).0;
    if a.calls == m.calls {
      StillGuarded(env.caps, m, a);
    } else {
      CallIsRecordedExactlyWhen(env, m, role, plan, reply);
      OneMoreGuarded(env.caps, m, a, CallOf(role, plan, predicted, reply.completion));
    }
  }

  lemma EndingGuards<T>(env: Env, m: Meter, f: Failure)
    requires Guarded(env.caps, m)
    ensures var run: Run<T> := Failing(env, m, f); run.meter.Some? && Guarded(env.caps, run.meter.value)
    ensures Guarded(env.caps, Complete(env, m).0)
  {
    hide ReceiptOf, Guarded;
    StillGuarded(env.caps, m, Fail(env, m, f));
    StillGuarded(env.caps, m, Complete(env, m).0);
  }

  lemma IterationGuards(env: Env, m: Meter, rubric: seq<Criterion>, maker: Plan, verifier: Plan, i: nat, made: Reply, verified: Reply,
                        a: real, b: real)
    requires CapsOk(env.caps) && Open(m) && Guarded(env.caps, m)
    requires Predicted(maker, env.date) == Some(a) && Predicted(verifier, env.date) == Some(b) && a > 0.0 && b > 0.0
    ensures var turn := Iteration(env, m, rubric, maker, verifier, i, made, verified);
            if turn.Again? then Open(turn.meter) && Guarded(env.caps, turn.meter)
            else turn.run.meter.Some? && Guarded(env.caps, turn.run.meter.value)
  {
    hide Invoke, Predicted, Guarded, Books, ParseOutput, ParseVerification, FailuresOk, Failing, Complete;
    InvokeGuards(env, m, LoopMaker(i), maker, made, a);
    var (p, failure) := Invoke(env, m, LoopMaker(i), maker, made);
    EndingGuards<LoopResult>(env, p, if failure.Some? then failure.value else Malformed);
    if failure.None? {
      InvokeGuards(env, p, LoopVerifier(i), verifier, verified, b);
      var (c, failed) := Invoke(env, p, LoopVerifier(i), verifier, verified);
      EndingGuards<LoopResult>(env, c, if failed.Some? then failed.value else Malformed);
      var (done, spend) := Complete(env, c);
      if spend.Threw? { EndingGuards<LoopResult>(env, done, spend.failure); }
    }
  }

  lemma {:induction false} IterateGuards(env: Env, m: Meter, rubric: seq<Criterion>, maker: Plan, verifier: Plan, max: nat, i: nat,
                                         replies: nat -> Reply, a: real, b: real)
    requires CapsOk(env.caps) && 1 <= i <= max + 1 && Open(m) && Guarded(env.caps, m)
    requires Predicted(maker, env.date) == Some(a) && Predicted(verifier, env.date) == Some(b) && a > 0.0 && b > 0.0
    ensures var run := Iterate(env, m, rubric, maker, verifier, max, i, replies);
            run.meter.Some? && Guarded(env.caps, run.meter.value)
    decreases max + 1 - i
  {
    hide Iteration, Predicted, Guarded, Books, Failing;
    if i > max {
      EndingGuards<LoopResult>(env, m, IterationCap);
    } else {
      IterationGuards(env, m, rubric, maker, verifier, i, replies(2 * i - 2), replies(2 * i - 1), a, b);
      match Iteration(env, m, rubric, maker, verifier, i, replies(2 * i - 2), replies(2 * i - 1))
      case Stop(_) =>
      case Again(c) => IterateGuards(env, c, rubric, maker, verifier, max, i + 1, replies, a, b);
    }
  }

  lemma NewIsGuarded(env: Env)
    ensures Open(NewMeter(env)) && Guarded(env.caps, NewMeter(env))
  {
    NewIsOpen(env);
  }

  /** A loop makes no call at or beyond a cap. */
  lemma LoopStopsAtTheCap(task: string, rubric: seq<Criterion>, maker: Plan, verifier: Plan, caps: Caps, max: int, date: Date,
                          clock: nat -> int, replies: nat -> Reply)
    ensures var run := Loop(task, rubric, maker, verifier, caps, max, date, clock, replies);
            run.meter.Some? ==> Guarded(caps, run.meter.value)
  {
    hide Iterate, Predicted, Failing, Bounded, RubricOk, Books, Guarded, NewMeter, CapsOk, LoopEnv;
    if Bounded(task, 20_000) && CapsOk(caps) && max > 0 && PlanOk(maker) && PlanOk(verifier) && RubricOk(rubric)
       && Predicted(maker, date).Some? && Predicted(verifier, date).Some? {
      var a, b := Predicted(maker, date).value, Predicted(verifier, date).value;
      PredictedPositive(maker, date);
      PredictedPositive(verifier, date);
      var env := LoopEnv(max, a, b, caps, date, clock);
      NewIsGuarded(env);
      EndingGuards<LoopResult>(env, NewMeter(env), PredictedSpend);
      IterateGuards(env, NewMeter(env), rubric, maker, verifier, max, 1, replies, a, b);
    }
  }

  lemma JudgeGuards(env: Env, m: Meter, judge: Plan, judged: Reply, made: string, criticism: Criticism, p: real)
    requires CapsOk(env.caps) && Open(m) && Guarded(env.caps, m) && Predicted(judge, env.date) == Some(p) && p > 0.0
    ensures var run := JudgeTurn(env, m, judge, judged, made, criticism); run.meter.Some? && Guarded(env.caps, run.meter.value)
  {
    hide Invoke, Predicted, Guarded, Books, ParseJudgement, Failing, Complete;
    InvokeGuards(env, m, Judge, judge, judged, p);
    var (a, failure) := Invoke(env, m, Judge, judge, judged);
    EndingGuards<AdversarialResult>(env, a, if failure.Some? then failure.value else Malformed);
    var (done, spend) := Complete(env, a);
    EndingGuards<AdversarialResult>(env, done, if spend.Threw? then spend.failure else Malformed);
  }

  lemma MakerGuards(env: Env, m: Meter, maker: Plan, critic: Plan, judge: Plan, made: Reply, criticized: Reply, judged: Reply,
                    a: real, b: real, c: real)
    requires CapsOk(env.caps) && Open(m) && Guarded(env.caps, m) && a > 0.0 && b > 0.0 && c > 0.0
    requires Predicted(maker, env.date) == Some(a) && Predicted(critic, env.date) == Some(b) && Predicted(judge, env.date) == Some(c)
    ensures var run := MakerTurn(env, m, maker, critic, judge, made, criticized, judged); run.meter.Some? && Guarded(env.caps, run.meter.value)
  {
    hide Invoke, Predicted, Guarded, Books, ParseOutput, ParseCriticism, Failing, JudgeTurn;
    InvokeGuards(env, m, Maker, maker, made, a);
    var (p, failure) := Invoke(env, m, Maker, maker, made);
    EndingGuards<AdversarialResult>(env, p, if failure.Some? then failure.value else Malformed);
    if failure.None? {
      var output := ParseOutput(made.completion.text, "output");
      InvokeGuards(env, p, Critic, critic, criticized, b);
      var (q, failed) := Invoke(env, p, Critic, critic, criticized);
      EndingGuards<AdversarialResult>(env, q, if failed.Some? then failed.value else Malformed);
      if failed.None? && output.Some? {
        var criticism := ParseCriticism(criticized.completion.text);
        if criticism.Some? { JudgeGuards(env, q, judge, judged, output.value, criticism.value, c); }
      }
    }
  }

  /** Nor does an adversarial run. */
  lemma AdversarialStopsAtTheCap(task: string, maker: Plan, critic: Plan, judge: Plan, caps: Caps, date: Date, clock: nat -> int,
                                 made: Reply, criticized: Reply, judged: Reply)
    ensures var run := Adversarial(task, maker, critic, judge, caps, date, clock, made, criticized, judged);
            run.meter.Some? ==> Guarded(caps, run.meter.value)
  {
    hide MakerTurn, Predicted, Failing, Bounded, Books, Guarded, NewMeter, CapsOk;
    if Bounded(task, 20_000) && CapsOk(caps) && PlanOk(maker) && PlanOk(critic) && PlanOk(judge)
       && Predicted(maker, date).Some? && Predicted(critic, date).Some? && Predicted(judge, date).Some? {
      var a, b, c := Predicted(maker, date).value, Predicted(critic, date).value, Predicted(judge, date).value;
      PredictedPositive(maker, date);
      PredictedPositive(critic, date);
      PredictedPositive(judge, date);
      var env := Env(AdversarialPattern, a + b + c, caps, date, clock);
      NewIsGuarded(env);
      EndingGuards<AdversarialResult>(env, NewMeter(env), PredictedSpend);
      MakerGuards(env, NewMeter(env), maker, critic, judge, made, criticized, judged, a, b, c);
    }
  }

  // ---- Starting ----------------------------------------------------------------------------------

  /** A plan that can be priced: some tokens each way, of a registered model, on a day of the calendar. */
  ghost predicate Priced(plan: Plan, date: Date) {
    plan.inputTokens >= 1 && plan.outputTokens >= 1 && !plan.model.Other? && IsCalendar(date)
  }

  lemma PricedAgrees(plan: Plan, date: Date)
    ensures Priced(plan, date) <==> PlanOk(plan) && Predicted(plan, date).Some?
  {
    hide IsCalendar, EstimateCost;
    if PlanOk(plan) { EstimateIsPositive(plan.model, plan.inputTokens, plan.outputTokens, date); }
  }

  /** No white space at either end, not empty and not too long. */
  ghost predicate Trimmed(s: string, max: nat) {
    1 <= |s| <= max && !IsSpace(s[0]) && !IsSpace(s[|s| - 1])
  }

  ghost predicate Capped(caps: Caps) {
    caps.maxTokens >= 1 && caps.maxWallClockMs >= 1 && caps.maxSpendUsd > 0.0
  }

  /** A loop gets as far as a meter exactly if its input is in order and its plans can be priced. */
  lemma LoopStartsExactlyWhen(task: string, rubric: seq<Criterion>, maker: Plan, verifier: Plan, caps: Caps, max: int, date: Date,
                              clock: nat -> int, replies: nat -> Reply)
    ensures Loop(task, rubric, maker, verifier, caps, max, date, clock, replies).meter.Some? <==>
            Trimmed(task, 20_000) && Capped(caps) && max >= 1 && RubricOk(rubric) && Priced(maker, date) && Priced(verifier, date)
  {
    hide Iterate, Predicted, Priced, RubricOk, PlanOk, Guarded, Books, NewMeter, LoopEnv;
    PricedAgrees(maker, date);
    PricedAgrees(verifier, date);
    if Bounded(task, 20_000) && CapsOk(caps) && max > 0 && RubricOk(rubric) && Priced(maker, date) && Priced(verifier, date) {
      var a, b := Predicted(maker, date).value, Predicted(verifier, date).value;
      PredictedPositive(maker, date);
      PredictedPositive(verifier, date);
      var env := LoopEnv(max, a, b, caps, date, clock);
      NewIsGuarded(env);
      IterateGuards(env, NewMeter(env), rubric, maker, verifier, max, 1, replies, a, b);
    }
  }

  /** So does an adversarial run. */
  lemma AdversarialStartsExactlyWhen(task: string, maker: Plan, critic: Plan, judge: Plan, caps: Caps, date: Date, clock: nat -> int,
                                     made: Reply, criticized: Reply, judged: Reply)
    ensures Adversarial(task, maker, critic, judge, caps, date, clock, made, criticized, judged).meter.Some? <==>
            Trimmed(task, 20_000) && Capped(caps) && Priced(maker, date) && Priced(critic, date) && Priced(judge, date)
  {
    hide MakerTurn, Predicted, Priced, PlanOk, Guarded, Books, NewMeter;
    PricedAgrees(maker, date);
    PricedAgrees(critic, date);
    PricedAgrees(judge, date);
    if Bounded(task, 20_000) && CapsOk(caps) && Priced(maker, date) && Priced(critic, date) && Priced(judge, date) {
      var a, b, c := Predicted(maker, date).value, Predicted(critic, date).value, Predicted(judge, date).value;
      PredictedPositive(maker, date);
      PredictedPositive(critic, date);
      PredictedPositive(judge, date);
      var env := Env(AdversarialPattern, a + b + c, caps, date, clock);
      NewIsGuarded(env);
      MakerGuards(env, NewMeter(env), maker, critic, judge, made, criticized, judged, a, b, c);
    }
  }
}
