/**
 Budgets: when no call costs more than the budget it was given, no run of any pattern overruns its
 cap, for any number of concurrent workers finishing in any order.
 */
module BudgetTheorems {
  import opened Basics
  import opened Cost
  import opened Sorting
  import opened Provider
  import opened Orchestration
  import opened OrchestrationEvidence
  import opened OrchestrationTheorems
  import opened FanOutTheorems

  /** No recorded call cost more than the budget it was given. */
  ghost predicate Frugal(m: Meter) {
    |m.budgets| == |m.calls| && forall k :: 0 <= k < |m.calls| ==> m.calls[k].cost <= m.budgets[k]
  }

  /** `a` has the calls of `m` and perhaps more. */
  lemma FrugalBefore(m: Meter, a: Meter)
    requires Frugal(a) && |m.budgets| == |m.calls| && m.calls <= a.calls && m.budgets <= a.budgets
    ensures Frugal(m)
  {
    assert forall k :: 0 <= k < |m.calls| ==> m.calls[k] == a.calls[k] && m.budgets[k] == a.budgets[k];
  }

  lemma {:induction false} FrugalSum(calls: seq<Call>, budgets: seq<real>, share: real)
    requires |calls| == |budgets| && forall k :: 0 <= k < |calls| ==> calls[k].cost <= budgets[k] <= share
    ensures SumCost(calls) <= |calls| as real * share
  {
    if calls != [] {
      FrugalSum(calls[..|calls| - 1], budgets[..|calls| - 1], share);
      OneMore(|calls|, share);
    }
  }

  lemma Swap(x: real, y: real, z: real)
    ensures x * y * z == x * z * y
  {
  }

  lemma SameFactor(x: real, y: real, z: real)
    requires x == y
    ensures x * z == y * z
  {
  }

  lemma Distribute(x: real, y: real, z: real)
    ensures (x + y) * z == x * z + y * z
  {
  }

  lemma UnitFactor(x: real, t: real)
    requires x * t == t && t > 0.0
    ensures x == 1.0
  {
    Distribute(x, -1.0, t);
    if x > 1.0 { ProductPositive(x - 1.0, t); }
    if x < 1.0 { ProductPositive(1.0 - x, t); }
  }

  lemma PartsMakeOne(p: real, b: real, total: real, q: real, s: real)
    requires p * total == q && b * total == s && q + s == total && total > 0.0
    ensures p + b == 1.0
  {
    Distribute(p, b, total);
    UnitFactor(p + b, total);
  }

  lemma OneMakesWhole(p: real, b: real, cap: real)
    requires p + b == 1.0
    ensures p * cap + b * cap == cap
  {
    Distribute(p, b, cap);
  }

  lemma SharesSplit(a: real, b: real, n: real, total: real, w: real, s: real, cap: real)
    requires a * total == w && b * total == s && w * n + s == total && total > 0.0
    ensures a * cap * n + b * cap == cap
  {
    Swap(a, n, total);
    SameFactor(a * total, w, n);
    PartsMakeOne(a * n, b, total, w * n, s);
    OneMakesWhole(a * n, b, cap);
    Swap(a, cap, n);
  }

  lemma ShareIsPositive(x: real, total: real, cap: real)
    requires x > 0.0 && total > 0.0 && cap > 0.0
    ensures ProportionalBudget(x, total, cap) == x / total * cap > 0.0
  {
    ProductPositive(x / total, cap);
  }

  /** The shares of `n` workers and the synthesizer make up the cap. */
  lemma SharesAddUp(w: real, s: real, n: nat, total: real, cap: real)
    requires w > 0.0 && s > 0.0 && cap > 0.0 && total == w * n as real + s
    ensures ProportionalBudget(w, total, cap) * n as real + ProportionalBudget(s, total, cap) == cap
    ensures ProportionalBudget(w, total, cap) > 0.0 && ProportionalBudget(s, total, cap) > 0.0
  {
    hide ProportionalBudget;
    if n > 0 { ProductPositive(w, n as real); }
    ShareIsPositive(w, total, cap);
    ShareIsPositive(s, total, cap);
    SharesSplit(w / total, s / total, n as real, total, w, s, cap);
  }

  /** However many workers have resumed, at least the synthesizer's share is left. */
  lemma ShareIsLeft(m: Meter, tasks: seq<Subtask>, order: seq<nat>, settled: seq<Settlement>, w: real, s: real, total: real, cap: real)
    requires |order| <= |tasks| && w > 0.0 && s > 0.0 && cap > 0.0 && total == w * |tasks| as real + s
    requires Settling(m, tasks, order, settled, w, ProportionalBudget(w, total, cap)) && Frugal(m)
    ensures m.cost + ProportionalBudget(s, total, cap) <= cap
  {
    hide SumPredicted, Roles, Resumed, SumUsage, ProportionalBudget, SumCost;
    var share := ProportionalBudget(w, total, cap);
    SharesAddUp(w, s, |tasks|, total, cap);
    FrugalSum(m.calls, m.budgets, share);
    WorkersFit(share, |m.calls|, |tasks|);
  }

  /** None of the spend checks can be what stopped a worker. */
  ghost predicate NoSpendFailure(settled: seq<Settlement>) {
    forall i :: 0 <= i < |settled| && settled[i].Rejected? ==> !IsSpendFailure(settled[i].failure)
  }

  predicate IsSpendFailure(f: Failure) {
    f == SpendExceeded || f == NoBudget || f == SpendExhausted
  }

  lemma {:induction false} BeginNeverShort(env: Env, m: Meter, n: nat, share: real)
    requires Open(m) && m.cost == 0.0 && env.caps.maxSpendUsd > 0.0 && share > 0.0
    ensures forall i :: 0 <= i < n && BeginWorkers(env, m, n, share).1[i].Denied? ==>
              !IsSpendFailure(BeginWorkers(env, m, n, share).1[i].failure)
  {
    if n > 0 {
      BeginNeverShort(env, m, n - 1, share);
      BeginWorkersKeep(env, m, n - 1, share);
    }
  }

  lemma {:induction false} SettleWorkersThrifty(env: Env, m: Meter, tasks: seq<Subtask>, plan: Plan, begun: seq<Begun>, replies: seq<Reply>,
                                                order: seq<nat>, w: real, s: real, total: real)
    requires |tasks| == |begun| == |replies| && SubtasksOk(tasks) && NoDuplicates(order) && |order| <= |tasks|
    requires forall k :: 0 <= k < |order| ==> order[k] < |tasks|
    requires Open(m) && m.calls == [] && Predicted(plan, env.date) == Some(w) && w > 0.0 && s > 0.0 && env.caps.maxSpendUsd > 0.0
    requires total == w * |tasks| as real + s
    requires var share := ProportionalBudget(w, total, env.caps.maxSpendUsd);
             forall i :: 0 <= i < |begun| && begun[i].Begun? ==> begun[i].budget <= share
    requires forall i :: 0 <= i < |begun| && begun[i].Denied? ==> !IsSpendFailure(begun[i].failure)
    requires Frugal(SettleWorkers(env, m, tasks, plan, begun, replies, order).0)
    ensures NoSpendFailure(SettleWorkers(env, m, tasks, plan, begun, replies, order).1)
  {
    hide Settle, Settling, SubtasksOk, Books, Predicted, ProportionalBudget, Frugal;
    if order != [] {
      var share := ProportionalBudget(w, total, env.caps.maxSpendUsd);
      var front, i := order[..|order| - 1], order[|order| - 1];
      SettleWorkersKeep(env, m, tasks, plan, begun, replies, front, w, share);
      SettleWorkersKeep(env, m, tasks, plan, begun, replies, order, w, share);
      var (before, settled) := SettleWorkers(env, m, tasks, plan, begun, replies, front);
      SettlingIsOpen(before, tasks, front, settled, w, share);
      SettleKeeps(env, before, tasks[i], plan, begun[i], replies[i], w);
      var (a, all) := SettleWorkers(env, m, tasks, plan, begun, replies, order);
      FrugalBefore(before, a) by { BooksLengths(before); }
      SettleWorkersThrifty(env, m, tasks, plan, begun, replies, front, w, s, total);
      ShareIsLeft(a, tasks, order, all, w, s, total, env.caps.maxSpendUsd);
      SharesAddUp(w, s, |tasks|, total, env.caps.maxSpendUsd);
    }
  }

  lemma BooksLengths(m: Meter)
    requires Open(m)
    ensures |m.budgets| == |m.calls|
  {
  }

  /**
   If no call costs more than the budget it was given, then for any number of workers finishing in
   any order: no spend check ever stops a worker, and when all have settled the synthesizer still
   has at least its proportional share of the cap.
   */
  lemma WorkersLeaveShare(tasks: seq<Subtask>, worker: Plan, caps: Caps, date: Date, clock: nat -> int, replies: seq<Reply>,
                          order: seq<nat>, w: real, s: real)
    requires |tasks| == |replies| && SubtasksOk(tasks) && IsOrder(order, |tasks|) && CapsOk(caps)
    requires Predicted(worker, date) == Some(w) && w > 0.0 && s > 0.0
    requires var env := FanOutEnv(|tasks|, w, s, caps, date, clock);
             Frugal(Workers(env, tasks, worker, ProportionalBudget(w, env.predicted, caps.maxSpendUsd), replies, order).0)
    ensures var env := FanOutEnv(|tasks|, w, s, caps, date, clock);
            var (m, settled) := Workers(env, tasks, worker, ProportionalBudget(w, env.predicted, caps.maxSpendUsd), replies, order);
            && NoSpendFailure(settled)
            && m.cost + ProportionalBudget(s, env.predicted, caps.maxSpendUsd) <= caps.maxSpendUsd
            && ProportionalBudget(s, env.predicted, caps.maxSpendUsd) > 0.0
  {
    hide SettleWorkers, BeginWorkers, Settling, SubtasksOk, Books, Predicted, ProportionalBudget, NoSpendFailure, Frugal;
    var env := FanOutEnv(|tasks|, w, s, caps, date, clock);
    var share := ProportionalBudget(w, env.predicted, caps.maxSpendUsd);
    SharesAddUp(w, s, |tasks|, env.predicted, caps.maxSpendUsd);
    NewIsOpen(env);
    BeginWorkersKeep(env, NewMeter(env), |tasks|, share);
    BeginNeverShort(env, NewMeter(env), |tasks|, share);
    var (b, begun) := BeginWorkers(env, NewMeter(env), |tasks|, share);
    SettleWorkersKeep(env, b, tasks, worker, begun, replies, order, w, share);
    SettleWorkersThrifty(env, b, tasks, worker, begun, replies, order, w, s, env.predicted);
    var (m, settled) := SettleWorkers(env, b, tasks, worker, begun, replies, order);
    ShareIsLeft(m, tasks, order, settled, w, s, env.predicted, caps.maxSpendUsd);
  }

  // A sequential call is given all that is left, so a frugal one cannot overrun the cap.

  /** While calls are frugal, spend is within the cap. */
  ghost predicate Kept(caps: Caps, m: Meter) {
    Frugal(m) ==> m.cost <= caps.maxSpendUsd
  }

  lemma InvokeThrifty(env: Env, m: Meter, role: Role, plan: Plan, reply: Reply, p: real)
    requires Open(m) && Kept(env.caps, m) && Predicted(plan, env.date) == Some(p) && p > 0.0
    ensures var (a, failure) := Invoke(env, m, role, plan, reply);
            && Open(a) && Kept(env.caps, a) && (failure == Some(SpendExceeded) ==> !Frugal(a))
            && (failure.None? ==> reply.Answers?)
  {
    hide Invoke, Predicted, SumUsage;
    InvokeKeeps(env, m, role, plan, reply, p);
    var a := Invoke(env, m, role, plan, reply).0;
    if Frugal(a) {
      FrugalBefore(m, a);
      if a.calls != m.calls {
        assert a.calls[..|m.calls|] == m.calls;
        assert a.calls[|m.calls|].cost <= a.budgets[|m.calls|];
      }
    }
  }

  /** What a frugal run promises about spend: within the cap, and not stopped by the check after a call. */
  ghost predicate Thrifty<T>(caps: Caps, run: Run<T>) {
    run.meter.Some? && Frugal(run.meter.value) ==> run.meter.value.cost <= caps.maxSpendUsd && run.outcome != Threw(SpendExceeded)
  }

  lemma FailingThrifty<T>(env: Env, m: Meter, f: Failure)
    requires Open(m) && Kept(env.caps, m) && (f == SpendExceeded ==> !Frugal(m))
    ensures Thrifty<T>(env.caps, Failing(env, m, f))
  {
    hide ReceiptOf, Books;
  }

  lemma CompleteThrifty(env: Env, m: Meter)
    requires Open(m) && Kept(env.caps, m)
    ensures var (d, spend) := Complete(env, m);
            && (Frugal(d) <==> Frugal(m)) && d.cost == m.cost && Kept(env.caps, d)
            && (spend.Threw? ==> Open(d) && (spend.failure == SpendExceeded ==> !Frugal(d)))
  {
    hide SortText, AllModels, Sorting.Distinct, Books;
    CompleteCloses(env, m);
  }

  /** A frugal fan-out stays within the cap to the end; its synthesizer is given at least its share. */
  lemma FanOutIsThrifty(tasks: seq<Subtask>, worker: Plan, synthesizer: Plan, caps: Caps, date: Date, clock: nat -> int,
                        replies: seq<Reply>, order: seq<nat>, last: Reply)
    requires |tasks| == |replies| && IsOrder(order, |tasks|)
    ensures var run := FanOut(tasks, worker, synthesizer, caps, date, clock, replies, order, last);
            && Thrifty(caps, run)
            && (run.meter.Some? && Frugal(run.meter.value) && run.outcome.Threw? && IsSpendFailure(run.outcome.failure) ==> false)
            && (run.outcome.Done? && Frugal(run.meter.value) ==>
                  && Predicted(worker, date).Some? && Predicted(synthesizer, date).Some? && run.meter.value.budgets != []
                  && var w, s := Predicted(worker, date).value, Predicted(synthesizer, date).value;
                     run.meter.value.budgets[|run.meter.value.budgets| - 1]
                       >= ProportionalBudget(s, FanOutEnv(|tasks|, w, s, caps, date, clock).predicted, caps.maxSpendUsd))
  {
    hide Workers, Synthesize, Predicted, Failing, SubtasksOk, Books, Settling, FirstRejected, Frugal, ProportionalBudget;
    if SubtasksOk(tasks) && CapsOk(caps) && PlanOk(worker) && PlanOk(synthesizer)
       && Predicted(worker, date).Some? && Predicted(synthesizer, date).Some? {
      var w, s := Predicted(worker, date).value, Predicted(synthesizer, date).value;
      PredictedPositive(worker, date);
      PredictedPositive(synthesizer, date);
      var env := FanOutEnv(|tasks|, w, s, caps, date, clock);
      if env.predicted > caps.maxSpendUsd {
        FreshThrifty<FanOutResult>(env);
      } else {
        var share := ProportionalBudget(w, env.predicted, caps.maxSpendUsd);
        WorkersKeep(env, tasks, worker, share, replies, order, w);
        var (m, settled) := Workers(env, tasks, worker, share, replies, order);
        SettlingIsOpen(m, tasks, order, settled, w, share);
        if Frugal(m) {
          WorkersLeaveShare(tasks, worker, caps, date, clock, replies, order, w, s);
        }
        if FirstRejected(settled).Some? {
          FirstRejectedHolds(settled);
          FailingKeepsBooks<FanOutResult>(env, m, FirstRejected(settled).value);
        } else {
          SharesAddUp(w, s, |tasks|, env.predicted, caps.maxSpendUsd);
          SynthesizeThrifty(env, m, synthesizer, last, Outputs(tasks, settled), s, ProportionalBudget(s, env.predicted, caps.maxSpendUsd));
        }
      }
    }
  }

  lemma FreshThrifty<T>(env: Env)
    requires CapsOk(env.caps)
    ensures var run: Run<T> := Failing(env, NewMeter(env), PredictedSpend);
            run.outcome == Threw(PredictedSpend) && run.meter.Some? && run.meter.value.cost == 0.0
  {
  }

  /** Failing changes neither the calls nor the spend. */
  lemma FailingKeepsBooks<T>(env: Env, m: Meter, f: Failure)
    requires Open(m)
    ensures var run: Run<T> := Failing(env, m, f);
            run.outcome == Threw(f) && run.meter.Some? && (Frugal(run.meter.value) <==> Frugal(m)) && run.meter.value.cost == m.cost
            && run.meter.value.budgets == m.budgets
  {
    hide ReceiptOf, Books;
  }

  lemma SynthesizeThrifty(env: Env, m: Meter, plan: Plan, reply: Reply, outputs: seq<WorkerOutput>, s: real, share: real)
    requires Open(m) && Predicted(plan, env.date) == Some(s) && s > 0.0 && share > 0.0
    requires Frugal(m) ==> m.cost + share <= env.caps.maxSpendUsd
    ensures var run := Synthesize(env, m, plan, reply, outputs);
            && Thrifty(env.caps, run) && run.meter.Some?
            && (Frugal(run.meter.value) && run.outcome.Threw? ==> !IsSpendFailure(run.outcome.failure))
            && (run.outcome.Done? && Frugal(run.meter.value) ==>
                  run.meter.value.budgets != [] && run.meter.value.budgets[|run.meter.value.budgets| - 1] >= share)
  {
    hide Invoke, ParseSynthesis, Complete, Predicted, Books, Frugal, Failing, OverCaps, ReceiptOf;
    InvokeThrifty(env, m, Synthesizer, plan, reply, s);
    InvokeKeeps(env, m, Synthesizer, plan, reply, s);
    var (a, failure) := Invoke(env, m, Synthesizer, plan, reply);
    if Frugal(a) { FrugalBefore(m, a) by { BooksLengths(m); } }
    FailingKeepsBooks<FanOutResult>(env, a, if failure.Some? then failure.value else Malformed);
    if failure.None? {
      CompleteThrifty(env, a);
      CompleteCloses(env, a);
      var (done, spend) := Complete(env, a);
      if spend.Threw? {
        FailingKeepsBooks<FanOutResult>(env, done, spend.failure);
        OverCapsSpend(env.caps, ReceiptOf(env, a));
      }
    }
  }

  lemma OverCapsSpend(caps: Caps, r: Receipt)
    ensures OverCaps(caps, r) != Some(NoBudget) && OverCaps(caps, r) != Some(SpendExhausted)
  {
  }

  /** One iteration of a loop that was within its cap so far. */
  lemma IterationThrifty(env: Env, m: Meter, rubric: seq<Criterion>, maker: Plan, verifier: Plan, i: nat, made: Reply, verified: Reply,
                         a: real, b: real)
    requires Open(m) && Kept(env.caps, m)
    requires Predicted(maker, env.date) == Some(a) && Predicted(verifier, env.date) == Some(b) && a > 0.0 && b > 0.0
    ensures match Iteration(env, m, rubric, maker, verifier, i, made, verified)
            case Again(c) => Open(c) && Kept(env.caps, c)
            case Stop(run) => Thrifty(env.caps, run)
  {
    hide Invoke, ParseVerification, ParseOutput, FailuresOk, Complete, Books, Failing, Frugal, Predicted, Thrifty, Kept;
    InvokeThrifty(env, m, LoopMaker(i), maker, made, a);
    var (p, failure) := Invoke(env, m, LoopMaker(i), maker, made);
    FailingThrifty<LoopResult>(env, p, if failure.Some? then failure.value else Malformed);
    if failure.None? {
      InvokeThrifty(env, p, LoopVerifier(i), verifier, verified, b);
      var (c, failed) := Invoke(env, p, LoopVerifier(i), verifier, verified);
      FailingThrifty<LoopResult>(env, c, if failed.Some? then failed.value else Malformed);
      if failed.None? {
        CompleteThrifty(env, c);
        var (done, spend) := Complete(env, c);
        if spend.Threw? {
          FailingThrifty<LoopResult>(env, done, spend.failure);
        } else {
          var output := ParseOutput(made.completion.text, "candidate");
          DoneThrifty(env.caps, LoopResult(if output.Some? then output.value else "", i, true, spend.value), done);
        }
      }
    }
  }

  lemma DoneThrifty<T>(caps: Caps, result: T, done: Meter)
    requires Kept(caps, done)
    ensures Thrifty(caps, Run(Done(result), Some(done)))
  {
  }

  lemma {:induction false} IterateThrifty(env: Env, m: Meter, rubric: seq<Criterion>, maker: Plan, verifier: Plan, max: nat, i: nat,
                                          replies: nat -> Reply, a: real, b: real)
    requires 1 <= i <= max + 1 && Open(m) && Kept(env.caps, m)
    requires Predicted(maker, env.date) == Some(a) && Predicted(verifier, env.date) == Some(b) && a > 0.0 && b > 0.0
    ensures Thrifty(env.caps, Iterate(env, m, rubric, maker, verifier, max, i, replies))
    decreases max + 1 - i
  {
    hide Iteration, Books, Kept, Thrifty, Predicted, Failing;
    if i > max {
      FailingThrifty<LoopResult>(env, m, IterationCap);
    } else {
      IterationThrifty(env, m, rubric, maker, verifier, i, replies(2 * i - 2), replies(2 * i - 1), a, b);
      match Iteration(env, m, rubric, maker, verifier, i, replies(2 * i - 2), replies(2 * i - 1))
      case Stop(_) =>
      case Again(c) => IterateThrifty(env, c, rubric, maker, verifier, max, i + 1, replies, a, b);
    }
  }

  lemma FreshIsKept(env: Env)
    requires CapsOk(env.caps)
    ensures Open(NewMeter(env)) && Kept(env.caps, NewMeter(env))
  {
    NewIsOpen(env);
  }

  lemma LoopStartThrifty(env: Env, rubric: seq<Criterion>, maker: Plan, verifier: Plan, max: nat, replies: nat -> Reply, a: real, b: real)
    requires CapsOk(env.caps)
    requires Predicted(maker, env.date) == Some(a) && Predicted(verifier, env.date) == Some(b) && a > 0.0 && b > 0.0
    ensures Thrifty(env.caps, if env.predicted > env.caps.maxSpendUsd then Failing<LoopResult>(env, NewMeter(env), PredictedSpend)
                              else Iterate(env, NewMeter(env), rubric, maker, verifier, max, 1, replies))
  {
    hide Iterate, Predicted, Failing, Kept, Books, Frugal, NewMeter, Thrifty, CapsOk;
    FreshIsKept(env);
    FailingThrifty<LoopResult>(env, NewMeter(env), PredictedSpend);
    IterateThrifty(env, NewMeter(env), rubric, maker, verifier, max, 1, replies, a, b);
  }

  /** A frugal loop stays within the cap over all its iterations, and the check after a call never stops it. */
  lemma LoopIsThrifty(task: string, rubric: seq<Criterion>, maker: Plan, verifier: Plan, caps: Caps, max: int, date: Date,
                      clock: nat -> int, replies: nat -> Reply)
    ensures Thrifty(caps, Loop(task, rubric, maker, verifier, caps, max, date, clock, replies))
  {
    hide Iterate, Predicted, Failing, Bounded, RubricOk, Kept, Books, Frugal, NewMeter, CapsOk, LoopEnv;
    if Bounded(task, 20_000) && CapsOk(caps) && max > 0 && PlanOk(maker) && PlanOk(verifier) && RubricOk(rubric)
       && Predicted(maker, date).Some? && Predicted(verifier, date).Some? {
      var a, b := Predicted(maker, date).value, Predicted(verifier, date).value;
      PredictedPositive(maker, date);
      PredictedPositive(verifier, date);
      var env := LoopEnv(max, a, b, caps, date, clock);
      LoopStartThrifty(env, rubric, maker, verifier, max, replies, a, b);
    }
  }

  lemma JudgeThrifty(env: Env, m: Meter, judge: Plan, judged: Reply, made: string, criticism: Criticism, p: real)
    requires Open(m) && Kept(env.caps, m) && Predicted(judge, env.date) == Some(p) && p > 0.0
    ensures Thrifty(env.caps, JudgeTurn(env, m, judge, judged, made, criticism))
  {
    hide Invoke, ParseJudgement, Complete, Books, Failing, Frugal, Predicted;
    InvokeThrifty(env, m, Judge, judge, judged, p);
    var (a, failure) := Invoke(env, m, Judge, judge, judged);
    FailingThrifty<AdversarialResult>(env, a, if failure.Some? then failure.value else Malformed);
    if failure.None? {
      CompleteThrifty(env, a);
      CompleteCloses(env, a);
      var (done, spend) := Complete(env, a);
      if spend.Threw? {
        FailingThrifty<AdversarialResult>(env, done, spend.failure);
      } else {
        LateFailure(env, done, Malformed);
      }
    }
  }

  lemma CriticThrifty(env: Env, m: Meter, critic: Plan, judge: Plan, criticized: Reply, judged: Reply, made: string, b: real, c: real)
    requires Open(m) && Kept(env.caps, m)
    requires Predicted(critic, env.date) == Some(b) && b > 0.0 && Predicted(judge, env.date) == Some(c) && c > 0.0
    ensures Thrifty(env.caps, CriticTurn(env, m, critic, judge, criticized, judged, made))
  {
    hide Invoke, ParseCriticism, Books, Failing, Frugal, Predicted, Thrifty, Kept, JudgeTurn;
    InvokeThrifty(env, m, Critic, critic, criticized, b);
    var (a, failure) := Invoke(env, m, Critic, critic, criticized);
    FailingThrifty<AdversarialResult>(env, a, if failure.Some? then failure.value else Malformed);
    if failure.None? && ParseCriticism(criticized.completion.text).Some? {
      JudgeThrifty(env, a, judge, judged, made, ParseCriticism(criticized.completion.text).value, c);
    }
  }

  /** A frugal adversarial run stays within the cap, and the check after a call never stops it. */
  lemma AdversarialIsThrifty(task: string, maker: Plan, critic: Plan, judge: Plan, caps: Caps, date: Date, clock: nat -> int,
                             made: Reply, criticized: Reply, judged: Reply)
    ensures Thrifty(caps, Adversarial(task, maker, critic, judge, caps, date, clock, made, criticized, judged))
  {
    hide CriticTurn, Predicted, Failing, Bounded, Kept, Books, Invoke, ParseOutput, Thrifty;
    if Bounded(task, 20_000) && CapsOk(caps) && PlanOk(maker) && PlanOk(critic) && PlanOk(judge)
       && Predicted(maker, date).Some? && Predicted(critic, date).Some? && Predicted(judge, date).Some? {
      var a, b, c := Predicted(maker, date).value, Predicted(critic, date).value, Predicted(judge, date).value;
      PredictedPositive(maker, date);
      PredictedPositive(critic, date);
      PredictedPositive(judge, date);
      var env := Env(AdversarialPattern, a + b + c, caps, date, clock);
      var m := NewMeter(env);
      FreshIsKept(env);
      FailingThrifty<AdversarialResult>(env, m, PredictedSpend);
      InvokeThrifty(env, m, Maker, maker, made, a);
      var (after, failure) := Invoke(env, m, Maker, maker, made);
      FailingThrifty<AdversarialResult>(env, after, if failure.Some? then failure.value else Malformed);
      if failure.None? && ParseOutput(made.completion.text, "output").Some? {
        CriticThrifty(env, after, critic, judge, criticized, judged, ParseOutput(made.completion.text, "output").value, b, c);
      }
    } else {
      NoMeterThrifty(caps, Adversarial(task, maker, critic, judge, caps, date, clock, made, criticized, judged));
    }
  }

  lemma NoMeterThrifty<T>(caps: Caps, run: Run<T>)
    requires run.meter.None?
    ensures Thrifty(caps, run)
  {
  }
}
