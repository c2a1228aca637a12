/**
 What every run of the three patterns guarantees: one truthful log entry, a budget that is kept,
 and evidence the independent checker accepts.
 */
module OrchestrationTheorems {
  import opened Basics
  import opened Routing
  import opened Cost
  import opened Sorting
  import opened Texts
  import opened Provider
  import opened Orchestration
  import opened OrchestrationEvidence

  // ---- The meter's books -------------------------------------------------------------------------

  /** Totals are the sums over the recorded calls, and every recorded call is in order. */
  ghost predicate Books(m: Meter) {
    && m.cost == SumCost(m.calls) && m.usage == SumUsage(m.calls) && |m.budgets| == |m.calls|
    && forall i :: 0 <= i < |m.calls| ==> CallOk(m.calls[i])
  }

  ghost predicate Open(m: Meter) { m.log == [] && Books(m) }

  /** Exactly one entry was written, and it tells all calls there ever were. */
  ghost predicate Closed(env: Env, m: Meter) {
    && |m.log| == 1 && Books(m) && m.log[0].pattern == env.pattern
    && m.log[0].receipt.calls == m.calls
    && m.log[0].receipt.predicted == env.predicted
    && m.log[0].receipt.cost == SumCost(m.calls)
    && m.log[0].receipt.usage == SumUsage(m.calls)
    && m.log[0].receipt.models == SortText(Sorting.Distinct(AllModels(m.calls)))
    && m.log[0].receipt.elapsed >= 0
  }

  /** `n` lies within the spend and token caps. */
  ghost predicate Affordable(caps: Caps, m: Meter) {
    m.cost <= caps.maxSpendUsd && TokenTotal(m.usage) <= caps.maxTokens
  }

  ghost function CallOf(role: Role, plan: Plan, predicted: real, c: Completion): Call {
    Call(role, plan.model, c.models, predicted, c.cost, c.usage)
  }

  lemma NewIsOpen(env: Env)
    ensures Open(NewMeter(env))
  {
  }

  lemma BeginKeeps(env: Env, m: Meter, share: Option<real>)
    ensures var (b, begun) := Begin(env, m, share);
            && b.calls == m.calls && b.cost == m.cost && b.usage == m.usage && b.log == m.log && b.budgets == m.budgets
            && b.started == m.started
  {
  }

  lemma RecordKeeps(env: Env, m: Meter, role: Role, plan: Plan, budget: real, c: Completion, predicted: real)
    requires Books(m) && CompletionOk(c, plan.model) && Predicted(plan, env.date) == Some(predicted) && predicted > 0.0
    ensures var r := Record(env, m, role, plan, budget, c);
            Books(r) && r.calls == m.calls + [CallOf(role, plan, predicted, c)] && r.budgets == m.budgets + [budget] && r.log == m.log
  {
    hide Predicted, SumCost, SumUsage, AddUsage, CallOk, CompletionOk;
    var call := CallOf(role, plan, predicted, c);
    SumsGrow(m.calls, call);
    RecordedCallOk(role, plan, env.date, c, predicted);
  }

  lemma SumsGrow(calls: seq<Call>, call: Call)
    ensures SumCost(calls + [call]) == SumCost(calls) + call.cost && SumUsage(calls + [call]) == AddUsage(SumUsage(calls), call.usage)
  {
    assert (calls + [call])[..|calls|] == calls;
  }

  lemma RecordedCallOk(role: Role, plan: Plan, date: Date, c: Completion, predicted: real)
    requires CompletionOk(c, plan.model) && Predicted(plan, date) == Some(predicted) && predicted > 0.0
    ensures CallOk(CallOf(role, plan, predicted, c))
  {
    hide Predicted;
    PricedIsRegistered(plan, date);
  }

  lemma PricedIsRegistered(plan: Plan, date: Date)
    requires Predicted(plan, date).Some?
    ensures Registered(plan.model)
  {
  }

  /** What resuming from one provider call does to the meter. */
  lemma FinishKeeps(env: Env, m: Meter, role: Role, plan: Plan, budget: real, reply: Reply, predicted: real)
    requires Open(m) && Predicted(plan, env.date) == Some(predicted) && predicted > 0.0
    ensures var (a, failure) := Finish(env, m, role, plan, budget, reply);
            && Open(a)
            && ((a.calls == m.calls && a.budgets == m.budgets && a.cost == m.cost)
                || (reply.Answers? && a.calls == m.calls + [CallOf(role, plan, predicted, reply.completion)]
                    && a.budgets == m.budgets + [budget]))
            && (failure.None? ==> reply.Answers? && Affordable(env.caps, a) && |a.calls| == |m.calls| + 1)
            && (failure == Some(SpendExceeded) ==> a.cost > env.caps.maxSpendUsd && |a.calls| == |m.calls| + 1)
            && failure != Some(NoBudget) && failure != Some(SpendExhausted) && failure != Some(IterationCap)
  {
    hide Books, Predicted, SortText, AllModels, CompletionOk, Sorting.Distinct, Record;
    if reply.Answers? && CompletionOk(reply.completion, plan.model) {
      RecordKeeps(env, m, role, plan, budget, reply.completion, predicted);
      TickKeeps(Record(env, m, role, plan, budget, reply.completion));
    }
  }

  lemma TickKeeps(m: Meter)
    requires Books(m)
    ensures Books(Tick(m))
  {
  }

  lemma InvokeKeeps(env: Env, m: Meter, role: Role, plan: Plan, reply: Reply, predicted: real)
    requires Open(m) && Predicted(plan, env.date) == Some(predicted) && predicted > 0.0
    ensures var (a, failure) := Invoke(env, m, role, plan, reply);
            && Open(a)
            && ((a.calls == m.calls && a.cost == m.cost && a.budgets == m.budgets)
                || (reply.Answers? && a.calls == m.calls + [CallOf(role, plan, predicted, reply.completion)]
                    && a.budgets == m.budgets + [env.caps.maxSpendUsd - m.cost]))
            && (failure.None? ==> reply.Answers? && Affordable(env.caps, a) && |a.calls| == |m.calls| + 1)
            && (failure == Some(SpendExceeded) ==> a.cost > env.caps.maxSpendUsd && |a.calls| == |m.calls| + 1)
            && (failure == Some(NoBudget) || failure == Some(SpendExhausted) ==> m.cost >= env.caps.maxSpendUsd)
            && failure != Some(IterationCap)
  {
    hide Finish, Predicted, SumCost, SumUsage;
    var (b, begun) := Begin(env, m, None);
    BeginKeeps(env, m, None);
    assert Open(b);
    if begun.Begun? {
      FinishKeeps(env, b, role, plan, begun.budget, reply, predicted);
    }
  }

  lemma EmitCloses(env: Env, m: Meter, status: Status)
    requires Open(m)
    ensures Closed(env, Emit(env, m, status)) && Emit(env, m, status).calls == m.calls
    ensures Emit(env, m, status).log == [Entry(env.pattern, ReceiptOf(env, m), status)]
    ensures Emit(env, m, status).budgets == m.budgets
  {
    hide SortText, AllModels, Sorting.Distinct, SumCost, SumUsage;
  }

  // ---- One entry per run -------------------------------------------------------------------------

  /**
   Once a meter exists, the run leaves exactly one entry, whose cost, usage and models are those of
   all calls ever recorded; a returned result means a completed entry equal to the returned receipt,
   and a failed entry carries the code of what was thrown.
   */
  ghost predicate Accounted<T>(env: Env, run: Run<T>, spend: T -> Receipt) {
    && run.meter.Some? && Closed(env, run.meter.value)
    && (run.outcome.Done? ==> run.meter.value.log[0].status == Completed
                              && spend(run.outcome.value) == run.meter.value.log[0].receipt)
    && (run.outcome.Threw? && run.meter.value.log[0].status != Completed ==>
          run.meter.value.log[0].status == Failed(CodeOf(run.outcome.failure)))
  }

  lemma FailingAccounts<T>(env: Env, m: Meter, f: Failure, spend: T -> Receipt)
    requires Open(m)
    ensures var run: Run<T> := Failing(env, m, f);
            Accounted(env, run, spend) && run.outcome == Threw(f) && run.meter.value.calls == m.calls && run.meter.value.budgets == m.budgets
            && run.meter.value.log[0] == Entry(env.pattern, ReceiptOf(env, m), Failed(CodeOf(f)))
  {
    hide Closed, Books, ReceiptOf, Emit;
    EmitCloses(env, m, Failed(CodeOf(f)));
  }

  /** `complete()` either closes the books or, having only read the clock, leaves them open. */
  lemma CompleteCloses(env: Env, m: Meter)
    requires Open(m)
    ensures var (d, spend) := Complete(env, m);
            && d.calls == m.calls && d.budgets == m.budgets
            && (spend.Done? ==> Closed(env, d) && OverCaps(env.caps, ReceiptOf(env, m)).None?
                                && d.log == [Entry(env.pattern, ReceiptOf(env, m), Completed)] && spend.value == ReceiptOf(env, m))
            && (spend.Threw? ==> Open(d) && d == Tick(m) && OverCaps(env.caps, ReceiptOf(env, m)) == Some(spend.failure))
  {
    hide Closed, ReceiptOf, Emit, OverCaps;
    EmitCloses(env, m, Completed);
    TickKeeps(m);
  }

  // ---- What the checker recomputes ---------------------------------------------------------------

  lemma {:induction false} SumsNonNegative(calls: seq<Call>)
    requires forall i :: 0 <= i < |calls| ==> CallOk(calls[i])
    ensures SumCost(calls) >= 0.0 && UsageOk(SumUsage(calls))
  {
    if calls != [] {
      SumsNonNegative(calls[..|calls| - 1]);
      assert CallOk(calls[|calls| - 1]);
    }
  }

  lemma {:induction false} AllModelsOk(calls: seq<Call>)
    requires forall i :: 0 <= i < |calls| ==> CallOk(calls[i])
    ensures forall x :: x in AllModels(calls) ==> x != ""
    ensures calls != [] ==> AllModels(calls) != []
  {
    if calls != [] {
      AllModelsOk(calls[..|calls| - 1]);
      var last := calls[|calls| - 1];
      assert CallOk(last);
      forall x | x in AllModels(calls) ensures x != "" {
        if x !in AllModels(calls[..|calls| - 1]) {
          var i :| 0 <= i < |last.models| && last.models[i] == x;
        }
      }
    }
  }

  lemma ReportedModels(calls: seq<Call>)
    requires calls != [] && forall i :: 0 <= i < |calls| ==> CallOk(calls[i])
    ensures ModelsOk(SortText(Sorting.Distinct(AllModels(calls))))
    ensures SortText(SortText(Sorting.Distinct(AllModels(calls)))) == SortText(Sorting.Distinct(AllModels(calls)))
  {
    hide SortText, Sorting.Distinct, AllModels;
    var all := AllModels(calls);
    AllModelsOk(calls);
    DistinctHolds(all);
    SortTextHolds(Sorting.Distinct(all));
    SortTextAgrees(Sorting.Distinct(all), SortText(Sorting.Distinct(all)));
    assert all[0] in SortText(Sorting.Distinct(all));
    forall i | 0 <= i < |SortText(Sorting.Distinct(all))| ensures SortText(Sorting.Distinct(all))[i] != "" {
      assert SortText(Sorting.Distinct(all))[i] in all;
    }
  }

  /** A receipt taken from affordable books passes every recomputation; only the clock is left open. */
  lemma ReceiptPasses(env: Env, m: Meter)
    requires Books(m) && m.calls != [] && NoDuplicates(Roles(m.calls)) && CapsOk(env.caps) && Affordable(env.caps, m)
    requires 0.0 < env.predicted <= env.caps.maxSpendUsd && SumPredicted(m.calls) <= env.predicted
    ensures var r := ReceiptOf(env, m);
            && CallsOk(r.calls) && Totals(r)
            && (WithinCaps(r, env.caps) <==> r.elapsed <= env.caps.maxWallClockMs)
  {
    hide SortText, Sorting.Distinct, AllModels, SumCost, SumUsage, SumPredicted, CallOk, ModelsOk;
    SumsNonNegative(m.calls);
    ReportedModels(m.calls);
  }

  // ---- Loop until done ---------------------------------------------------------------------------

  /** After `i` whole iterations. */
  ghost predicate LoopSoFar(env: Env, m: Meter, i: nat, per: real) {
    && Open(m) && Roles(m.calls) == LoopRoles(i) && SumPredicted(m.calls) == i as real * per
    && (i > 0 ==> Affordable(env.caps, m))
  }

  lemma PushCall(calls: seq<Call>, c: Call)
    ensures SumPredicted(calls + [c]) == SumPredicted(calls) + c.predicted
    ensures Roles(calls + [c]) == Roles(calls) + [c.role]
  {
    assert (calls + [c])[..|calls|] == calls;
  }

  lemma {:induction false} LoopRolesDistinct(n: nat)
    ensures NoDuplicates(LoopRoles(n))
    ensures forall k :: 0 <= k < 2 * n ==> LoopRoles(n)[k] == if k % 2 == 0 then LoopMaker(k / 2 + 1) else LoopVerifier(k / 2 + 1)
  {
    if n > 0 { LoopRolesDistinct(n - 1); }
  }

  function LoopSpend(r: LoopResult): Receipt { r.spend }

  ghost function LoopEvidence(mode: Mode, ids: seq<string>, caps: Caps, max: int, run: Run<LoopResult>): Evidence
    requires run.meter.Some? && run.meter.value.log != []
  {
    Evidence(mode, LoopUntilDone, ids, caps, Some(max), run.outcome == Threw(IterationCap),
             if run.outcome.Done? then Some(LoopR(run.outcome.value)) else None, run.meter.value.log[0])
  }

  /** The evidence a packager writes for this run is accepted: always if it finished, on time if it gave up. */
  ghost predicate LoopAccepted(run: Run<LoopResult>, mode: Mode, ids: seq<string>, caps: Caps, max: int)
    requires run.meter.Some? && run.meter.value.log != []
  {
    var r := run.meter.value.log[0].receipt;
    && (run.outcome.Done? && ModeOk(mode, r) ==> ValidEvidence(LoopEvidence(mode, ids, caps, max, run)))
    && (run.outcome == Threw(IterationCap) && ModeOk(mode, r) ==>
          (ValidEvidence(LoopEvidence(mode, ids, caps, max, run)) <==> r.elapsed <= caps.maxWallClockMs))
  }

  /** One iteration: it stops the run, accounted for, or completes two more calls. */
  lemma IterationHolds(env: Env, m: Meter, rubric: seq<Criterion>, maker: Plan, verifier: Plan, i: nat, made: Reply, verified: Reply,
                       a: real, b: real)
    requires i >= 1 && LoopSoFar(env, m, i - 1, a + b) && env.pattern == LoopUntilDone
    requires Predicted(maker, env.date) == Some(a) && Predicted(verifier, env.date) == Some(b) && a > 0.0 && b > 0.0
    ensures match Iteration(env, m, rubric, maker, verifier, i, made, verified)
            case Again(c) => LoopSoFar(env, c, i, a + b)
            case Stop(run) =>
              && Accounted(env, run, LoopSpend)
              && run.outcome != Threw(IterationCap)
              && (run.meter.value.log[0].status == Completed <==> run.outcome.Done?)
              && (run.outcome.Done? ==>
                    exists c :: LoopSoFar(env, c, i, a + b) && run.meter.value.log[0].receipt == ReceiptOf(env, c)
                             && OverCaps(env.caps, ReceiptOf(env, c)).None?
                             && run.outcome.value.verified && run.outcome.value.iterations == i && !Blank(run.outcome.value.output))
  {
    hide Invoke, ParseVerification, FailuresOk, Complete, Closed, Books, Failing, ReceiptOf, Affordable, SumPredicted, Roles, Blank,
         OverCaps, LoopRoles;
    InvokeKeeps(env, m, LoopMaker(i), maker, made, a);
    var (p, failure) := Invoke(env, m, LoopMaker(i), maker, made);
    if failure.Some? {
      FailingAccounts(env, p, failure.value, LoopSpend);
    } else {
      FailingAccounts(env, p, Malformed, LoopSpend);
      InvokeKeeps(env, p, LoopVerifier(i), verifier, verified, b);
      var (c, failed) := Invoke(env, p, LoopVerifier(i), verifier, verified);
      if failed.Some? {
        FailingAccounts(env, c, failed.value, LoopSpend);
      } else {
        FailingAccounts(env, c, Malformed, LoopSpend);
        TwoMore(env, m, p, c, i, a, b);
        CompleteCloses(env, c);
        var (done, spend) := Complete(env, c);
        if spend.Threw? {
          FailingAccounts(env, done, spend.failure, LoopSpend);
          OverCapsCodes(env.caps, ReceiptOf(env, c));
        }
      }
    }
  }

  lemma OverCapsCodes(caps: Caps, r: Receipt)
    ensures OverCaps(caps, r) != Some(IterationCap)
  {
  }

  lemma OneMore(i: nat, per: real)
    requires i >= 1
    ensures (i - 1) as real * per + per == i as real * per
  {
    assert (i - 1) as real == i as real - 1.0;
  }

  /** Two calls more: the role list grows by a pair and the predictions by their sum. */
  lemma PushPair(calls: seq<Call>, a: Call, b: Call)
    ensures Roles(calls + [a] + [b]) == Roles(calls) + [a.role, b.role]
    ensures SumPredicted(calls + [a] + [b]) == SumPredicted(calls) + (a.predicted + b.predicted)
  {
    hide SumPredicted, Roles;
    PushCall(calls, a);
    PushCall(calls + [a], b);
    assert Roles(calls) + [a.role] + [b.role] == Roles(calls) + [a.role, b.role];
  }

  lemma TwoMore(env: Env, m: Meter, p: Meter, c: Meter, i: nat, a: real, b: real)
    requires i >= 1 && LoopSoFar(env, m, i - 1, a + b) && Open(c) && Affordable(env.caps, c)
    requires |p.calls| == |m.calls| + 1 && p.calls[..|m.calls|] == m.calls
    requires |c.calls| == |p.calls| + 1 && c.calls[..|p.calls|] == p.calls
    requires p.calls[|m.calls|].role == LoopMaker(i) && p.calls[|m.calls|].predicted == a
    requires c.calls[|p.calls|].role == LoopVerifier(i) && c.calls[|p.calls|].predicted == b
    ensures LoopSoFar(env, c, i, a + b)
  {
    hide SumPredicted, Books, Affordable, Roles;
    var first, second := p.calls[|m.calls|], c.calls[|p.calls|];
    assert c.calls == m.calls + [first] + [second];
    PushPair(m.calls, first, second);
    OneMore(i, a + b);
    assert LoopRoles(i) == LoopRoles(i - 1) + [LoopMaker(i), LoopVerifier(i)];
  }

  /** Every condition of the checker that concerns the calls holds after `i` whole iterations. */
  lemma LoopReceipt(env: Env, c: Meter, i: nat, max: nat, per: real)
    requires LoopSoFar(env, c, i, per) && 1 <= i <= max && per > 0.0 && CapsOk(env.caps)
    requires env.predicted == per * max as real && env.predicted <= env.caps.maxSpendUsd
    ensures var r := ReceiptOf(env, c);
            && CallsOk(r.calls) && Totals(r) && |r.calls| == 2 * i
            && RolesOk(LoopUntilDone, Roles(r.calls), Some(max))
            && (WithinCaps(r, env.caps) <==> r.elapsed <= env.caps.maxWallClockMs)
  {
    hide SortText, Sorting.Distinct, AllModels, SumCost, SumUsage, SumPredicted, CallsOk, Totals, WithinCaps, CapsOk, Affordable, Books;
    LoopRolesDistinct(i);
    assert |c.calls| == |Roles(c.calls)| == 2 * i;
    assert 0.0 < SumPredicted(c.calls) <= env.predicted by { PredictionsFit(per, i, max); }
    ReceiptPasses(env, c);
  }

  lemma PredictionsFit(per: real, i: nat, max: nat)
    requires per > 0.0 && 1 <= i <= max
    ensures 0.0 < i as real * per <= per * max as real
  {
    assert i as real >= 1.0 && i as real <= max as real;
    assert (max as real - i as real) * per >= 0.0;
  }

  lemma {:induction false} IterateHolds(env: Env, m: Meter, rubric: seq<Criterion>, maker: Plan, verifier: Plan, max: nat, i: nat,
                                        replies: nat -> Reply, a: real, b: real, mode: Mode, ids: seq<string>)
    requires 1 <= i <= max + 1 && max >= 1 && LoopSoFar(env, m, i - 1, a + b) && env.pattern == LoopUntilDone
    requires Predicted(maker, env.date) == Some(a) && Predicted(verifier, env.date) == Some(b) && a > 0.0 && b > 0.0
    requires CapsOk(env.caps) && env.predicted == (a + b) * max as real && env.predicted <= env.caps.maxSpendUsd && TaskIdsOk(ids)
    ensures var run := Iterate(env, m, rubric, maker, verifier, max, i, replies);
            && Accounted(env, run, LoopSpend) && (run.meter.value.log[0].status == Completed <==> run.outcome.Done?)
            && LoopAccepted(run, mode, ids, env.caps, max)
    decreases max + 1 - i
  {
    hide Iteration, CallsOk, Totals, RolesOk, WithinCaps, ModeOk, TaskIdsOk, LoopSoFar, CapsOk, Predicted, ReceiptOf, Books, Failing,
         OverCaps, Roles, SortText, Sorting.Distinct, AllModels, SumCost, SumUsage;
    if i > max {
      LoopReceipt(env, m, max, max, a + b);
      FailingAccounts(env, m, IterationCap, LoopSpend) by { SoFarIsOpen(env, m, i - 1, a + b); }
    } else {
      IterationHolds(env, m, rubric, maker, verifier, i, replies(2 * i - 2), replies(2 * i - 1), a, b);
      match Iteration(env, m, rubric, maker, verifier, i, replies(2 * i - 2), replies(2 * i - 1))
      case Again(c) => IterateHolds(env, c, rubric, maker, verifier, max, i + 1, replies, a, b, mode, ids);
      case Stop(run) =>
        if run.outcome.Done? {
          var c :| LoopSoFar(env, c, i, a + b) && run.meter.value.log[0].receipt == ReceiptOf(env, c)
                && OverCaps(env.caps, ReceiptOf(env, c)).None?
                && run.outcome.value.verified && run.outcome.value.iterations == i && !Blank(run.outcome.value.output);
          LoopReceipt(env, c, i, max, a + b);
          InTime(env.caps, ReceiptOf(env, c));
        }
    }
  }

  lemma SoFarIsOpen(env: Env, m: Meter, i: nat, per: real)
    requires LoopSoFar(env, m, i, per)
    ensures Open(m)
  {
  }

  lemma InTime(caps: Caps, r: Receipt)
    requires OverCaps(caps, r).None?
    ensures r.elapsed <= caps.maxWallClockMs && r.cost <= caps.maxSpendUsd && TokenTotal(r.usage) <= caps.maxTokens
  {
  }

  /**
   Every loop run that gets as far as a meter: one truthful entry; a result exactly when the entry is
   completed; evidence accepted when it finished, and when it used up its iterations exactly if the
   logged time is within the cap.
   */
  lemma LoopIsAccepted(task: string, rubric: seq<Criterion>, maker: Plan, verifier: Plan, caps: Caps, max: int, date: Date,
                       clock: nat -> int, replies: nat -> Reply, mode: Mode, ids: seq<string>)
    requires TaskIdsOk(ids)
    ensures var run := Loop(task, rubric, maker, verifier, caps, max, date, clock, replies);
            && (run.meter.None? ==> run.outcome == Threw(InvalidInput) || run.outcome == Threw(Unpriced))
            && (run.meter.Some? ==>
                  && Predicted(maker, date).Some? && Predicted(verifier, date).Some?
                  && var env := LoopEnv(max, Predicted(maker, date).value, Predicted(verifier, date).value, caps, date, clock);
                     && Accounted(env, run, LoopSpend) && (run.meter.value.log[0].status == Completed <==> run.outcome.Done?)
                     && LoopAccepted(run, mode, ids, caps, max))
  {
    hide Iterate, Predicted, Failing, TaskIdsOk, Bounded, RubricOk, ValidEvidence, LoopSoFar, Books, SortText, AllModels;
    if Bounded(task, 20_000) && CapsOk(caps) && max > 0 && PlanOk(maker) && PlanOk(verifier) && RubricOk(rubric)
       && Predicted(maker, date).Some? && Predicted(verifier, date).Some? {
      var a, b := Predicted(maker, date).value, Predicted(verifier, date).value;
      PredictedPositive(maker, date);
      PredictedPositive(verifier, date);
      var env := LoopEnv(max, a, b, caps, date, clock);
      NewIsOpen(env);
      if env.predicted > caps.maxSpendUsd {
        FailingAccounts(env, NewMeter(env), PredictedSpend, LoopSpend);
      } else {
        FreshLoop(env, a + b);
        IterateHolds(env, NewMeter(env), rubric, maker, verifier, max, 1, replies, a, b, mode, ids);
      }
    }
  }

  lemma FreshLoop(env: Env, per: real)
    ensures LoopSoFar(env, NewMeter(env), 0, per)
  {
    NewIsOpen(env);
  }

  lemma PredictedPositive(plan: Plan, date: Date)
    requires PlanOk(plan) && Predicted(plan, date).Some?
    ensures Predicted(plan, date).value > 0.0
  {
    EstimateIsPositive(plan.model, plan.inputTokens, plan.outputTokens, date);
  }

  // ---- Adversarial -------------------------------------------------------------------------------

  function AdversarialSpend(r: AdversarialResult): Receipt { r.spend }

  ghost function AdversarialEvidence(mode: Mode, ids: seq<string>, caps: Caps, run: Run<AdversarialResult>): Evidence
    requires run.meter.Some? && run.meter.value.log != [] && run.outcome.Done?
  {
    Evidence(mode, AdversarialPattern, ids, caps, None, false, Some(AdversarialR(run.outcome.value)), run.meter.value.log[0])
  }

  /** A run is accounted for, its evidence is accepted if it returned, and a completed entry without a result has one cause. */
  ghost predicate AdversarialHolds(env: Env, run: Run<AdversarialResult>, judged: Reply, mode: Mode, ids: seq<string>) {
    && Accounted(env, run, AdversarialSpend)
    && (run.outcome.Done? && ModeOk(mode, run.meter.value.log[0].receipt) ==> ValidEvidence(AdversarialEvidence(mode, ids, env.caps, run)))
    && (run.meter.value.log[0].status == Completed ==> judged.Answers? && (run.outcome.Done? <==> JudgeSpoke(judged)))
    && (run.outcome.Done? ==> run.meter.value.log[0].status == Completed)
  }

  /** The judge's answer has text in both fields that are read last. */
  predicate JudgeSpoke(judged: Reply)
    requires judged.Answers?
  {
    var o := ExactObject(judged.completion.text, {"verdict", "output", "justification"});
    o.Some? && RequiredText(o.value, "output").Some? && RequiredText(o.value, "justification").Some?
  }

  ghost predicate Turns(env: Env, m: Meter, roles: seq<Role>, predicted: real) {
    Open(m) && Roles(m.calls) == roles && SumPredicted(m.calls) == predicted
  }

  lemma TurnHolds(env: Env, m: Meter, role: Role, plan: Plan, reply: Reply, p: real, roles: seq<Role>, predicted: real)
    requires Turns(env, m, roles, predicted) && Predicted(plan, env.date) == Some(p) && p > 0.0
    ensures var (a, failure) := Invoke(env, m, role, plan, reply);
            && Open(a)
            && (failure.None? ==> reply.Answers? && Affordable(env.caps, a) && Turns(env, a, roles + [role], predicted + p))
  {
    hide Invoke, Books, SumPredicted, Roles, Affordable, Predicted;
    InvokeKeeps(env, m, role, plan, reply, p);
    if reply.Answers? {
      PushCall(m.calls, CallOf(role, plan, p, reply.completion));
    }
  }

  lemma JudgeHolds(env: Env, m: Meter, judge: Plan, judged: Reply, made: string, criticism: Criticism, p: real, mode: Mode, ids: seq<string>)
    requires Turns(env, m, [Maker, Critic], env.predicted - p) && env.pattern == AdversarialPattern
    requires Predicted(judge, env.date) == Some(p) && p > 0.0 && 0.0 < env.predicted <= env.caps.maxSpendUsd && CapsOk(env.caps) && TaskIdsOk(ids)
    requires !Blank(made) && criticism.position in {"refute", "concede"} && !Blank(criticism.refutation)
    ensures AdversarialHolds(env, JudgeTurn(env, m, judge, judged, made, criticism), judged, mode, ids)
  {
    hide Invoke, ParseJudgement, Complete, Closed, Failing, ReceiptOf, SumPredicted, Blank, OverCaps, CapsOk, Predicted, CallsOk, Totals,
         WithinCaps, ModeOk, TaskIdsOk, Affordable, JudgeSpoke, Books, Roles;
    TurnHolds(env, m, Judge, judge, judged, p, [Maker, Critic], env.predicted - p);
    var (a, failure) := Invoke(env, m, Judge, judge, judged);
    if failure.Some? {
      FailingAccounts(env, a, failure.value, AdversarialSpend);
    } else {
      FailingAccounts(env, a, Malformed, AdversarialSpend);
      CompleteCloses(env, a);
      var (done, spend) := Complete(env, a);
      if spend.Threw? {
        FailingAccounts(env, done, spend.failure, AdversarialSpend);
      } else {
        ReceiptCalls(env, a);
        ReceiptPasses(env, a);
        InTime(env.caps, ReceiptOf(env, a));
        if ParseJudgement(judged.completion.text, criticism.position).Some? {
          SpokeExactly(judged, criticism.position);
          LateFailure(env, done, Malformed);
        }
      }
    }
  }

  lemma ReceiptCalls(env: Env, m: Meter)
    ensures ReceiptOf(env, m).calls == m.calls
  {
  }

  /** A failure after the entry was written adds nothing. */
  lemma LateFailure(env: Env, m: Meter, f: Failure)
    requires m.log != []
    ensures var run: Run<AdversarialResult> := Failing(env, m, f); run.meter == Some(m) && run.outcome == Threw(f)
  {
  }

  lemma SpokeExactly(judged: Reply, position: string)
    requires judged.Answers? && ParseJudgement(judged.completion.text, position).Some?
    ensures var j := ParseJudgement(judged.completion.text, position).value;
            JudgeSpoke(judged) <==> j.output.Some? && j.justification.Some?
  {
  }

  lemma CriticHolds(env: Env, m: Meter, critic: Plan, judge: Plan, criticized: Reply, judged: Reply, made: string, b: real, c: real,
                    mode: Mode, ids: seq<string>)
    requires Turns(env, m, [Maker], env.predicted - b - c) && env.pattern == AdversarialPattern
    requires Predicted(critic, env.date) == Some(b) && b > 0.0 && Predicted(judge, env.date) == Some(c) && c > 0.0
    requires 0.0 < env.predicted <= env.caps.maxSpendUsd && CapsOk(env.caps) && TaskIdsOk(ids) && !Blank(made)
    ensures AdversarialHolds(env, CriticTurn(env, m, critic, judge, criticized, judged, made), judged, mode, ids)
  {
    hide Invoke, ParseCriticism, Closed, Failing, Blank, CapsOk, Predicted, TaskIdsOk, Turns, JudgeTurn, Books;
    TurnHolds(env, m, Critic, critic, criticized, b, [Maker], env.predicted - b - c);
    var (a, failure) := Invoke(env, m, Critic, critic, criticized);
    if failure.Some? {
      FailingHolds(env, a, failure.value, judged, mode, ids);
    } else {
      FailingHolds(env, a, Malformed, judged, mode, ids);
      assert [Maker] + [Critic] == [Maker, Critic];
      var criticism := ParseCriticism(criticized.completion.text);
      if criticism.Some? {
        JudgeHolds(env, a, judge, judged, made, criticism.value, c, mode, ids);
      }
    }
  }

  lemma FailingHolds(env: Env, m: Meter, f: Failure, judged: Reply, mode: Mode, ids: seq<string>)
    requires Open(m)
    ensures AdversarialHolds(env, Failing(env, m, f), judged, mode, ids)
  {
    hide Closed, Failing, ReceiptOf, Books;
    FailingAccounts(env, m, f, AdversarialSpend);
  }

  lemma MakerHolds(env: Env, maker: Plan, critic: Plan, judge: Plan, made: Reply, criticized: Reply, judged: Reply,
                   a: real, b: real, c: real, mode: Mode, ids: seq<string>)
    requires env.pattern == AdversarialPattern && env.predicted == a + b + c && a > 0.0 && b > 0.0 && c > 0.0
    requires Predicted(maker, env.date) == Some(a) && Predicted(critic, env.date) == Some(b) && Predicted(judge, env.date) == Some(c)
    requires env.predicted <= env.caps.maxSpendUsd && CapsOk(env.caps) && TaskIdsOk(ids)
    ensures AdversarialHolds(env, MakerTurn(env, NewMeter(env), maker, critic, judge, made, criticized, judged), judged, mode, ids)
  {
    hide Invoke, ParseOutput, Closed, Failing, Blank, CapsOk, Predicted, TaskIdsOk, CriticTurn, Books;
    var m := NewMeter(env);
    NewIsOpen(env);
    TurnHolds(env, m, Maker, maker, made, a, [], 0.0);
    var (after, failure) := Invoke(env, m, Maker, maker, made);
    if failure.Some? {
      FailingHolds(env, after, failure.value, judged, mode, ids);
    } else {
      FailingHolds(env, after, Malformed, judged, mode, ids);
      assert [] + [Maker] == [Maker];
      var output := ParseOutput(made.completion.text, "output");
      if output.Some? {
        CriticHolds(env, after, critic, judge, criticized, judged, output.value, b, c, mode, ids);
      }
    }
  }

  /**
   Every adversarial run that gets as far as a meter: one truthful entry; accepted evidence when it
   returned; and a completed entry comes with a result exactly when the judge filled in both texts.
   */
  lemma AdversarialIsAccepted(task: string, maker: Plan, critic: Plan, judge: Plan, caps: Caps, date: Date, clock: nat -> int,
                              made: Reply, criticized: Reply, judged: Reply, mode: Mode, ids: seq<string>)
    requires TaskIdsOk(ids)
    ensures var run := Adversarial(task, maker, critic, judge, caps, date, clock, made, criticized, judged);
            && (run.meter.None? ==> run.outcome == Threw(InvalidInput) || run.outcome == Threw(Unpriced))
            && (run.meter.Some? ==>
                  && Predicted(maker, date).Some? && Predicted(critic, date).Some? && Predicted(judge, date).Some?
                  && var predicted := Predicted(maker, date).value + Predicted(critic, date).value + Predicted(judge, date).value;
                     AdversarialHolds(Env(AdversarialPattern, predicted, caps, date, clock), run, judged, mode, ids))
  {
    hide MakerTurn, Predicted, Closed, Failing, TaskIdsOk, Bounded, AdversarialHolds, Books;
    if Bounded(task, 20_000) && CapsOk(caps) && PlanOk(maker) && PlanOk(critic) && PlanOk(judge)
       && Predicted(maker, date).Some? && Predicted(critic, date).Some? && Predicted(judge, date).Some? {
      var a, b, c := Predicted(maker, date).value, Predicted(critic, date).value, Predicted(judge, date).value;
      PredictedPositive(maker, date);
      PredictedPositive(critic, date);
      PredictedPositive(judge, date);
      var env := Env(AdversarialPattern, a + b + c, caps, date, clock);
      NewIsOpen(env);
      FailingHolds(env, NewMeter(env), PredictedSpend, judged, mode, ids);
      if env.predicted <= caps.maxSpendUsd {
        MakerHolds(env, maker, critic, judge, made, criticized, judged, a, b, c, mode, ids);
      }
      var run := Adversarial(task, maker, critic, judge, caps, date, clock, made, criticized, judged);
      assert run.meter.Some? by { HoldsHasMeter(env, run, judged, mode, ids); }
    }
  }

  lemma HoldsHasMeter(env: Env, run: Run<AdversarialResult>, judged: Reply, mode: Mode, ids: seq<string>)
    requires AdversarialHolds(env, run, judged, mode, ids)
    ensures run.meter.Some?
  {
  }
}
