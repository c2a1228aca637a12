/**
 Fan-out with any number of concurrent workers finishing in any order: the log and the evidence.
 */
module FanOutTheorems {
  import opened Basics
  import opened Routing
  import opened Cost
  import opened Sorting
  import opened Provider
  import opened Orchestration
  import opened OrchestrationEvidence
  import opened OrchestrationTheorems

  // ---- The workers -------------------------------------------------------------------------------

  /** `role` is that of a worker that has resumed. */
  ghost predicate Resumed(role: Role, tasks: seq<Subtask>, order: seq<nat>) {
    exists k :: 0 <= k < |order| && order[k] < |tasks| && role == Worker(tasks[order[k]].id)
  }

  /** The books after the workers in `order` have resumed. */
  ghost predicate Settling(m: Meter, tasks: seq<Subtask>, order: seq<nat>, settled: seq<Settlement>, w: real, share: real) {
    && Open(m) && |m.calls| <= |order| && SumPredicted(m.calls) == |m.calls| as real * w
    && (forall k :: 0 <= k < |m.calls| ==> Resumed(m.calls[k].role, tasks, order))
    && NoDuplicates(Roles(m.calls))
    && (forall k :: 0 <= k < |m.budgets| ==> m.budgets[k] <= share)
    && (m.calls == [] ==> forall i :: 0 <= i < |settled| ==> !settled[i].Fulfilled?)
    && |settled| == |tasks| && (forall k :: 0 <= k < |order| ==> order[k] < |tasks| && !settled[order[k]].Pending?)
  }

  lemma {:induction false} BeginWorkersKeep(env: Env, m: Meter, n: nat, share: real)
    requires Open(m)
    ensures var (b, begun) := BeginWorkers(env, m, n, share);
            && Open(b) && b.calls == m.calls && b.cost == m.cost && b.usage == m.usage && b.budgets == m.budgets
            && forall i :: 0 <= i < n && begun[i].Begun? ==> begun[i].budget <= share
  {
    hide SumCost, SumUsage, CallOk;
    if n > 0 {
      BeginWorkersKeep(env, m, n - 1, share);
      BeginKeeps(env, BeginWorkers(env, m, n - 1, share).0, Some(share));
    }
  }

  /** What one resuming worker adds. */
  lemma SettleKeeps(env: Env, m: Meter, task: Subtask, plan: Plan, begun: Begun, reply: Reply, w: real)
    requires Open(m) && Predicted(plan, env.date) == Some(w) && w > 0.0
    ensures var (a, s) := Settle(env, m, task, plan, begun, reply);
            && Open(a) && !s.Pending?
            && ((a.calls == m.calls && a.budgets == m.budgets && a.cost == m.cost && !s.Fulfilled?)
                || (reply.Answers? && begun.Begun? && a.budgets == m.budgets + [begun.budget]
                    && a.calls == m.calls + [CallOf(Worker(task.id), plan, w, reply.completion)]))
            && (s == Rejected(SpendExceeded) ==>
                  begun == Denied(SpendExceeded) || (|a.calls| == |m.calls| + 1 && a.cost > env.caps.maxSpendUsd))
            && (s == Rejected(NoBudget) || s == Rejected(SpendExhausted) ==> begun == Denied(s.failure))
  {
    hide Finish, ParseOutput, Books, Predicted;
    if begun.Begun? {
      FinishKeeps(env, m, Worker(task.id), plan, begun.budget, reply, w);
    }
  }

  lemma ResumedMore(role: Role, tasks: seq<Subtask>, order: seq<nat>, i: nat)
    requires Resumed(role, tasks, order)
    ensures Resumed(role, tasks, order + [i])
  {
    var k :| 0 <= k < |order| && order[k] < |tasks| && role == Worker(tasks[order[k]].id);
    assert (order + [i])[k] == order[k];
  }

  /** A worker that has not resumed yet has a role nobody used. */
  lemma RoleIsNew(role: Role, tasks: seq<Subtask>, order: seq<nat>, i: nat)
    requires SubtasksOk(tasks) && i < |tasks| && NoDuplicates(order + [i]) && Resumed(role, tasks, order)
    ensures role != Worker(tasks[i].id)
  {
    var k :| 0 <= k < |order| && order[k] < |tasks| && role == Worker(tasks[order[k]].id);
    assert (order + [i])[k] == order[k] && (order + [i])[|order|] == i;
    assert order[k] != i;
    assert tasks[order[k]].id != tasks[i].id by {
      if order[k] < i { assert tasks[order[k]].id != tasks[i].id; } else { assert tasks[i].id != tasks[order[k]].id; }
    }
  }

  lemma SettlingStep(m: Meter, a: Meter, tasks: seq<Subtask>, order: seq<nat>, settled: seq<Settlement>, w: real, share: real,
                     i: nat, s: Settlement, c: Call, budget: real)
    requires Settling(m, tasks, order, settled, w, share) && SubtasksOk(tasks) && i < |tasks| && NoDuplicates(order + [i])
    requires Open(a) && !s.Pending?
    requires (a.calls == m.calls && a.budgets == m.budgets && !s.Fulfilled?)
          || (a.calls == m.calls + [c] && a.budgets == m.budgets + [budget] && budget <= share
              && c.role == Worker(tasks[i].id) && c.predicted == w)
    ensures Settling(a, tasks, order + [i], settled[i := s], w, share)
  {
    hide Books, SumPredicted, Resumed, SubtasksOk;
    forall k | 0 <= k < |m.calls| ensures Resumed(m.calls[k].role, tasks, order + [i]) && m.calls[k].role != Worker(tasks[i].id) {
      ResumedMore(m.calls[k].role, tasks, order, i);
      RoleIsNew(m.calls[k].role, tasks, order, i);
    }
    var more := order + [i];
    assert forall k :: 0 <= k < |order| ==> more[k] == order[k];
    assert more[|order|] == i;
    if a.calls == m.calls + [c] {
      PushCall(m.calls, c);
      OneMore(|a.calls|, w);
      assert Resumed(c.role, tasks, more) by { LastResumed(tasks, order, i); }
    }
  }

  lemma LastResumed(tasks: seq<Subtask>, order: seq<nat>, i: nat)
    requires i < |tasks|
    ensures Resumed(Worker(tasks[i].id), tasks, order + [i])
  {
    assert (order + [i])[|order|] == i;
  }

  lemma {:induction false} SettleWorkersKeep(env: Env, m: Meter, tasks: seq<Subtask>, plan: Plan, begun: seq<Begun>, replies: seq<Reply>,
                                             order: seq<nat>, w: real, share: real)
    requires |tasks| == |begun| == |replies| && SubtasksOk(tasks) && NoDuplicates(order)
    requires forall k :: 0 <= k < |order| ==> order[k] < |tasks|
    requires Open(m) && m.calls == [] && Predicted(plan, env.date) == Some(w) && w > 0.0
    requires forall i :: 0 <= i < |begun| && begun[i].Begun? ==> begun[i].budget <= share
    ensures var (a, settled) := SettleWorkers(env, m, tasks, plan, begun, replies, order);
            Settling(a, tasks, order, settled, w, share)
  {
    hide Settle, Settling, SubtasksOk, Books, Predicted;
    if order == [] {
      NoneSettled(m, tasks, begun, w, share);
    } else {
      var front, i := order[..|order| - 1], order[|order| - 1];
      SettleWorkersKeep(env, m, tasks, plan, begun, replies, front, w, share);
      var (before, settled) := SettleWorkers(env, m, tasks, plan, begun, replies, front);
      assert Open(before) by { SettlingIsOpen(before, tasks, front, settled, w, share); }
      SettleKeeps(env, before, tasks[i], plan, begun[i], replies[i], w);
      var (a, s) := Settle(env, before, tasks[i], plan, begun[i], replies[i]);
      assert front + [i] == order;
      SettlingStep(before, a, tasks, front, settled, w, share, i, s,
                   if replies[i].Answers? then CallOf(Worker(tasks[i].id), plan, w, replies[i].completion)
                   else Call(Maker, Fable, [], 0.0, 0.0, NO_USAGE),
                   if begun[i].Begun? then begun[i].budget else 0.0);
    }
  }

  lemma NoneSettled(m: Meter, tasks: seq<Subtask>, begun: seq<Begun>, w: real, share: real)
    requires Open(m) && m.calls == [] && |tasks| == |begun|
    ensures Settling(m, tasks, [], Settlements(begun), w, share)
  {
  }

  lemma SettlingIsOpen(m: Meter, tasks: seq<Subtask>, order: seq<nat>, settled: seq<Settlement>, w: real, share: real)
    requires Settling(m, tasks, order, settled, w, share)
    ensures Open(m)
  {
  }

  lemma WorkersKeep(env: Env, tasks: seq<Subtask>, plan: Plan, share: real, replies: seq<Reply>, order: seq<nat>, w: real)
    requires |tasks| == |replies| && SubtasksOk(tasks) && IsOrder(order, |tasks|)
    requires Predicted(plan, env.date) == Some(w) && w > 0.0
    ensures var (m, settled) := Workers(env, tasks, plan, share, replies, order);
            Settling(m, tasks, order, settled, w, share)
  {
    hide SettleWorkers, BeginWorkers, Settling, SubtasksOk, Books, Predicted;
    NewIsOpen(env);
    BeginWorkersKeep(env, NewMeter(env), |tasks|, share);
    var (m, begun) := BeginWorkers(env, NewMeter(env), |tasks|, share);
    SettleWorkersKeep(env, m, tasks, plan, begun, replies, order, w, share);
  }

  lemma {:induction false} FirstRejectedHolds(settled: seq<Settlement>)
    ensures FirstRejected(settled).None? <==> forall i :: 0 <= i < |settled| ==> !settled[i].Rejected?
    ensures FirstRejected(settled).Some? ==> exists i :: 0 <= i < |settled| && settled[i] == Rejected(FirstRejected(settled).value)
  {
    if settled != [] {
      FirstRejectedHolds(settled[1..]);
      assert settled == [settled[0]] + settled[1..];
      if FirstRejected(settled[1..]).Some? && !settled[0].Rejected? {
        var i :| 0 <= i < |settled[1..]| && settled[1..][i] == Rejected(FirstRejected(settled[1..]).value);
        assert settled[i + 1] == settled[1..][i];
      }
    }
  }

  // ---- Evidence ----------------------------------------------------------------------------------

  function FanOutSpend(r: FanOutResult): Receipt { r.spend }

  ghost function FanOutEvidence(mode: Mode, ids: seq<string>, caps: Caps, run: Run<FanOutResult>): Evidence
    requires run.meter.Some? && run.meter.value.log != [] && run.outcome.Done?
  {
    Evidence(mode, FanOutSynthesize, ids, caps, None, false, Some(FanOutR(run.outcome.value)), run.meter.value.log[0])
  }

  ghost predicate FanOutHolds(env: Env, run: Run<FanOutResult>, mode: Mode, ids: seq<string>) {
    && Accounted(env, run, FanOutSpend)
    && (run.meter.value.log[0].status == Completed <==> run.outcome.Done?)
    && (run.outcome.Done? && ModeOk(mode, run.meter.value.log[0].receipt) ==> ValidEvidence(FanOutEvidence(mode, ids, env.caps, run)))
  }

  lemma FanOutFails(env: Env, m: Meter, f: Failure, mode: Mode, ids: seq<string>)
    requires Open(m)
    ensures FanOutHolds(env, Failing(env, m, f), mode, ids)
  {
    hide Closed, Failing, ReceiptOf, Books;
    FailingAccounts(env, m, f, FanOutSpend);
  }

  /** The synthesizer's call on top of the workers' makes a role list the checker accepts. */
  lemma FanOutRoles(calls: seq<Call>, c: Call, tasks: seq<Subtask>, order: seq<nat>)
    requires calls != [] && NoDuplicates(Roles(calls)) && c.role == Synthesizer
    requires forall k :: 0 <= k < |calls| ==> Resumed(calls[k].role, tasks, order)
    ensures NoDuplicates(Roles(calls + [c])) && RolesOk(FanOutSynthesize, Roles(calls + [c]), None)
  {
    var roles := Roles(calls + [c]);
    assert forall k :: 0 <= k < |calls| ==> roles[k] == calls[k].role && roles[k] == Roles(calls)[k];
    assert roles[|calls|] == Synthesizer && roles[0].Worker?;
  }

  lemma SynthesizeHolds(env: Env, m: Meter, plan: Plan, reply: Reply, outputs: seq<WorkerOutput>, tasks: seq<Subtask>, order: seq<nat>,
                        settled: seq<Settlement>, w: real, s: real, share: real, mode: Mode, ids: seq<string>)
    requires Settling(m, tasks, order, settled, w, share) && IsOrder(order, |tasks|) && m.calls != [] && outputs != []
    requires Predicted(plan, env.date) == Some(s) && w > 0.0 && s > 0.0 && env.pattern == FanOutSynthesize
    requires env.predicted == w * |tasks| as real + s && env.predicted <= env.caps.maxSpendUsd && CapsOk(env.caps) && TaskIdsOk(ids)
    ensures FanOutHolds(env, Synthesize(env, m, plan, reply, outputs), mode, ids)
  {
    hide Invoke, ParseSynthesis, Complete, Closed, Failing, ReceiptOf, SumPredicted, OverCaps, CapsOk, Predicted, CallsOk, Totals,
         WithinCaps, ModeOk, TaskIdsOk, Affordable, Books, Roles, RolesOk, Resumed;
    InvokeKeeps(env, m, Synthesizer, plan, reply, s);
    var (a, failure) := Invoke(env, m, Synthesizer, plan, reply);
    if failure.Some? {
      FanOutFails(env, a, failure.value, mode, ids);
    } else {
      FanOutFails(env, a, Malformed, mode, ids);
      CompleteCloses(env, a);
      var (done, spend) := Complete(env, a);
      if spend.Threw? {
        FanOutFails(env, done, spend.failure, mode, ids);
      } else {
        var c := CallOf(Synthesizer, plan, s, reply.completion);
        FanOutRoles(m.calls, c, tasks, order);
        PushCall(m.calls, c);
        WorkersFit(w, |m.calls|, |tasks|);
        ReceiptCalls(env, a);
        ReceiptPasses(env, a);
        InTime(env.caps, ReceiptOf(env, a));
        assert spend.value == ReceiptOf(env, a) && done.log == [Entry(env.pattern, ReceiptOf(env, a), Completed)];
      }
    }
  }

  lemma WorkersFit(w: real, n: nat, max: nat)
    requires w > 0.0 && n <= max
    ensures n as real * w <= w * max as real
  {
    assert (max as real - n as real) * w >= 0.0;
  }

  /** With nothing rejected, every worker delivered, so at least one call is on the books. */
  lemma SomeoneDelivered(m: Meter, tasks: seq<Subtask>, order: seq<nat>, settled: seq<Settlement>, w: real, share: real)
    requires Settling(m, tasks, order, settled, w, share) && IsOrder(order, |tasks|) && tasks != [] && FirstRejected(settled).None?
    ensures m.calls != []
  {
    FirstRejectedHolds(settled);
    assert !settled[order[0]].Pending? && !settled[order[0]].Rejected?;
  }

  /**
   Every fan-out run that gets as far as a meter, whatever the workers answer and in whatever order
   they finish: one truthful entry; a result exactly when the entry is completed; and its evidence
   is accepted.
   */
  lemma FanOutIsAccepted(tasks: seq<Subtask>, worker: Plan, synthesizer: Plan, caps: Caps, date: Date, clock: nat -> int,
                         replies: seq<Reply>, order: seq<nat>, last: Reply, mode: Mode, ids: seq<string>)
    requires |tasks| == |replies| && IsOrder(order, |tasks|) && TaskIdsOk(ids)
    ensures var run := FanOut(tasks, worker, synthesizer, caps, date, clock, replies, order, last);
            && (run.meter.None? ==> run.outcome == Threw(InvalidInput) || run.outcome == Threw(Unpriced))
            && (run.meter.Some? ==>
                  && Predicted(worker, date).Some? && Predicted(synthesizer, date).Some?
                  && FanOutHolds(FanOutEnv(|tasks|, Predicted(worker, date).value, Predicted(synthesizer, date).value, caps, date, clock),
                                 run, mode, ids))
  {
    hide Workers, Synthesize, Predicted, Closed, Failing, TaskIdsOk, SubtasksOk, FanOutHolds, Books, Settling, FirstRejected;
    if SubtasksOk(tasks) && CapsOk(caps) && PlanOk(worker) && PlanOk(synthesizer)
       && Predicted(worker, date).Some? && Predicted(synthesizer, date).Some? {
      var w, s := Predicted(worker, date).value, Predicted(synthesizer, date).value;
      PredictedPositive(worker, date);
      PredictedPositive(synthesizer, date);
      var env := FanOutEnv(|tasks|, w, s, caps, date, clock);
      NewIsOpen(env);
      FanOutFails(env, NewMeter(env), PredictedSpend, mode, ids);
      if env.predicted <= caps.maxSpendUsd {
        var share := ProportionalBudget(w, env.predicted, caps.maxSpendUsd);
        WorkersKeep(env, tasks, worker, share, replies, order, w);
        var (m, settled) := Workers(env, tasks, worker, share, replies, order);
        if FirstRejected(settled).Some? {
          SettlingIsOpen(m, tasks, order, settled, w, share);
          FanOutFails(env, m, FirstRejected(settled).value, mode, ids);
        } else {
          SomeTask(tasks);
          SomeoneDelivered(m, tasks, order, settled, w, share);
          SynthesizeHolds(env, m, synthesizer, last, Outputs(tasks, settled), tasks, order, settled, w, s, share, mode, ids);
        }
      }
      var run := FanOut(tasks, worker, synthesizer, caps, date, clock, replies, order, last);
      assert run.meter.Some? by { FanOutHasMeter(env, run, mode, ids); }
    }
  }

  lemma SomeTask(tasks: seq<Subtask>)
    requires SubtasksOk(tasks)
    ensures tasks != []
  {
  }

  lemma FanOutHasMeter(env: Env, run: Run<FanOutResult>, mode: Mode, ids: seq<string>)
    requires FanOutHolds(env, run, mode, ids)
    ensures run.meter.Some?
  {
  }
}
