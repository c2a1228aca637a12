/**
 What a fan-out returns: each worker's own words under its own task, in task order whatever order they
 finished in, and the synthesis the synthesizer spelled out; and why one that fails does.

 Line numbers refer to harness/orchestration-patterns.ts.
 */
module FanOutAnswers {
  import opened Basics
  import opened Sorting
  import opened Texts
  import opened Cost
  import opened Provider
  import opened Orchestration
  import opened OrchestrationTheorems
  import opened OrchestrationAnswers
  import opened BudgetTheorems

  // ---- The synthesis -----------------------------------------------------------------------------

  function TextJson(s: string): Json { JText(s) }

  predicate TextSpelled(s: string) { !Blank(s) }

  function BarrierJson(b: Barrier): Json {
    Three("criterionId", JText(b.criterionId), "pass", JBool(true), "justification", JText(b.justification))
  }

  predicate BarrierSpelled(b: Barrier) { !Blank(b.criterionId) && !Blank(b.justification) }

  function ConflictJson(c: Conflict): Json {
    Three("left", JText(c.left), "right", JText(c.right), "resolution", JText(c.resolution))
  }

  predicate ConflictSpelled(c: Conflict) { !Blank(c.left) && !Blank(c.right) && !Blank(c.resolution) }

  function SynthesisJson(s: Synthesis): Json {
    JObject(map["output" := JText(s.output), "deduplicatedClaims" := JList(Map(TextJson, s.claims)),
                "conflicts" := JList(Map(ConflictJson, s.conflicts)), "rubric" := JList(Map(BarrierJson, s.rubric))])
  }

  /** All texts are there, and the three barrier criteria were applied, each once and in any order. */
  ghost predicate SynthesisSpelled(s: Synthesis) {
    && !Blank(s.output) && (forall i :: 0 <= i < |s.claims| ==> TextSpelled(s.claims[i]))
    && (forall i :: 0 <= i < |s.conflicts| ==> ConflictSpelled(s.conflicts[i]))
    && (forall i :: 0 <= i < |s.rubric| ==> BarrierSpelled(s.rubric[i]))
    && multiset(Ids(s.rubric)) == multiset{"deduplicate", "resolve-conflicts", "preserve-coverage"}
  }

  lemma ReadsText(j: Json, s: string)
    ensures ReadText(j) == Some(s) <==> j == TextJson(s) && TextSpelled(s)
  {
  }

  lemma ReadsBarrier(j: Json, b: Barrier)
    ensures ReadBarrier(j) == Some(b) <==> j == BarrierJson(b) && BarrierSpelled(b)
  {
    assert "criterionId" != "pass" && "pass" != "justification" && "criterionId" != "justification";
    if ReadBarrier(j) == Some(b) { FieldsOfThree(j.fields, "criterionId", "pass", "justification"); }
  }

  lemma ReadsConflict(j: Json, c: Conflict)
    ensures ReadConflict(j) == Some(c) <==> j == ConflictJson(c) && ConflictSpelled(c)
  {
    assert "left" != "right" && "right" != "resolution" && "left" != "resolution";
    if ReadConflict(j) == Some(c) { FieldsOfThree(j.fields, "left", "right", "resolution"); }
  }

  lemma ReadsRubric(items: seq<Json>, bs: seq<Barrier>)
    ensures ReadAll(items, ReadBarrier) == Some(bs) <==>
            items == Map(BarrierJson, bs) && forall i :: 0 <= i < |bs| ==> BarrierSpelled(bs[i])
  {
    hide ReadBarrier, BarrierJson, BarrierSpelled;
    forall j, x ensures ReadBarrier(j) == Some(x) <==> j == BarrierJson(x) && BarrierSpelled(x) { ReadsBarrier(j, x); }
    ReadsList(items, ReadBarrier, BarrierJson, BarrierSpelled, bs);
  }

  lemma ReadsConflicts(items: seq<Json>, cs: seq<Conflict>)
    ensures ReadAll(items, ReadConflict) == Some(cs) <==>
            items == Map(ConflictJson, cs) && forall i :: 0 <= i < |cs| ==> ConflictSpelled(cs[i])
  {
    hide ReadConflict, ConflictJson, ConflictSpelled;
    forall j, x ensures ReadConflict(j) == Some(x) <==> j == ConflictJson(x) && ConflictSpelled(x) { ReadsConflict(j, x); }
    ReadsList(items, ReadConflict, ConflictJson, ConflictSpelled, cs);
  }

  lemma ReadsClaims(items: seq<Json>, ss: seq<string>)
    ensures ReadAll(items, ReadText) == Some(ss) <==>
            items == Map(TextJson, ss) && forall i :: 0 <= i < |ss| ==> TextSpelled(ss[i])
  {
    hide ReadText, TextJson, TextSpelled;
    forall j, x ensures ReadText(j) == Some(x) <==> j == TextJson(x) && TextSpelled(x) { ReadsText(j, x); }
    ReadsList(items, ReadText, TextJson, TextSpelled, ss);
  }

  lemma ThreeBarriers(ids: seq<string>)
    ensures SortText(ids) == SortText(BARRIER_IDS) <==> multiset(ids) == multiset{"deduplicate", "resolve-conflicts", "preserve-coverage"}
  {
    hide SortText;
    assert multiset(BARRIER_IDS) == multiset{"deduplicate", "resolve-conflicts", "preserve-coverage"};
    SortTextAgrees(ids, BARRIER_IDS);
  }

  lemma FieldsOfFour(f: map<string, Json>)
    requires f.Keys == {"output", "deduplicatedClaims", "conflicts", "rubric"}
    ensures f == map["output" := f["output"], "deduplicatedClaims" := f["deduplicatedClaims"], "conflicts" := f["conflicts"], "rubric" := f["rubric"]]
  {
  }

  /** A synthesis reads exactly if it is spelled out. */
  lemma ReadsSynthesis(t: Text, s: Synthesis)
    ensures ParseSynthesis(t) == Some(s) <==> t == Parsed(SynthesisJson(s)) && SynthesisSpelled(s)
  {
    hide ReadBarrier, ReadConflict, ReadText, ReadAll, BarrierJson, ConflictJson, TextJson, BarrierSpelled, ConflictSpelled, TextSpelled,
         SortText, Map, Ids;
    FourKeys();
    ThreeBarriers(Ids(s.rubric));
    if t.Parsed? && t.value.JObject? && t.value.fields.Keys == {"output", "deduplicatedClaims", "conflicts", "rubric"} {
      var o := t.value.fields;
      FieldsOfFour(o);
      if o["rubric"].JList? { ReadsRubric(o["rubric"].items, s.rubric); }
      if o["conflicts"].JList? { ReadsConflicts(o["conflicts"].items, s.conflicts); }
      if o["deduplicatedClaims"].JList? { ReadsClaims(o["deduplicatedClaims"].items, s.claims); }
      if ParseSynthesis(t).Some? { ThreeBarriers(Ids(ParseSynthesis(t).value.rubric)); }
    }
  }

  lemma FourKeys()
    ensures "output" != "deduplicatedClaims" && "output" != "conflicts" && "output" != "rubric"
    ensures "deduplicatedClaims" != "conflicts" && "deduplicatedClaims" != "rubric" && "conflicts" != "rubric"
  {
    assert "output"[0] != "deduplicatedClaims"[0] && "output"[0] != "conflicts"[0] && "output"[0] != "rubric"[0];
    assert "deduplicatedClaims"[0] != "conflicts"[0] && "deduplicatedClaims"[0] != "rubric"[0] && "conflicts"[0] != "rubric"[0];
  }

  // ---- The workers -------------------------------------------------------------------------------

  /** The reply of a worker is not in order, or does not spell out an output. */
  ghost predicate WorkerUnreadable(reply: Reply, plan: Plan) {
    reply.Answers? && (!CompletionOk(reply.completion, plan.model) || forall o :: !Answered(reply, o))
  }

  /** What the settlement of a worker says about its reply and about the account so far. */
  ghost predicate SettledBy(env: Env, m: Meter, plan: Plan, replies: seq<Reply>, i: nat, s: Settlement)
    requires i < |replies|
  {
    match s
    case Pending => true
    case Fulfilled(o) => Answered(replies[i], o)
    case Rejected(f) =>
      && Blames(env, m, replies, f) && f != PredictedSpend && f != IterationCap
      && (f == Malformed ==> WorkerUnreadable(replies[i], plan))
  }

  ghost predicate AllSettledBy(env: Env, m: Meter, plan: Plan, replies: seq<Reply>, settled: seq<Settlement>) {
    |settled| == |replies| && forall i :: 0 <= i < |settled| ==> SettledBy(env, m, plan, replies, i, settled[i])
  }

  lemma SettlementStands(env: Env, m: Meter, a: Meter, plan: Plan, replies: seq<Reply>, i: nat, s: Settlement)
    requires i < |replies| && SettledBy(env, m, plan, replies, i, s) && Onward(m, a)
    ensures SettledBy(env, a, plan, replies, i, s)
  {
    hide Blames, Onward, WorkerUnreadable, Answered;
    if s.Rejected? { BlameStands(env, m, replies, a, replies, s.failure); }
  }

  lemma {:induction false} BeginningBlames(env: Env, m: Meter, n: nat, budget: real)
    requires m.started == env.clock(0) && budget > 0.0
    ensures var (b, begun) := BeginWorkers(env, m, n, budget);
            Onward(m, b) && forall i :: 0 <= i < n && begun[i].Denied? ==>
              Blames(env, b, [], begun[i].failure) && begun[i].failure != PredictedSpend && begun[i].failure != IterationCap
              && begun[i].failure != Malformed
  {
    hide Blames, Begin;
    if n > 0 {
      BeginningBlames(env, m, n - 1, budget);
      var (before, begun) := BeginWorkers(env, m, n - 1, budget);
      BeginBlames(env, before, Some(budget));
      var (after, b) := Begin(env, before, Some(budget));
      forall i | 0 <= i < n - 1 && begun[i].Denied? ensures Blames(env, after, [], begun[i].failure) {
        BlameStands(env, before, [], after, [], begun[i].failure);
      }
    }
  }

  lemma SettleBlames(env: Env, m: Meter, task: Subtask, plan: Plan, begun: Begun, replies: seq<Reply>, i: nat)
    requires i < |replies| && m.started == env.clock(0)
    requires begun.Denied? ==> SettledBy(env, m, plan, replies, i, Rejected(begun.failure))
    ensures var (a, s) := Settle(env, m, task, plan, begun, replies[i]);
            Onward(m, a) && SettledBy(env, a, plan, replies, i, s) && !s.Pending?
  {
    hide Finish, ParseOutput, Blames, Answered, CompletionOk;
    if begun.Begun? {
      FinishBlames(env, m, Worker(task.id), plan, begun.budget, replies[i]);
      var (a, failure) := Finish(env, m, Worker(task.id), plan, begun.budget, replies[i]);
      if failure.Some? {
        OnwardHolds(a);
        BlameStands(env, a, [replies[i]], a, replies, failure.value);
      } else {
        MalformedIsNobodysFault(env, a, replies);
        var output := ParseOutput(replies[i].completion.text, "output");
        forall o ensures output == Some(o) <==> Answered(replies[i], o) { OutputAgrees(replies[i], o); }
      }
    }
  }

  lemma MalformedIsNobodysFault(env: Env, m: Meter, heard: seq<Reply>)
    ensures Blames(env, m, heard, Malformed)
  {
  }

  lemma OutputAgrees(reply: Reply, o: string)
    requires reply.Answers?
    ensures ParseOutput(reply.completion.text, "output") == Some(o) <==> Answered(reply, o)
  {
    ParsesOne(reply.completion.text, "output", o);
  }

  lemma {:induction false} SettlingBlames(env: Env, m: Meter, tasks: seq<Subtask>, plan: Plan, begun: seq<Begun>, replies: seq<Reply>,
                                          order: seq<nat>)
    requires |tasks| == |begun| == |replies| && (forall k :: 0 <= k < |order| ==> order[k] < |tasks|) && m.started == env.clock(0)
    requires AllSettledBy(env, m, plan, replies, Settlements(begun))
    ensures var (a, settled) := SettleWorkers(env, m, tasks, plan, begun, replies, order);
            && Onward(m, a) && AllSettledBy(env, a, plan, replies, settled)
            && forall k :: 0 <= k < |order| ==> !settled[order[k]].Pending?
  {
    hide SettledBy, Settle;
    if order != [] {
      var front, i := order[..|order| - 1], order[|order| - 1];
      SettlingBlames(env, m, tasks, plan, begun, replies, front);
      var (before, settled) := SettleWorkers(env, m, tasks, plan, begun, replies, front);
      if begun[i].Denied? {
        assert SettledBy(env, m, plan, replies, i, Settlements(begun)[i]);
        SettlementStands(env, m, before, plan, replies, i, Rejected(begun[i].failure));
      }
      SettleBlames(env, before, tasks[i], plan, begun[i], replies, i);
      var (after, s) := Settle(env, before, tasks[i], plan, begun[i], replies[i]);
      var next := settled[i := s];
      forall j | 0 <= j < |settled| ensures SettledBy(env, after, plan, replies, j, next[j]) {
        if j != i { SettlementStands(env, before, after, plan, replies, j, settled[j]); }
      }
      forall k | 0 <= k < |order| ensures !next[order[k]].Pending? {
        if k < |front| { assert front[k] == order[k]; }
      }
    }
  }

  lemma WorkersMean(env: Env, tasks: seq<Subtask>, plan: Plan, budget: real, replies: seq<Reply>, order: seq<nat>)
    requires |tasks| == |replies| && IsOrder(order, |tasks|) && budget > 0.0
    ensures var (m, settled) := Workers(env, tasks, plan, budget, replies, order);
            && m.started == env.clock(0) && AllSettledBy(env, m, plan, replies, settled)
            && forall i :: 0 <= i < |tasks| ==> !settled[i].Pending?
  {
    hide Blames, SettledBy, BeginWorkers;
    NewStarts(env);
    BeginningBlames(env, NewMeter(env), |tasks|, budget);
    var (m, begun) := BeginWorkers(env, NewMeter(env), |tasks|, budget);
    forall i | 0 <= i < |tasks| ensures SettledBy(env, m, plan, replies, i, Settlements(begun)[i]) {
      BegunSettles(env, m, plan, replies, i, begun[i]);
    }
    SettlingBlames(env, m, tasks, plan, begun, replies, order);
    var settled := SettleWorkers(env, m, tasks, plan, begun, replies, order).1;
    forall i | 0 <= i < |tasks| ensures !settled[i].Pending? {
      Reached(order, |tasks|, i);
    }
  }

  function Below(n: nat): (r: set<nat>)
    ensures |r| == n && forall x: nat :: x in r <==> x < n
  {
    if n == 0 then {} else Below(n - 1) + {n - 1}
  }

  /** Whoever is to settle does. */
  lemma Reached(order: seq<nat>, n: nat, i: nat)
    requires IsOrder(order, n) && i < n
    ensures exists k :: 0 <= k < |order| && order[k] == i
  {
    SetSize(order);
    var reached := set x | x in order;
    assert forall x :: x in reached ==> x in Below(n);
    assert |Below(n) - reached| == |Below(n)| - |reached|;
    assert Below(n) - reached == {} && i in Below(n);
    assert i in reached;
  }

  lemma BegunSettles(env: Env, m: Meter, plan: Plan, replies: seq<Reply>, i: nat, begun: Begun)
    requires i < |replies|
    requires begun.Denied? ==> Blames(env, m, [], begun.failure) && begun.failure != PredictedSpend && begun.failure != IterationCap
                               && begun.failure != Malformed
    ensures SettledBy(env, m, plan, replies, i, if begun.Begun? then Pending else Rejected(begun.failure))
  {
    hide Blames;
    if begun.Denied? {
      OnwardHolds(m);
      BlameStands(env, m, [], m, replies, begun.failure);
    }
  }

  // ---- The whole run -----------------------------------------------------------------------------

  ghost predicate SynthesisUnreadable(last: Reply, plan: Plan) {
    last.Answers? && (!CompletionOk(last.completion, plan.model) || forall s :: !(Says(last, SynthesisJson(s)) && SynthesisSpelled(s)))
  }

  ghost predicate FanOutMeans(env: Env, run: Run<FanOutResult>, tasks: seq<Subtask>, replies: seq<Reply>, last: Reply,
                              worker: Plan, synthesizer: Plan)
    requires |tasks| == |replies|
  {
    match run.outcome
    case Done(r) =>
      && |r.workers| == |tasks|
      && (forall i :: 0 <= i < |tasks| ==> r.workers[i].id == tasks[i].id && Answered(replies[i], r.workers[i].output))
      && Says(last, SynthesisJson(r.synthesis)) && SynthesisSpelled(r.synthesis)
    case Threw(f) =>
      && run.meter.Some? && Blames(env, run.meter.value, replies + [last], f) && f != IterationCap
      && (f == Malformed ==> SynthesisUnreadable(last, synthesizer) || exists i :: 0 <= i < |replies| && WorkerUnreadable(replies[i], worker))
  }

  lemma SynthesisMeans(env: Env, m: Meter, tasks: seq<Subtask>, replies: seq<Reply>, last: Reply, worker: Plan, plan: Plan,
                       outputs: seq<WorkerOutput>)
    requires |tasks| == |replies| == |outputs| && m.started == env.clock(0)
    requires forall i :: 0 <= i < |tasks| ==> outputs[i].id == tasks[i].id && Answered(replies[i], outputs[i].output)
    ensures FanOutMeans(env, Synthesize(env, m, plan, last, outputs), tasks, replies, last, worker, plan)
  {
    hide Invoke, ParseSynthesis, Complete, CompletionOk, Fail, Blames, SynthesisJson, SynthesisSpelled, Answered, WorkerUnreadable;
    var all := replies + [last];
    assert all[|replies|] == last;
    InvokeBlames(env, m, Synthesizer, plan, last);
    var (a, failure) := Invoke(env, m, Synthesizer, plan, last);
    if failure.Some? {
      FailingBlames<FanOutResult>(env, a, [last], all, failure.value);
    } else {
      UnreadBlames(env, a, all);
      CompleteBlames(env, a);
      var (done, spend) := Complete(env, a);
      if spend.Threw? { FailingBlames<FanOutResult>(env, done, [], all, spend.failure); }
      forall s ensures ParseSynthesis(last.completion.text) == Some(s) <==> Says(last, SynthesisJson(s)) && SynthesisSpelled(s) {
        ReadsSynthesis(last.completion.text, s);
      }
    }
  }

  lemma {:induction false} FirstOfRejected(settled: seq<Settlement>)
    ensures FirstRejected(settled).None? <==> forall i :: 0 <= i < |settled| ==> !settled[i].Rejected?
    ensures FirstRejected(settled).Some? ==> exists i :: 0 <= i < |settled| && settled[i] == Rejected(FirstRejected(settled).value)
  {
    if settled != [] && !settled[0].Rejected? {
      FirstOfRejected(settled[1..]);
      assert forall i :: 0 <= i < |settled[1..]| ==> settled[1..][i] == settled[i + 1];
      if FirstRejected(settled).Some? {
        var i :| 0 <= i < |settled[1..]| && settled[1..][i] == Rejected(FirstRejected(settled).value);
        assert settled[i + 1] == Rejected(FirstRejected(settled).value);
      }
    }
  }

  lemma RejectedMeans(env: Env, m: Meter, tasks: seq<Subtask>, replies: seq<Reply>, last: Reply, worker: Plan, synthesizer: Plan,
                      settled: seq<Settlement>)
    requires |tasks| == |replies| && AllSettledBy(env, m, worker, replies, settled) && FirstRejected(settled).Some?
    ensures FanOutMeans(env, Failing(env, m, FirstRejected(settled).value), tasks, replies, last, worker, synthesizer)
  {
    hide Blames, Fail, WorkerUnreadable;
    FirstOfRejected(settled);
    var f := FirstRejected(settled).value;
    var i :| 0 <= i < |settled| && settled[i] == Rejected(f);
    assert SettledBy(env, m, worker, replies, i, settled[i]);
    FailingBlames<FanOutResult>(env, m, replies, replies + [last], f);
  }

  lemma FulfilledMean(env: Env, m: Meter, tasks: seq<Subtask>, replies: seq<Reply>, worker: Plan, settled: seq<Settlement>)
    requires |tasks| == |replies| && AllSettledBy(env, m, worker, replies, settled) && FirstRejected(settled).None?
    requires forall i :: 0 <= i < |tasks| ==> !settled[i].Pending?
    ensures var outputs := Outputs(tasks, settled);
            |outputs| == |tasks|
            && forall i :: 0 <= i < |tasks| ==> outputs[i].id == tasks[i].id && Answered(replies[i], outputs[i].output)
  {
    hide Blames, WorkerUnreadable, Answered;
    FirstOfRejected(settled);
    forall i | 0 <= i < |tasks|
      ensures Outputs(tasks, settled)[i].id == tasks[i].id && Answered(replies[i], Outputs(tasks, settled)[i].output)
    {
      assert SettledBy(env, m, worker, replies, i, settled[i]);
    }
  }

  /**
   In whatever order the workers finish, a fan-out returns under each task, in task order, exactly what
   that task's worker spelled out, and the synthesis the synthesizer spelled out with all three barrier
   criteria applied; and a fan-out that fails says what it fails for.
   */
  lemma FanOutReturnsWhatWasSaid(tasks: seq<Subtask>, worker: Plan, synthesizer: Plan, caps: Caps, date: Date, clock: nat -> int,
                                 replies: seq<Reply>, order: seq<nat>, last: Reply)
    requires |tasks| == |replies| && IsOrder(order, |tasks|)
    ensures var run := FanOut(tasks, worker, synthesizer, caps, date, clock, replies, order, last);
            run.meter.Some? ==>
              && Predicted(worker, date).Some? && Predicted(synthesizer, date).Some?
              && FanOutMeans(FanOutEnv(|tasks|, Predicted(worker, date).value, Predicted(synthesizer, date).value, caps, date, clock),
                             run, tasks, replies, last, worker, synthesizer)
  {
    hide Workers, Predicted, SubtasksOk, FanOutMeans, Fail, Synthesize, ProportionalBudget, AllSettledBy, FanOutEnv;
    if SubtasksOk(tasks) && CapsOk(caps) && PlanOk(worker) && PlanOk(synthesizer)
       && Predicted(worker, date).Some? && Predicted(synthesizer, date).Some? {
      var w, s := Predicted(worker, date).value, Predicted(synthesizer, date).value;
      var env := FanOutEnv(|tasks|, w, s, caps, date, clock);
      EnvOf(|tasks|, w, s, caps, date, clock);
      if env.predicted > caps.maxSpendUsd {
        TooDearToFan(env, tasks, replies, last, worker, synthesizer);
      } else {
        var budget := ProportionalBudget(w, env.predicted, caps.maxSpendUsd);
        WorkersMean(env, tasks, worker, budget, replies, order) by { BudgetIsPositive(tasks, worker, synthesizer, caps, date, clock); }
        var (m, settled) := Workers(env, tasks, worker, budget, replies, order);
        if FirstRejected(settled).Some? {
          RejectedMeans(env, m, tasks, replies, last, worker, synthesizer, settled);
        } else {
          FulfilledMean(env, m, tasks, replies, worker, settled);
          SynthesisMeans(env, m, tasks, replies, last, worker, synthesizer, Outputs(tasks, settled));
        }
      }
    }
  }

  lemma EnvOf(n: nat, w: real, s: real, caps: Caps, date: Date, clock: nat -> int)
    ensures var env := FanOutEnv(n, w, s, caps, date, clock); env.caps == caps && env.clock == clock
  {
  }

  lemma TooDearToFan(env: Env, tasks: seq<Subtask>, replies: seq<Reply>, last: Reply, worker: Plan, synthesizer: Plan)
    requires env.predicted > env.caps.maxSpendUsd && |tasks| == |replies|
    ensures FanOutMeans(env, Failing(env, NewMeter(env), PredictedSpend), tasks, replies, last, worker, synthesizer)
  {
    FailGoesOn(env, NewMeter(env), PredictedSpend);
  }

  lemma BudgetIsPositive(tasks: seq<Subtask>, worker: Plan, synthesizer: Plan, caps: Caps, date: Date, clock: nat -> int)
    requires SubtasksOk(tasks) && CapsOk(caps) && PlanOk(worker) && PlanOk(synthesizer)
    requires Predicted(worker, date).Some? && Predicted(synthesizer, date).Some?
    ensures var w, s := Predicted(worker, date).value, Predicted(synthesizer, date).value;
            ProportionalBudget(w, FanOutEnv(|tasks|, w, s, caps, date, clock).predicted, caps.maxSpendUsd) > 0.0
  {
    hide Predicted, ProportionalBudget;
    PredictedPositive(worker, date);
    PredictedPositive(synthesizer, date);
    var w, s := Predicted(worker, date).value, Predicted(synthesizer, date).value;
    SharesAddUp(w, s, |tasks|, w * |tasks| as real + s, caps.maxSpendUsd);
  }
}
