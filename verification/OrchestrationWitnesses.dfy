/**
 Two runs that fall outside what the patterns guarantee: one that throws although its entry says
 completed, and one whose evidence is refused because it gives up too late.
 */
module OrchestrationWitnesses {
  import opened Basics
  import opened Routing
  import opened Cost
  import opened Sorting
  import opened Texts
  import opened Provider
  import opened Orchestration
  import opened OrchestrationEvidence
  import opened OrchestrationTheorems

  // ---- A completed entry without a result --------------------------------------------------------

  /** A free, instant answer with this text. */
  function FreeReply(fields: map<string, Json>): Reply {
    Answers(Completion(Haiku, ["fixture:m"], None, false, 0.0, 0.0, NO_USAGE, [], Parsed(JObject(fields))))
  }

  const MADE := map["output" := JText("a")]
  const CRITICIZED := map["position" := JText("refute"), "refutation" := JText("b")]
  const JUDGED := map["verdict" := JText("maker"), "output" := JText(" "), "justification" := JText("c")]
  const QUICK_PLAN := Plan(Haiku, 1, 1)
  const SOME_DAY := Date(2026, 7, 9)

  function Stopped(k: nat): int { 0 }

  ghost predicate Idle(m: Meter) {
    m.started == 0 && m.cost == 0.0 && TokenTotal(m.usage) == 0 && m.log == []
  }

  lemma FreeReceipt(env: Env, m: Meter)
    requires Idle(m) && CapsOk(env.caps) && env.clock(m.ticks) == 0
    ensures OverCaps(env.caps, ReceiptOf(env, m)).None?
  {
    hide SortText, AllModels, Sorting.Distinct;
  }

  lemma FreeRecord(env: Env, m: Meter, role: Role, budget: real, fields: map<string, Json>)
    requires Idle(m)
    ensures Idle(Record(env, m, role, QUICK_PLAN, budget, FreeReply(fields).completion))
    ensures CompletionOk(FreeReply(fields).completion, Haiku)
  {
    hide Predicted;
  }

  /** A free call, while the clock stands at 0, takes three readings and changes nothing but the list of calls. */
  lemma FreeInvoke(env: Env, m: Meter, role: Role, fields: map<string, Json>)
    requires Idle(m) && CapsOk(env.caps) && env.clock(m.ticks) == 0 && env.clock(m.ticks + 2) == 0
    ensures var (a, failure) := Invoke(env, m, role, QUICK_PLAN, FreeReply(fields));
            failure.None? && Idle(a) && a.ticks == m.ticks + 3
  {
    hide ReceiptOf, Record, CompletionOk, OverCaps;
    var b := Tick(Tick(m));
    var budget := env.caps.maxSpendUsd;
    assert Begin(env, m, None).0 == b && Begin(env, m, None).1.Begun? && Begin(env, m, None).1.budget == budget;
    FreeRecord(env, b, role, budget, fields);
    var c := Record(env, b, role, QUICK_PLAN, budget, FreeReply(fields).completion);
    assert c.ticks == m.ticks + 2 by { RecordTicks(env, b, role, budget, FreeReply(fields).completion); }
    FreeReceipt(env, c);
  }

  lemma RecordTicks(env: Env, m: Meter, role: Role, budget: real, c: Completion)
    ensures Record(env, m, role, QUICK_PLAN, budget, c).ticks == m.ticks
  {
    hide Predicted;
  }

  lemma FreeComplete(env: Env, m: Meter)
    requires Idle(m) && CapsOk(env.caps) && env.clock(m.ticks) == 0
    ensures var (d, spend) := Complete(env, m); spend.Done? && |d.log| == 1 && d.log[0].status == Completed
  {
    hide ReceiptOf, OverCaps;
    FreeReceipt(env, m);
  }

  lemma NotBlank(s: string)
    requires |s| > 0 && !IsSpace(s[0])
    ensures !Blank(s)
  {
  }

  lemma ParsesMade()
    ensures ParseOutput(FreeReply(MADE).completion.text, "output") == Some("a")
  {
    NotBlank("a");
    assert MADE.Keys == {"output"};
  }

  lemma ParsesCriticized()
    ensures ParseCriticism(FreeReply(CRITICIZED).completion.text) == Some(Criticism("refute", "b"))
  {
    NotBlank("refute");
    NotBlank("b");
    assert CRITICIZED.Keys == {"position", "refutation"};
  }

  lemma ParsesJudged()
    ensures var j := ParseJudgement(FreeReply(JUDGED).completion.text, "refute"); j.Some? && j.value.output.None?
  {
    NotBlank("maker");
    OneSpace();
    assert JUDGED.Keys == {"verdict", "output", "justification"};
    assert JUDGED["verdict"] == JText("maker") && JUDGED["output"] == JText(" ");
  }

  ghost predicate CompletedButMalformed(run: Run<AdversarialResult>) {
    && run.outcome == Threw(Malformed)
    && run.meter.Some? && |run.meter.value.log| == 1 && run.meter.value.log[0].status == Completed
  }

  lemma JudgedBlank(env: Env, m: Meter)
    requires Idle(m) && CapsOk(env.caps) && env.clock == Stopped
    ensures CompletedButMalformed(JudgeTurn(env, m, QUICK_PLAN, FreeReply(JUDGED), "a", Criticism("refute", "b")))
  {
    hide Invoke, Complete, ParseJudgement;
    FreeInvoke(env, m, Judge, JUDGED);
    FreeComplete(env, Invoke(env, m, Judge, QUICK_PLAN, FreeReply(JUDGED)).0);
    ParsesJudged();
  }

  lemma CriticizedBlank(env: Env, m: Meter)
    requires Idle(m) && CapsOk(env.caps) && env.clock == Stopped
    ensures CompletedButMalformed(CriticTurn(env, m, QUICK_PLAN, QUICK_PLAN, FreeReply(CRITICIZED), FreeReply(JUDGED), "a"))
  {
    hide Invoke, JudgeTurn, ParseCriticism;
    FreeInvoke(env, m, Critic, CRITICIZED);
    ParsesCriticized();
    JudgedBlank(env, Invoke(env, m, Critic, QUICK_PLAN, FreeReply(CRITICIZED)).0);
  }

  lemma MadeBlank(env: Env, m: Meter)
    requires Idle(m) && CapsOk(env.caps) && env.clock == Stopped
    ensures CompletedButMalformed(
              MakerTurn(env, m, QUICK_PLAN, QUICK_PLAN, QUICK_PLAN, FreeReply(MADE), FreeReply(CRITICIZED), FreeReply(JUDGED)))
  {
    hide Invoke, CriticTurn, ParseOutput;
    FreeInvoke(env, m, Maker, MADE);
    ParsesMade();
    CriticizedBlank(env, Invoke(env, m, Maker, QUICK_PLAN, FreeReply(MADE)).0);
  }

  /** A judge that leaves its output blank: the run throws although its entry says completed. */
  lemma CompletedWithoutResult(caps: Caps)
    requires CapsOk(caps) && caps.maxSpendUsd >= 1.0
    ensures CompletedButMalformed(
              Adversarial("t", QUICK_PLAN, QUICK_PLAN, QUICK_PLAN, caps, SOME_DAY, Stopped,
                          FreeReply(MADE), FreeReply(CRITICIZED), FreeReply(JUDGED)))
  {
    hide MakerTurn, Predicted, CompletedButMalformed, FreeReply, NewMeter, Idle;
    var p := QuickPrice();
    var env := Env(AdversarialPattern, p + p + p, caps, SOME_DAY, Stopped);
    FreshIsIdle(env);
    MadeBlank(env, NewMeter(env));
  }

  lemma FreshIsIdle(env: Env)
    requires env.clock == Stopped
    ensures Idle(NewMeter(env))
  {
  }

  lemma OneSpace()
    ensures Blank(" ")
  {
    assert IsSpace(" "[0]);
  }

  lemma QuickPrice() returns (p: real)
    ensures Predicted(QUICK_PLAN, SOME_DAY) == Some(p) && p == 0.000006
  {
    p := Predicted(QUICK_PLAN, SOME_DAY).value;
  }

  // ---- A run that gives up too late --------------------------------------------------------------

  const CANDIDATE := map["candidate" := JText("a")]
  const FAILED := map["criterion" := JText("c"), "expected" := JText("e"), "observed" := JText("o")]
  const FAILURE_LIST := [JObject(FAILED)]
  const VERDICT := map["pass" := JBool(false), "failures" := JList(FAILURE_LIST)]
  const ONE_CRITERION := [Criterion("c", "d", "e")]

  function FreeReplies(k: nat): Reply {
    FreeReply(if k % 2 == 0 then CANDIDATE else VERDICT)
  }

  /** Stands at 0 for the seven readings of a one-iteration loop, then is past the cap. */
  function LateClock(caps: Caps): nat -> int {
    (k: nat) => if k < 7 then 0 else caps.maxWallClockMs + 1
  }

  lemma ParsesCandidate()
    ensures ParseOutput(FreeReply(CANDIDATE).completion.text, "candidate") == Some("a")
  {
    NotBlank("a");
    assert CANDIDATE.Keys == {"candidate"};
  }

  lemma ReadsFailed()
    ensures ReadFailure(JObject(FAILED)) == Some(StructuredFailure("c", "e", "o"))
  {
    NotBlank("c");
    NotBlank("e");
    NotBlank("o");
    assert FAILED.Keys == {"criterion", "expected", "observed"};
    assert FAILED["criterion"] == JText("c") && FAILED["expected"] == JText("e") && FAILED["observed"] == JText("o");
  }

  lemma ParsesVerdict()
    ensures ParseVerification(FreeReply(VERDICT).completion.text) == Some(Verification(false, [StructuredFailure("c", "e", "o")]))
  {
    hide ReadFailure;
    ReadsFailed();
    assert VERDICT.Keys == {"pass", "failures"};
    var items := FAILURE_LIST;
    assert "pass" != "failures";
    assert VERDICT["pass"] == JBool(false);
    assert VERDICT["failures"].JList?;
    assert VERDICT["failures"].items == items;
    assert items[0] == JObject(FAILED) && items[1..] == [];
    var f := StructuredFailure("c", "e", "o");
    assert [f] + [] == [f];
    assert ReadAll(items, ReadFailure) == Some([StructuredFailure("c", "e", "o")]);
  }

  lemma QuotesOnly()
    ensures RubricOk(ONE_CRITERION) && FailuresOk([StructuredFailure("c", "e", "o")], ONE_CRITERION)
  {
    var f := StructuredFailure("c", "e", "o");
    assert ONE_CRITERION[0].id == f.criterion && ONE_CRITERION[0].expected == f.expected;
    assert Quotes(f, ONE_CRITERION);
  }

  lemma FreeIteration(env: Env, m: Meter)
    requires Idle(m) && CapsOk(env.caps) && forall k :: m.ticks <= k < m.ticks + 6 ==> env.clock(k) == 0
    ensures var turn := Iteration(env, m, ONE_CRITERION, QUICK_PLAN, QUICK_PLAN, 1, FreeReply(CANDIDATE), FreeReply(VERDICT));
            turn.Again? && Idle(turn.meter) && turn.meter.ticks == m.ticks + 6
  {
    hide Invoke, ParseOutput, ParseVerification, FailuresOk, Complete;
    FreeInvoke(env, m, LoopMaker(1), CANDIDATE);
    ParsesCandidate();
    FreeInvoke(env, Invoke(env, m, LoopMaker(1), QUICK_PLAN, FreeReply(CANDIDATE)).0, LoopVerifier(1), VERDICT);
    ParsesVerdict();
    QuotesOnly();
  }

  lemma LateReceipt(env: Env, m: Meter, f: Failure)
    requires Idle(m)
    ensures var run: Run<LoopResult> := Failing(env, m, f);
            && run.outcome == Threw(f) && run.meter.Some? && |run.meter.value.log| == 1
            && run.meter.value.log[0].receipt == ReceiptOf(env, m)
            && (env.clock(m.ticks) >= 0 ==> run.meter.value.log[0].receipt.elapsed == env.clock(m.ticks))
            && run.meter.value.log[0].receipt.cost == 0.0
  {
    hide SortText, AllModels, Sorting.Distinct;
  }

  ghost function FirstTurn(env: Env): Turn {
    Iteration(env, NewMeter(env), ONE_CRITERION, QUICK_PLAN, QUICK_PLAN, 1, FreeReply(CANDIDATE), FreeReply(VERDICT))
  }

  /** The run is its one iteration and the giving up after it. */
  lemma LateRun(env: Env)
    requires CapsOk(env.caps) && env.clock == LateClock(env.caps)
    ensures FirstTurn(env).Again? && Idle(FirstTurn(env).meter) && FirstTurn(env).meter.ticks == 7
    ensures Iterate(env, NewMeter(env), ONE_CRITERION, QUICK_PLAN, QUICK_PLAN, 1, 1, FreeReplies)
            == Failing(env, FirstTurn(env).meter, IterationCap)
  {
    hide Iteration, Failing, Idle, NewMeter;
    LateStart(env);
    FreeIteration(env, NewMeter(env));
    assert FreeReplies(0) == FreeReply(CANDIDATE) && FreeReplies(1) == FreeReply(VERDICT);
  }

  lemma LateStart(env: Env)
    requires env.clock == LateClock(env.caps)
    ensures Idle(NewMeter(env)) && NewMeter(env).ticks == 1 && NewMeter(env).calls == []
  {
  }

  /**
   The time cap can be missed after the last call: for any caps of at least a dollar, a loop that uses
   up its iterations in time but reads the clock late in `fail()` logs more time than the cap, and
   its evidence, which by `LoopIsAccepted` lacks nothing else, is refused.
   */
  lemma LateGiveUpIsRefused(caps: Caps, ids: seq<string>)
    requires CapsOk(caps) && caps.maxSpendUsd >= 1.0 && TaskIdsOk(ids)
    ensures var run := Loop("t", ONE_CRITERION, QUICK_PLAN, QUICK_PLAN, caps, 1, SOME_DAY, LateClock(caps), FreeReplies);
            && run.outcome == Threw(IterationCap) && run.meter.Some? && |run.meter.value.log| == 1
            && ModeOk(Fixture, run.meter.value.log[0].receipt)
            && run.meter.value.log[0].receipt.elapsed > caps.maxWallClockMs
            && !ValidEvidence(LoopEvidence(Fixture, ids, caps, 1, run))
  {
    hide Iterate, Predicted, NewMeter, RubricOk, Bounded, TaskIdsOk, ModeOk, Failing, FirstTurn, Idle, ReceiptOf, ValidEvidence, Accounted;
    var p := QuickPrice();
    var env := LoopEnv(1, p, p, caps, SOME_DAY, LateClock(caps));
    QuotesOnly();
    ShortTask();
    LateRun(env);
    LateReceipt(env, FirstTurn(env).meter, IterationCap);
    assert env.clock(7) == caps.maxWallClockMs + 1;
    LateMode(env, p);
    LoopIsAccepted("t", ONE_CRITERION, QUICK_PLAN, QUICK_PLAN, caps, 1, SOME_DAY, LateClock(caps), FreeReplies, Fixture, ids);
  }

  lemma ShortTask()
    ensures Bounded("t", 20_000)
  {
  }

  /** Every call so far was served by the fixture model. */
  ghost predicate FixtureCalls(calls: seq<Call>) {
    forall i :: 0 <= i < |calls| ==> calls[i].models == ["fixture:m"]
  }

  lemma FreeCall(env: Env, m: Meter, role: Role, fields: map<string, Json>, p: real)
    requires Open(m) && FixtureCalls(m.calls) && Predicted(QUICK_PLAN, env.date) == Some(p) && p > 0.0
    ensures var a := Invoke(env, m, role, QUICK_PLAN, FreeReply(fields)).0; Open(a) && FixtureCalls(a.calls)
  {
    hide Invoke, Books, Predicted;
    InvokeKeeps(env, m, role, QUICK_PLAN, FreeReply(fields), p);
  }

  lemma {:induction false} FixtureModels(calls: seq<Call>)
    requires FixtureCalls(calls)
    ensures forall x :: x in AllModels(calls) ==> IsFixture(x)
  {
    if calls != [] {
      FixtureModels(calls[..|calls| - 1]);
      assert IsFixture("fixture:m") by { assert "fixture:m"[..8] == "fixture:"; }
    }
  }

  /** The free run is a fixture run. */
  lemma LateMode(env: Env, p: real)
    requires CapsOk(env.caps) && env.clock == LateClock(env.caps) && Predicted(QUICK_PLAN, env.date) == Some(p) && p > 0.0
    ensures FirstTurn(env).Again? && ModeOk(Fixture, ReceiptOf(env, FirstTurn(env).meter))
  {
    hide Invoke, ParseOutput, ParseVerification, FailuresOk, Complete, Predicted, Books, SortText, Sorting.Distinct, AllModels, NewMeter,
         IsFixture;
    LateRun(env);
    var m := NewMeter(env);
    NewIsOpen(env);
    assert m.calls == [] by { LateStart(env); }
    FreeCall(env, m, LoopMaker(1), CANDIDATE, p);
    FreeCall(env, Invoke(env, m, LoopMaker(1), QUICK_PLAN, FreeReply(CANDIDATE)).0, LoopVerifier(1), VERDICT, p);
    var c := FirstTurn(env).meter;
    FixtureModels(c.calls);
    DistinctHolds(AllModels(c.calls));
    SortTextHolds(Sorting.Distinct(AllModels(c.calls)));
    var models := SortText(Sorting.Distinct(AllModels(c.calls)));
    forall i | 0 <= i < |models| ensures IsFixture(models[i]) {
      assert models[i] in models;
    }
  }
}
