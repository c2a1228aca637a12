/**
 What the patterns return, read off the replies themselves: every text of a result is the one its own
 reply spelled out, a loop is verified only by a verdict that passed, and a run that ends otherwise
 says why.

 Line numbers refer to harness/orchestration-patterns.ts.
 */
module OrchestrationAnswers {
  import opened Basics
  import opened Sorting
  import opened Texts
  import opened Provider
  import opened Cost
  import opened Orchestration

  // ---- What a reply has to spell out -------------------------------------------------------------

  /** The text of a reply that came. */
  ghost predicate Says(reply: Reply, j: Json) {
    reply.Answers? && reply.completion.text == Parsed(j)
  }

  function One(key: string, value: string): Json {
    JObject(map[key := JText(value)])
  }

  lemma ParsesOne(t: Text, key: string, value: string)
    ensures ParseOutput(t, key) == Some(value) <==> t == Parsed(One(key, value)) && !Blank(value)
  {
    if ParseOutput(t, key) == Some(value) {
      assert t.value.fields == map[key := JText(value)];
    }
  }

  function Two(k: string, a: Json, l: string, b: Json): Json {
    JObject(map[k := a, l := b])
  }

  function Three(k: string, a: Json, l: string, b: Json, m: string, c: Json): Json {
    JObject(map[k := a, l := b, m := c])
  }

  lemma FieldsOfThree(f: map<string, Json>, k: string, l: string, m: string)
    requires k != l && l != m && k != m && f.Keys == {k, l, m}
    ensures f == map[k := f[k], l := f[l], m := f[m]]
  {
  }

  lemma FieldsOfTwo(f: map<string, Json>, k: string, l: string)
    requires k != l && f.Keys == {k, l}
    ensures f == map[k := f[k], l := f[l]]
  {
  }

  // ---- Lists -------------------------------------------------------------------------------------

  lemma {:induction false} ReadsEach<T>(items: seq<Json>, read: Json -> Option<T>, values: seq<T>)
    requires |items| == |values| && forall i :: 0 <= i < |items| ==> read(items[i]) == Some(values[i])
    ensures ReadAll(items, read) == Some(values)
  {
    if items != [] {
      ReadsEach(items[1..], read, values[1..]);
      assert values == [values[0]] + values[1..];
    }
  }

  /** A reader that accepts exactly what a writer writes reads exactly the lists of such items. */
  lemma ReadsList<T(!new)>(items: seq<Json>, read: Json -> Option<T>, write: T -> Json, ok: T -> bool, values: seq<T>)
    requires forall j, x :: read(j) == Some(x) <==> j == write(x) && ok(x)
    ensures ReadAll(items, read) == Some(values) <==> items == Map(write, values) && forall i :: 0 <= i < |values| ==> ok(values[i])
  {
    hide ReadAll;
    var written := Map(write, values);
    if ReadAll(items, read) == Some(values) {
      forall i | 0 <= i < |items| ensures items[i] == written[i] && ok(values[i]) {
        assert read(items[i]) == Some(values[i]);
      }
      assert items == written;
    }
    if items == written && forall i :: 0 <= i < |values| ==> ok(values[i]) {
      forall i | 0 <= i < |items| ensures read(items[i]) == Some(values[i]) {
        assert items[i] == write(values[i]);
      }
      ReadsEach(items, read, values);
    }
  }

  // ---- Verdicts ----------------------------------------------------------------------------------

  function FailureJson(f: StructuredFailure): Json {
    Three("criterion", JText(f.criterion), "expected", JText(f.expected), "observed", JText(f.observed))
  }

  predicate FailureSpelled(f: StructuredFailure) {
    !Blank(f.criterion) && !Blank(f.expected) && !Blank(f.observed)
  }

  function VerdictJson(v: Verification): Json {
    Two("pass", JBool(v.pass), "failures", JList(Map(FailureJson, v.failures)))
  }

  lemma ReadsFailure(j: Json, f: StructuredFailure)
    ensures ReadFailure(j) == Some(f) <==> j == FailureJson(f) && FailureSpelled(f)
  {
    assert "criterion" != "expected" && "expected" != "observed" && "criterion" != "observed";
    if ReadFailure(j) == Some(f) {
      FieldsOfThree(j.fields, "criterion", "expected", "observed");
    }
  }

  /** A verdict reads exactly if it is spelled out, with failures exactly when it does not pass. */
  lemma ReadsVerdict(t: Text, v: Verification)
    ensures ParseVerification(t) == Some(v) <==>
            && t == Parsed(VerdictJson(v)) && (v.pass <==> v.failures == [])
            && forall i :: 0 <= i < |v.failures| ==> FailureSpelled(v.failures[i])
  {
    hide ReadFailure, FailureJson, FailureSpelled;
    assert "pass" != "failures";
    forall j, f ensures ReadFailure(j) == Some(f) <==> j == FailureJson(f) && FailureSpelled(f) { ReadsFailure(j, f); }
    if t.Parsed? && t.value.JObject? && t.value.fields.Keys == {"pass", "failures"} {
      var o := t.value.fields;
      FieldsOfTwo(o, "pass", "failures");
      if o["failures"].JList? {
        ReadsList(o["failures"].items, ReadFailure, FailureJson, FailureSpelled, v.failures);
      }
    }
  }

  // ---- Reasons -----------------------------------------------------------------------------------

  /** A reading of the clock up to now lies this far from the start. */
  ghost predicate Late(env: Env, ticks: nat, ms: int) {
    exists k: nat :: k <= ticks && env.clock(k) - env.clock(0) >= ms
  }

  predicate IsRefusal(reply: Reply) {
    reply.Answers? && (reply.completion.refused || reply.completion.stopReason == Some("refusal"))
  }

  /**
   A failure that is not about what a reply says is true of what was spent, of the time that went by, or
   of a reply that was heard.
   */
  ghost predicate Blames(env: Env, m: Meter, heard: seq<Reply>, f: Failure) {
    match f
    case PredictedSpend => env.predicted > env.caps.maxSpendUsd && m.calls == []
    case TokensExhausted => TokenTotal(m.usage) >= env.caps.maxTokens
    case SpendExhausted => m.cost >= env.caps.maxSpendUsd
    case NoBudget => m.cost >= env.caps.maxSpendUsd
    case ClockExhausted => Late(env, m.ticks, env.caps.maxWallClockMs)
    case ProviderError => Rejects in heard
    case Refused => exists k :: 0 <= k < |heard| && IsRefusal(heard[k])
    case SpendExceeded => m.cost > env.caps.maxSpendUsd
    case TokensExceeded => TokenTotal(m.usage) > env.caps.maxTokens
    case ClockExceeded => Late(env, m.ticks, env.caps.maxWallClockMs + 1)
    case Malformed => true
    case IterationCap => true
    case InvalidInput => false
    case Unpriced => false
  }

  /** A later meter of the same run. */
  ghost predicate Onward(m: Meter, a: Meter) {
    a.started == m.started && m.cost <= a.cost && TokenTotal(m.usage) <= TokenTotal(a.usage) && m.ticks <= a.ticks
  }

  lemma BlameStands(env: Env, m: Meter, heard: seq<Reply>, a: Meter, more: seq<Reply>, f: Failure)
    requires Blames(env, m, heard, f) && Onward(m, a) && (forall r :: r in heard ==> r in more) && f != PredictedSpend
    ensures Blames(env, a, more, f)
  {
    if f == Refused {
      var k :| 0 <= k < |heard| && IsRefusal(heard[k]);
      assert heard[k] in more;
      var j :| 0 <= j < |more| && more[j] == heard[k];
    }
  }

  lemma BeginBlames(env: Env, m: Meter, share: Option<real>)
    requires m.started == env.clock(0) && (share.Some? ==> share.value > 0.0)
    ensures var (b, begun) := Begin(env, m, share);
            Onward(m, b) && b.calls == m.calls && (begun.Denied? ==> Blames(env, b, [], begun.failure) && begun.failure != PredictedSpend)
            && (begun.Denied? ==> begun.failure != Malformed && begun.failure != IterationCap)
  {
    assert m.ticks <= Tick(m).ticks;
  }

  lemma RecordingGoesOn(env: Env, m: Meter, role: Role, plan: Plan, budget: real, c: Completion)
    requires CompletionOk(c, plan.model)
    ensures Onward(m, Record(env, m, role, plan, budget, c))
  {
    hide Predicted;
  }

  lemma FinishBlames(env: Env, m: Meter, role: Role, plan: Plan, budget: real, reply: Reply)
    requires m.started == env.clock(0)
    ensures var (a, failure) := Finish(env, m, role, plan, budget, reply);
            && Onward(m, a)
            && (failure.Some? ==> Blames(env, a, [reply], failure.value) && failure.value != PredictedSpend && failure.value != IterationCap)
            && (failure == Some(Malformed) ==> reply.Answers? && !CompletionOk(reply.completion, plan.model))
            && (failure.None? ==> reply.Answers?)
  {
    hide Record, CompletionOk, SortText, AllModels, Sorting.Distinct;
    if reply.Answers? && CompletionOk(reply.completion, plan.model) {
      RecordingGoesOn(env, m, role, plan, budget, reply.completion);
      var r := Record(env, m, role, plan, budget, reply.completion);
      assert [reply][0] == reply;
      assert r.ticks <= Tick(r).ticks;
    }
  }

  lemma InvokeBlames(env: Env, m: Meter, role: Role, plan: Plan, reply: Reply)
    requires m.started == env.clock(0)
    ensures var (a, failure) := Invoke(env, m, role, plan, reply);
            && Onward(m, a)
            && (failure.Some? ==> Blames(env, a, [reply], failure.value) && failure.value != PredictedSpend && failure.value != IterationCap)
            && (failure == Some(Malformed) ==> reply.Answers? && !CompletionOk(reply.completion, plan.model))
            && (failure.None? ==> reply.Answers?)
  {
    hide Finish, CompletionOk, Begin, Blames, Late;
    BeginBlames(env, m, None);
    var (b, begun) := Begin(env, m, None);
    if begun.Begun? {
      FinishBlames(env, b, role, plan, begun.budget, reply);
    } else {
      OnwardHolds(b);
      BlameStands(env, b, [], b, [reply], begun.failure);
    }
  }

  lemma OnwardHolds(m: Meter)
    ensures Onward(m, m)
  {
  }

  lemma CompleteBlames(env: Env, m: Meter)
    requires m.started == env.clock(0)
    ensures var (done, spend) := Complete(env, m);
            && Onward(m, done)
            && (spend.Threw? ==> Blames(env, done, [], spend.failure) && spend.failure != PredictedSpend && spend.failure != IterationCap
                                 && spend.failure != Malformed)
  {
    hide SortText, AllModels, Sorting.Distinct;
    assert m.ticks <= Tick(m).ticks;
  }

  /** Failing adds an entry and nothing to the account. */
  lemma FailGoesOn(env: Env, m: Meter, f: Failure)
    ensures Onward(m, Fail(env, m, f)) && Fail(env, m, f).calls == m.calls
  {
    hide ReceiptOf;
  }

  /** A run that failed right after this failure of a call. */
  lemma FailingBlames<T>(env: Env, m: Meter, heard: seq<Reply>, more: seq<Reply>, f: Failure)
    requires Blames(env, m, heard, f) && (forall r :: r in heard ==> r in more) && f != PredictedSpend
    ensures var run: Run<T> := Failing(env, m, f); run.meter.Some? && Blames(env, run.meter.value, more, f)
  {
    hide Blames, Fail;
    FailGoesOn(env, m, f);
    BlameStands(env, m, heard, Fail(env, m, f), more, f);
  }

  /**
   The code of a failure tells what happened: money predicted or spent up to the cap, tokens used up to
   it, time gone up to it, a reply that was a refusal, or one that did not come.
   */
  lemma CodeTellsWhy(env: Env, m: Meter, heard: seq<Reply>, f: Failure)
    requires Blames(env, m, heard, f)
    ensures match CodeOf(f)
            case SpendCode => env.predicted > env.caps.maxSpendUsd || m.cost >= env.caps.maxSpendUsd
            case TokenCode => TokenTotal(m.usage) >= env.caps.maxTokens
            case ClockCode => Late(env, m.ticks, env.caps.maxWallClockMs)
            case RefusalCode => exists k :: 0 <= k < |heard| && IsRefusal(heard[k])
            case ProviderCode => Rejects in heard
            case InvalidInputCode => false
            case MalformedCode => f == Malformed
            case IterationCapCode => f == IterationCap
  {
    if f == ClockExceeded {
      var k: nat :| k <= m.ticks && env.clock(k) - env.clock(0) >= env.caps.maxWallClockMs + 1;
      assert env.clock(k) - env.clock(0) >= env.caps.maxWallClockMs;
    }
  }

  // ---- Loop until done ---------------------------------------------------------------------------

  /** Each failure quotes one criterion of the rubric, with what was expected of it, and none twice; all are spelled out. */
  ghost predicate Quoting(fs: seq<StructuredFailure>, rubric: seq<Criterion>) {
    && (forall i :: 0 <= i < |fs| ==> FailureSpelled(fs[i]) && Quoted(fs[i], rubric))
    && (forall i, j :: 0 <= i < j < |fs| ==> fs[i].criterion != fs[j].criterion)
  }

  ghost predicate Quoted(f: StructuredFailure, rubric: seq<Criterion>) {
    exists r :: 0 <= r < |rubric| && rubric[r].id == f.criterion && rubric[r].expected == f.expected
  }

  /** Iteration `i` put forward `output`. */
  ghost predicate PutForward(replies: nat -> Reply, i: nat, output: string)
    requires i >= 1
  {
    Says(replies(2 * i - 2), One("candidate", output)) && !Blank(output)
  }

  ghost predicate PassedIn(replies: nat -> Reply, i: nat)
    requires i >= 1
  {
    Says(replies(2 * i - 1), VerdictJson(Verification(true, [])))
  }

  /** Iteration `i` put something forward, and the verifier turned it down, quoting the rubric. */
  ghost predicate TurnedDown(replies: nat -> Reply, rubric: seq<Criterion>, i: nat)
    requires i >= 1
  {
    && (exists output :: PutForward(replies, i, output))
    && exists fs :: fs != [] && Quoting(fs, rubric) && Says(replies(2 * i - 1), VerdictJson(Verification(false, fs)))
  }

  /** Iteration `i` cannot be read: a reply is not in order, or does not spell out what it should. */
  ghost predicate Unreadable(replies: nat -> Reply, rubric: seq<Criterion>, maker: Plan, verifier: Plan, i: nat)
    requires i >= 1
  {
    var m, v := replies(2 * i - 2), replies(2 * i - 1);
    || (m.Answers? && !CompletionOk(m.completion, maker.model)) || (v.Answers? && !CompletionOk(v.completion, verifier.model))
    || (forall output :: !PutForward(replies, i, output))
    || (!PassedIn(replies, i) && !TurnedDown(replies, rubric, i))
  }

  /** A verdict is read as a pass or as a rejection by name exactly if it is one. */
  lemma VerdictsAgree(replies: nat -> Reply, rubric: seq<Criterion>, i: nat)
    requires i >= 1 && replies(2 * i - 1).Answers? && (exists output :: PutForward(replies, i, output))
    ensures var v := ParseVerification(replies(2 * i - 1).completion.text);
            && (v.Some? && v.value.pass <==> PassedIn(replies, i))
            && (v.Some? && !v.value.pass && FailuresOk(v.value.failures, rubric) <==> TurnedDown(replies, rubric, i))
  {
    hide VerdictJson, ParseVerification, FailureSpelled, PutForward;
    var t := replies(2 * i - 1).completion.text;
    var v := ParseVerification(t);
    ReadsVerdict(t, Verification(true, []));
    if v.Some? {
      ReadsVerdict(t, v.value);
      if v.value.pass {
        assert v.value == Verification(true, []);
      } else if FailuresOk(v.value.failures, rubric) {
        QuotesAgree(v.value.failures, rubric);
        assert v.value == Verification(false, v.value.failures);
      }
    }
    if TurnedDown(replies, rubric, i) {
      var fs :| fs != [] && Quoting(fs, rubric) && Says(replies(2 * i - 1), VerdictJson(Verification(false, fs)));
      ReadsVerdict(t, Verification(false, fs));
      QuotesAgree(fs, rubric);
    }
  }

  lemma QuotesAgree(fs: seq<StructuredFailure>, rubric: seq<Criterion>)
    requires forall i :: 0 <= i < |fs| ==> FailureSpelled(fs[i])
    ensures FailuresOk(fs, rubric) <==> Quoting(fs, rubric)
  {
    forall i | 0 <= i < |fs| ensures Quotes(fs[i], rubric) <==> Quoted(fs[i], rubric) {
    }
  }

  /** What one iteration means. */
  lemma IterationAnswers(env: Env, m: Meter, rubric: seq<Criterion>, maker: Plan, verifier: Plan, i: nat, replies: nat -> Reply)
    requires i >= 1 && m.started == env.clock(0)
    ensures var turn := Iteration(env, m, rubric, maker, verifier, i, replies(2 * i - 2), replies(2 * i - 1));
            && (turn.Again? ==> TurnedDown(replies, rubric, i) && turn.meter.started == env.clock(0))
            && (turn.Stop? && turn.run.outcome.Done? ==>
                  var l := turn.run.outcome.value;
                  l.iterations == i && l.verified && PutForward(replies, i, l.output) && PassedIn(replies, i))
            && (turn.Stop? && turn.run.outcome.Threw? ==>
                  && turn.run.outcome.failure != IterationCap && turn.run.meter.Some?
                  && Blames(env, turn.run.meter.value, [replies(2 * i - 2), replies(2 * i - 1)], turn.run.outcome.failure)
                  && (turn.run.outcome.failure == Malformed ==> Unreadable(replies, rubric, maker, verifier, i)))
  {
    hide Invoke, ParseOutput, ParseVerification, FailuresOk, Complete, CompletionOk, VerdictJson, Quoting, Says, Fail, Blames;
    var made, verified := replies(2 * i - 2), replies(2 * i - 1);
    var both := [made, verified];
    assert both[0] == made && both[1] == verified;
    InvokeBlames(env, m, LoopMaker(i), maker, made);
    var (b, failure) := Invoke(env, m, LoopMaker(i), maker, made);
    if failure.Some? {
      FailingBlames<LoopResult>(env, b, [made], both, failure.value);
    } else {
      CandidateAgrees(replies, i);
      InvokeBlames(env, b, LoopVerifier(i), verifier, verified);
      var (c, failed) := Invoke(env, b, LoopVerifier(i), verifier, verified);
      UnreadBlames(env, b, both);
      UnreadBlames(env, c, both);
      if failed.Some? {
        FailingBlames<LoopResult>(env, c, [verified], both, failed.value);
      } else {
        if ParseOutput(made.completion.text, "candidate").Some? { VerdictsAgree(replies, rubric, i); }
        CompleteBlames(env, c);
        var (done, spend) := Complete(env, c);
        if spend.Threw? { FailingBlames<LoopResult>(env, done, [], both, spend.failure); }
      }
    }
  }

  /** Nothing is to be blamed for a reply that does not read but the reply. */
  lemma UnreadBlames(env: Env, m: Meter, heard: seq<Reply>)
    ensures Blames(env, Fail(env, m, Malformed), heard, Malformed) && Blames(env, Fail(env, m, IterationCap), heard, IterationCap)
  {
  }

  lemma CandidateAgrees(replies: nat -> Reply, i: nat)
    requires i >= 1 && replies(2 * i - 2).Answers?
    ensures var o := ParseOutput(replies(2 * i - 2).completion.text, "candidate");
            && (o.Some? ==> PutForward(replies, i, o.value))
            && (o.None? ==> forall output :: !PutForward(replies, i, output))
  {
    hide ParseOutput;
    forall output ensures ParseOutput(replies(2 * i - 2).completion.text, "candidate") == Some(output) <==> PutForward(replies, i, output) {
      ParsesOne(replies(2 * i - 2).completion.text, "candidate", output);
    }
  }

  lemma {:induction false} IterateAnswers(env: Env, m: Meter, rubric: seq<Criterion>, maker: Plan, verifier: Plan, max: nat, i: nat,
                                          replies: nat -> Reply)
    requires 1 <= i <= max + 1 && m.started == env.clock(0) && forall j :: 1 <= j < i ==> TurnedDown(replies, rubric, j)
    ensures LoopMeans(Iterate(env, m, rubric, maker, verifier, max, i, replies), rubric, maker, verifier, max, replies)
    ensures var run := Iterate(env, m, rubric, maker, verifier, max, i, replies);
            run.outcome.Threw? ==> run.meter.Some? && Blames(env, run.meter.value, Heard(replies, max), run.outcome.failure)
    decreases max + 1 - i
  {
    hide Iteration, TurnedDown, PutForward, PassedIn, Unreadable, Fail, Blames;
    if i > max {
      UnreadBlames(env, m, Heard(replies, max));
    } else {
      IterationAnswers(env, m, rubric, maker, verifier, i, replies);
      match Iteration(env, m, rubric, maker, verifier, i, replies(2 * i - 2), replies(2 * i - 1))
      case Stop(run) =>
        if run.outcome.Threw? {
          var heard := Heard(replies, max);
          assert heard[2 * i - 2] == replies(2 * i - 2) && heard[2 * i - 1] == replies(2 * i - 1);
          OnwardHolds(run.meter.value);
          NeverPredicted(env, m, rubric, maker, verifier, i, replies);
          BlameStands(env, run.meter.value, [replies(2 * i - 2), replies(2 * i - 1)], run.meter.value, heard, run.outcome.failure);
        }
      case Again(after) => IterateAnswers(env, after, rubric, maker, verifier, max, i + 1, replies);
    }
  }

  /** All replies a loop may hear. */
  ghost function Heard(replies: nat -> Reply, max: nat): (r: seq<Reply>)
    ensures |r| == 2 * max && forall k :: 0 <= k < 2 * max ==> r[k] == replies(k)
  {
    seq(2 * max, k requires 0 <= k => replies(k))
  }

  lemma NeverPredicted(env: Env, m: Meter, rubric: seq<Criterion>, maker: Plan, verifier: Plan, i: nat, replies: nat -> Reply)
    requires i >= 1 && m.started == env.clock(0)
    ensures var turn := Iteration(env, m, rubric, maker, verifier, i, replies(2 * i - 2), replies(2 * i - 1));
            turn.Stop? ==> turn.run.outcome != Threw(PredictedSpend)
  {
    hide Invoke, ParseOutput, ParseVerification, FailuresOk, Complete, CompletionOk, Fail, Blames;
    InvokeBlames(env, m, LoopMaker(i), maker, replies(2 * i - 2));
    var (b, failure) := Invoke(env, m, LoopMaker(i), maker, replies(2 * i - 2));
    InvokeBlames(env, b, LoopVerifier(i), verifier, replies(2 * i - 1));
    CompleteBlames(env, Invoke(env, b, LoopVerifier(i), verifier, replies(2 * i - 1)).0);
  }

  /** What the end of a loop says about the replies. */
  ghost predicate LoopMeans(run: Run<LoopResult>, rubric: seq<Criterion>, maker: Plan, verifier: Plan, max: int, replies: nat -> Reply) {
    match run.outcome
    case Done(l) =>
      && 1 <= l.iterations <= max && l.verified
      && PutForward(replies, l.iterations, l.output) && PassedIn(replies, l.iterations)
      && forall j :: 1 <= j < l.iterations ==> TurnedDown(replies, rubric, j)
    case Threw(IterationCap) => forall j :: 1 <= j <= max ==> TurnedDown(replies, rubric, j)
    case Threw(Malformed) =>
      exists i: nat :: 1 <= i <= max && Unreadable(replies, rubric, maker, verifier, i) && forall j :: 1 <= j < i ==> TurnedDown(replies, rubric, j)
    case Threw(_) => true
  }

  /**
   A loop returns only a candidate the verifier passed, verbatim, after the verifier turned down every
   earlier one by quoting the rubric; it gives up only if the verifier turned down all of them; it
   calls a reply malformed only at the first iteration that does not read; and every other failure has
   its reason in the account, the clock or a reply.
   */
  lemma LoopReturnsWhatPassed(task: string, rubric: seq<Criterion>, maker: Plan, verifier: Plan, caps: Caps, max: int, date: Date,
                              clock: nat -> int, replies: nat -> Reply)
    ensures var run := Loop(task, rubric, maker, verifier, caps, max, date, clock, replies);
            && LoopMeans(run, rubric, maker, verifier, max, replies)
            && (run.outcome.Threw? && run.meter.Some? ==>
                  && max > 0 && Predicted(maker, date).Some? && Predicted(verifier, date).Some?
                  && Blames(LoopEnv(max, Predicted(maker, date).value, Predicted(verifier, date).value, caps, date, clock),
                            run.meter.value, Heard(replies, max), run.outcome.failure))
  {
    hide Iterate, Predicted, Bounded, RubricOk, LoopEnv, CapsOk, TurnedDown, Unreadable, PutForward, PassedIn, Fail;
    if Bounded(task, 20_000) && CapsOk(caps) && max > 0 && PlanOk(maker) && PlanOk(verifier) && RubricOk(rubric)
       && Predicted(maker, date).Some? && Predicted(verifier, date).Some? {
      var env := LoopEnv(max, Predicted(maker, date).value, Predicted(verifier, date).value, caps, date, clock);
      IterateAnswers(env, NewMeter(env), rubric, maker, verifier, max, 1, replies) by { NewStarts(env); }
      FailGoesOn(env, NewMeter(env), PredictedSpend);
    }
  }

  lemma NewStarts(env: Env)
    ensures NewMeter(env).started == env.clock(0)
  {
  }

  // ---- Adversarial -------------------------------------------------------------------------------

  function CriticJson(position: string, refutation: string): Json {
    Two("position", JText(position), "refutation", JText(refutation))
  }

  function JudgeJson(verdict: string, output: string, justification: string): Json {
    Three("verdict", JText(verdict), "output", JText(output), "justification", JText(justification))
  }

  lemma ReadsCriticism(t: Text, c: Criticism)
    ensures ParseCriticism(t) == Some(c) <==>
            t == Parsed(CriticJson(c.position, c.refutation)) && c.position in {"refute", "concede"} && !Blank(c.position) && !Blank(c.refutation)
  {
    assert "position" != "refutation";
    if t.Parsed? && t.value.JObject? && t.value.fields.Keys == {"position", "refutation"} {
      FieldsOfTwo(t.value.fields, "position", "refutation");
    }
  }

  lemma ReadsJudgement(t: Text, position: string, verdict: string, output: string, justification: string)
    ensures ParseJudgement(t, position) == Some(Judgement(verdict, Some(output), Some(justification))) <==>
            && t == Parsed(JudgeJson(verdict, output, justification))
            && verdict in {"maker", "critic", "mixed"} && !(position == "concede" && verdict == "critic")
            && !Blank(verdict) && !Blank(output) && !Blank(justification)
  {
    assert "verdict" != "output" && "output" != "justification" && "verdict" != "justification";
    if t.Parsed? && t.value.JObject? && t.value.fields.Keys == {"verdict", "output", "justification"} {
      FieldsOfThree(t.value.fields, "verdict", "output", "justification");
    }
  }

  /** The maker's reply spells out an answer. */
  ghost predicate Answered(made: Reply, output: string) {
    Says(made, One("output", output)) && !Blank(output)
  }

  ghost predicate Criticized(reply: Reply, position: string, refutation: string) {
    Says(reply, CriticJson(position, refutation)) && position in {"refute", "concede"} && !Blank(refutation)
  }

  /** The judge may not side with a critic who conceded. */
  ghost predicate Judged(reply: Reply, position: string, verdict: string, output: string, justification: string) {
    && Says(reply, JudgeJson(verdict, output, justification)) && verdict in {"maker", "critic", "mixed"}
    && !(position == "concede" && verdict == "critic") && !Blank(output) && !Blank(justification)
  }

  /** Some reply is not in order, or the three do not spell out a whole exchange. */
  ghost predicate ExchangeUnreadable(made: Reply, criticized: Reply, judged: Reply, maker: Plan, critic: Plan, judge: Plan) {
    || (made.Answers? && !CompletionOk(made.completion, maker.model))
    || (criticized.Answers? && !CompletionOk(criticized.completion, critic.model))
    || (judged.Answers? && !CompletionOk(judged.completion, judge.model))
    || forall m, p, c, v, o, w :: !(Answered(made, m) && Criticized(criticized, p, c) && Judged(judged, p, v, o, w))
  }

  ghost predicate AdversarialMeans(env: Env, run: Run<AdversarialResult>, made: Reply, criticized: Reply, judged: Reply,
                                   maker: Plan, critic: Plan, judge: Plan) {
    match run.outcome
    case Done(a) =>
      && Answered(made, a.makerOutput) && Criticized(criticized, a.position, a.refutation)
      && Judged(judged, a.position, a.verdict, a.output, a.justification)
    case Threw(f) =>
      && run.meter.Some? && Blames(env, run.meter.value, [made, criticized, judged], f) && f != IterationCap
      && (f == Malformed ==> ExchangeUnreadable(made, criticized, judged, maker, critic, judge))
  }

  lemma NoSpaceWords()
    ensures !Blank("refute") && !Blank("concede") && !Blank("maker") && !Blank("critic") && !Blank("mixed")
  {
    assert !IsSpace("refute"[0]) && !IsSpace("concede"[0]) && !IsSpace("maker"[0]) && !IsSpace("critic"[0]) && !IsSpace("mixed"[0]);
  }

  lemma JudgeMeans(env: Env, m: Meter, made: Reply, criticized: Reply, judged: Reply, maker: Plan, critic: Plan, judge: Plan,
                   output: string, c: Criticism)
    requires m.started == env.clock(0) && Answered(made, output) && Criticized(criticized, c.position, c.refutation)
    ensures AdversarialMeans(env, JudgeTurn(env, m, judge, judged, output, c), made, criticized, judged, maker, critic, judge)
  {
    hide Invoke, ParseJudgement, Complete, CompletionOk, Says, Fail, Blames, JudgeJson, CriticJson, One;
    var all := [made, criticized, judged];
    assert all[2] == judged;
    InvokeBlames(env, m, Judge, judge, judged);
    var (a, failure) := Invoke(env, m, Judge, judge, judged);
    if failure.Some? {
      FailingBlames<AdversarialResult>(env, a, [judged], all, failure.value);
    } else {
      UnreadBlames(env, a, all);
      CompleteBlames(env, a);
      var (done, spend) := Complete(env, a);
      UnreadBlames(env, done, all);
      if spend.Threw? { FailingBlames<AdversarialResult>(env, done, [], all, spend.failure); }
      JudgementAgrees(judged, c.position);
      OnlyOneCriticism(criticized, c);
    }
  }

  lemma OnlyOneCriticism(criticized: Reply, c: Criticism)
    requires Criticized(criticized, c.position, c.refutation)
    ensures forall p, r :: Criticized(criticized, p, r) ==> p == c.position && r == c.refutation
  {
    forall p, r | Criticized(criticized, p, r) ensures p == c.position && r == c.refutation {
      NoSpaceWords();
      ReadsCriticism(criticized.completion.text, Criticism(p, r));
      ReadsCriticism(criticized.completion.text, c);
    }
  }

  /** The judge's answer reads in full exactly if it is spelled out. */
  lemma JudgementAgrees(judged: Reply, position: string)
    requires judged.Answers?
    ensures var j := ParseJudgement(judged.completion.text, position);
            if j.Some? && j.value.output.Some? && j.value.justification.Some? then
              Judged(judged, position, j.value.verdict, j.value.output.value, j.value.justification.value)
            else forall v, o, w :: !Judged(judged, position, v, o, w)
  {
    hide ParseJudgement, JudgeJson;
    NoSpaceWords();
    var j := ParseJudgement(judged.completion.text, position);
    forall v, o, w ensures j == Some(Judgement(v, Some(o), Some(w))) <==> Judged(judged, position, v, o, w) {
      ReadsJudgement(judged.completion.text, position, v, o, w);
    }
    if j.Some? && j.value.output.Some? && j.value.justification.Some? {
      assert j == Some(Judgement(j.value.verdict, Some(j.value.output.value), Some(j.value.justification.value)));
    }
  }

  lemma CriticMeans(env: Env, m: Meter, made: Reply, criticized: Reply, judged: Reply, maker: Plan, critic: Plan, judge: Plan, output: string)
    requires m.started == env.clock(0) && Answered(made, output)
    ensures AdversarialMeans(env, CriticTurn(env, m, critic, judge, criticized, judged, output), made, criticized, judged, maker, critic, judge)
  {
    hide Invoke, ParseCriticism, JudgeTurn, CompletionOk, Says, Fail, Blames, JudgeJson, CriticJson, One;
    var all := [made, criticized, judged];
    assert all[1] == criticized;
    InvokeBlames(env, m, Critic, critic, criticized);
    var (a, failure) := Invoke(env, m, Critic, critic, criticized);
    if failure.Some? {
      FailingBlames<AdversarialResult>(env, a, [criticized], all, failure.value);
    } else {
      UnreadBlames(env, a, all);
      CriticismAgrees(criticized);
      var c := ParseCriticism(criticized.completion.text);
      if c.Some? { JudgeMeans(env, a, made, criticized, judged, maker, critic, judge, output, c.value); }
    }
  }

  lemma CriticismAgrees(criticized: Reply)
    requires criticized.Answers?
    ensures var c := ParseCriticism(criticized.completion.text);
            if c.Some? then Criticized(criticized, c.value.position, c.value.refutation) else forall p, r :: !Criticized(criticized, p, r)
  {
    hide ParseCriticism, CriticJson;
    NoSpaceWords();
    var c := ParseCriticism(criticized.completion.text);
    forall p, r ensures c == Some(Criticism(p, r)) <==> Criticized(criticized, p, r) {
      ReadsCriticism(criticized.completion.text, Criticism(p, r));
    }
    if c.Some? { assert c == Some(Criticism(c.value.position, c.value.refutation)); }
  }

  lemma MakerMeans(env: Env, m: Meter, made: Reply, criticized: Reply, judged: Reply, maker: Plan, critic: Plan, judge: Plan)
    requires m.started == env.clock(0)
    ensures AdversarialMeans(env, MakerTurn(env, m, maker, critic, judge, made, criticized, judged), made, criticized, judged, maker, critic, judge)
  {
    hide Invoke, ParseOutput, CriticTurn, CompletionOk, Fail, Blames, Criticized, Judged, One;
    var all := [made, criticized, judged];
    assert all[0] == made;
    InvokeBlames(env, m, Maker, maker, made);
    var (a, failure) := Invoke(env, m, Maker, maker, made);
    if failure.Some? {
      FailingBlames<AdversarialResult>(env, a, [made], all, failure.value);
    } else {
      UnreadBlames(env, a, all);
      var output := ParseOutput(made.completion.text, "output");
      forall o ensures output == Some(o) <==> Answered(made, o) { ParsesOne(made.completion.text, "output", o); }
      if output.Some? { CriticMeans(env, a, made, criticized, judged, maker, critic, judge, output.value); }
    }
  }

  /**
   Each text of an adversarial result is the one its own reply spelled out; the judge never sides with
   a critic who conceded; and a run that fails says what it fails for.
   */
  lemma AdversarialReturnsWhatWasSaid(task: string, maker: Plan, critic: Plan, judge: Plan, caps: Caps, date: Date, clock: nat -> int,
                                      made: Reply, criticized: Reply, judged: Reply)
    ensures var run := Adversarial(task, maker, critic, judge, caps, date, clock, made, criticized, judged);
            run.meter.Some? ==>
              && Predicted(maker, date).Some? && Predicted(critic, date).Some? && Predicted(judge, date).Some?
              && var predicted := Predicted(maker, date).value + Predicted(critic, date).value + Predicted(judge, date).value;
                 AdversarialMeans(Env(AdversarialPattern, predicted, caps, date, clock), run, made, criticized, judged, maker, critic, judge)
  {
    hide MakerTurn, Predicted, Bounded, CapsOk, AdversarialMeans, Fail;
    if Bounded(task, 20_000) && CapsOk(caps) && PlanOk(maker) && PlanOk(critic) && PlanOk(judge)
       && Predicted(maker, date).Some? && Predicted(critic, date).Some? && Predicted(judge, date).Some? {
      var env := Env(AdversarialPattern, Predicted(maker, date).value + Predicted(critic, date).value + Predicted(judge, date).value,
                     caps, date, clock);
      NewStarts(env);
      if env.predicted > caps.maxSpendUsd {
        TooDear(env, made, criticized, judged, maker, critic, judge);
      } else {
        MakerMeans(env, NewMeter(env), made, criticized, judged, maker, critic, judge);
      }
    }
  }

  lemma TooDear(env: Env, made: Reply, criticized: Reply, judged: Reply, maker: Plan, critic: Plan, judge: Plan)
    requires env.predicted > env.caps.maxSpendUsd
    ensures AdversarialMeans(env, Failing(env, NewMeter(env), PredictedSpend), made, criticized, judged, maker, critic, judge)
  {
    FailGoesOn(env, NewMeter(env), PredictedSpend);
  }
}
