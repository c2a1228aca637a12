/**
 What the maker-verifier loop returns, read off the replies themselves: the last output the maker
 spelled out, a pass exactly when the verifier passed every criterion of the rubric on it, and else
 the failures of that very verdict; and why a run that throws does.

 Line numbers refer to harness/maker-verifier.ts.
 */
module MakerVerifierAnswers {
  import opened Basics
  import opened Sorting
  import opened Texts
  import opened Provider
  import opened MakerVerifier
  import opened MakerVerifierEvidence
  import opened MakerVerifierTheorems

  // ---- What a reply has to spell out -------------------------------------------------------------

  /** A reply that came, was no refusal, and has this text. */
  ghost predicate Says(reply: Reply, j: Json) {
    reply.Answers? && !reply.completion.refused && reply.completion.text == Parsed(j)
  }

  function MakerJson(output: string, pass: bool, summary: string): Json {
    JObject(map["output" := JText(output), "selfAssessment" := JObject(map["pass" := JBool(pass), "summary" := JText(summary)])])
  }

  function CriterionJson(criterion: string, pass: bool, observed: string): Json {
    JObject(map["criterion" := JText(criterion), "pass" := JBool(pass), "observed" := JText(observed)])
  }

  /** One line that is not blank. */
  predicate Line(s: string) { !Blank(s) && OneLine(s) }

  /** The maker puts `output` forward, with an opinion of its own. */
  ghost predicate PutForward(reply: Reply, output: string, pass: bool, summary: string) {
    !Blank(output) && exists raw :: Line(raw) && Trim(raw) == summary && Says(reply, MakerJson(output, pass, raw))
  }

  /** The verifier reports this result on one criterion. */
  ghost predicate Reports(j: Json, r: CriterionResult) {
    exists raw :: Line(raw) && Trim(raw) == r.observed && j == CriterionJson(r.criterion, r.pass, raw)
  }

  /** The verifier reports these results, one on each criterion of the rubric. */
  ghost predicate Verdict(reply: Reply, rs: seq<CriterionResult>, rubric: seq<Criterion>) {
    exists items :: Says(reply, JObject(map["criteria" := JList(items)])) && |items| == |rs| && OnEach(items, rs, rubric)
  }

  ghost predicate OnEach(items: seq<Json>, rs: seq<CriterionResult>, rubric: seq<Criterion>)
    requires |items| == |rs|
  {
    && |rs| == |rubric| && NoDuplicates(Criteria(rs))
    && forall i :: 0 <= i < |rs| ==> Reports(items[i], rs[i]) && rs[i].criterion in Ids(rubric)
  }

  lemma PairFields(f: map<string, Json>, k: string, l: string)
    requires k != l && f.Keys == {k, l}
    ensures f == map[k := f[k], l := f[l]]
  {
  }

  lemma ReadsMaker(reply: Reply, made: Made)
    ensures MakerAnswer(reply) == Some(made) <==> PutForward(reply, made.output, made.pass, made.summary)
  {
    hide Blank, Trim, OneLine;
    assert "output" != "selfAssessment" && "pass" != "summary";
    if MakerAnswer(reply) == Some(made) {
      var f := reply.completion.text.value.fields;
      var g := f["selfAssessment"].fields;
      PairFields(f, "output", "selfAssessment");
      PairFields(g, "pass", "summary");
      assert Says(reply, MakerJson(made.output, made.pass, g["summary"].text));
    }
    if PutForward(reply, made.output, made.pass, made.summary) {
      var raw :| Line(raw) && Trim(raw) == made.summary && Says(reply, MakerJson(made.output, made.pass, raw));
      var f := reply.completion.text.value.fields;
      assert f.Keys == {"output", "selfAssessment"};
      assert f["selfAssessment"].fields.Keys == {"pass", "summary"};
      assert MakerJson(made.output, made.pass, raw).fields["output"] == JText(made.output);
    }
  }

  lemma ReadsResult(j: Json, ids: seq<string>, r: CriterionResult)
    ensures ReadResult(j, ids) == Some(r) <==> Reports(j, r) && r.criterion in ids
  {
    hide Blank, Trim, OneLine;
    assert "criterion" != "pass" && "pass" != "observed" && "criterion" != "observed";
    if ReadResult(j, ids) == Some(r) {
      var f := j.fields;
      assert f == map["criterion" := f["criterion"], "pass" := f["pass"], "observed" := f["observed"]];
      assert j == CriterionJson(r.criterion, r.pass, f["observed"].text);
    }
    if Reports(j, r) && r.criterion in ids {
      var raw :| Line(raw) && Trim(raw) == r.observed && j == CriterionJson(r.criterion, r.pass, raw);
      assert j.fields.Keys == {"criterion", "pass", "observed"};
    }
  }

  lemma {:induction false} ReadsResults(items: seq<Json>, ids: seq<string>, rs: seq<CriterionResult>)
    ensures ReadResults(items, ids) == Some(rs) <==>
            && |items| == |rs| && NoDuplicates(Criteria(rs))
            && forall i :: 0 <= i < |rs| ==> Reports(items[i], rs[i]) && rs[i].criterion in ids
  {
    hide ReadResult, Reports;
    if items != [] && rs != [] {
      var front, rest, r := items[..|items| - 1], rs[..|rs| - 1], rs[|rs| - 1];
      ReadsResults(front, ids, rest);
      ReadsResult(items[|items| - 1], ids, r);
      assert rs == rest + [r];
      assert Criteria(rs) == Criteria(rest) + [r.criterion];
      if ReadResults(items, ids) == Some(rs) {
        var a := ReadResults(front, ids).value;
        assert a + [ReadResult(items[|items| - 1], ids).value] == rest + [r];
        assert a == rest;
      }
      UniqueAgain(Criteria(rest), r.criterion);
    }
  }

  lemma UniqueAgain(s: seq<string>, x: string)
    ensures NoDuplicates(s + [x]) <==> NoDuplicates(s) && x !in s
  {
    var t := s + [x];
    if NoDuplicates(t) {
      forall i, j | 0 <= i < j < |s| ensures s[i] != s[j] { assert t[i] != t[j]; }
      forall i | 0 <= i < |s| ensures s[i] != x { assert t[i] != t[|s|]; }
    }
  }

  lemma ReadsVerdict(reply: Reply, rubric: seq<Criterion>, rs: seq<CriterionResult>)
    ensures VerifierAnswer(reply, rubric) == Some(rs) <==> Verdict(reply, rs, rubric)
  {
    hide ReadResults, Reports;
    if VerifierAnswer(reply, rubric) == Some(rs) {
      var f := reply.completion.text.value.fields;
      var items := f["criteria"].items;
      ReadsResults(items, Ids(rubric), rs);
      assert f == map["criteria" := JList(items)];
      assert OnEach(items, rs, rubric);
    }
    if Verdict(reply, rs, rubric) {
      var items :| Says(reply, JObject(map["criteria" := JList(items)])) && |items| == |rs| && OnEach(items, rs, rubric);
      ReadsResults(items, Ids(rubric), rs);
      assert reply.completion.text.value.fields.Keys == {"criteria"};
    }
  }

  // ---- Failures ----------------------------------------------------------------------------------

  /** `f` reports a failed result, with what the rubric expected. */
  ghost predicate ReportsFailure(f: StructuredFailure, r: CriterionResult, rubric: seq<Criterion>) {
    !r.pass && f.criterion == r.criterion && f.observed == r.observed
    && exists c :: 0 <= c < |rubric| && rubric[c].id == r.criterion && rubric[c].expected == f.expected
  }

  /** The failures are those of the failed results, in their order. */
  ghost predicate FailuresOfVerdict(fs: seq<StructuredFailure>, rs: seq<CriterionResult>, rubric: seq<Criterion>) {
    if rs == [] then fs == []
    else if rs[|rs| - 1].pass then FailuresOfVerdict(fs, rs[..|rs| - 1], rubric)
    else fs != [] && ReportsFailure(fs[|fs| - 1], rs[|rs| - 1], rubric) && FailuresOfVerdict(fs[..|fs| - 1], rs[..|rs| - 1], rubric)
  }

  lemma {:induction false} FailuresAreReported(rs: seq<CriterionResult>, rubric: seq<Criterion>)
    requires forall i :: 0 <= i < |rs| ==> rs[i].criterion in Ids(rubric)
    ensures FailuresOfVerdict(FailuresOf(rs, rubric), rs, rubric)
    ensures FailuresOf(rs, rubric) == [] <==> forall i :: 0 <= i < |rs| ==> rs[i].pass
  {
    if rs != [] {
      var front, r := rs[..|rs| - 1], rs[|rs| - 1];
      FailuresAreReported(front, rubric);
      ExpectedHolds(rubric, r.criterion);
      assert rs == front + [r];
      if !r.pass {
        var fs := FailuresOf(rs, rubric);
        assert fs[..|fs| - 1] == FailuresOf(front, rubric);
      }
    }
  }

  // ---- Results -----------------------------------------------------------------------------------

  /** What iteration `k + 1` left in the trace is what was said in it. */
  ghost predicate Tells(cfg: Config, rubric: seq<Criterion>, it: Iteration, k: nat) {
    && it.number == k + 1
    && PutForward(cfg.replies(2 * k), it.maker.output, it.maker.selfPass, it.maker.summary)
    && Verdict(cfg.replies(2 * k + 1), it.verifier.criteria, rubric)
    && FailuresOfVerdict(it.failures, it.verifier.criteria, rubric)
    && (it.verifier.pass <==> forall i :: 0 <= i < |it.verifier.criteria| ==> it.verifier.criteria[i].pass)
    && (it.failures == [] <==> it.verifier.pass)
    && it.maker.completedAt == cfg.clock(2 * k + 1) && it.verifier.completedAt == cfg.clock(2 * k + 2)
    && Receipts(cfg.replies(2 * k), it.maker.receipt) && Receipts(cfg.replies(2 * k + 1), it.verifier.receipt)
  }

  /** The receipt is the one the reply came with. */
  ghost predicate Receipts(reply: Reply, r: CallReceipt) {
    && reply.Answers?
    && var c := reply.completion;
       && r.requested == c.requested && r.models == c.models && r.stopReason == c.stopReason && r.refused == c.refused
       && r.cost == c.cost && r.duration == c.duration && r.usage == c.usage && r.modelUsage == c.modelUsage
  }

  lemma RecordedTells(cfg: Config, rubric: seq<Criterion>, it: Iteration, k: nat)
    requires Recorded(cfg, rubric, it, k)
    ensures Tells(cfg, rubric, it, k)
  {
    hide MakerAnswer, VerifierAnswer, NormalizeFailureSet, PutForward, Verdict, FailuresOf, FailuresOfVerdict;
    var m, v := cfg.replies(2 * k), cfg.replies(2 * k + 1);
    AnswersAnswer(m, v, rubric);
    ReadsMaker(m, MakerAnswer(m).value);
    var rs := VerifierAnswer(v, rubric).value;
    ReadsVerdict(v, rubric, rs);
    VerdictNames(v, rs, rubric);
    FailuresAreReported(rs, rubric);
  }

  lemma VerdictNames(reply: Reply, rs: seq<CriterionResult>, rubric: seq<Criterion>)
    requires Verdict(reply, rs, rubric)
    ensures forall i :: 0 <= i < |rs| ==> rs[i].criterion in Ids(rubric)
  {
  }

  /**
   A run that returns after `n` iterations returns the output the maker put forward in the last of
   them, verbatim.  It passes exactly if the verifier passed every criterion on that output, which it
   did on none before; it stops early only then.  Its failures are those of the last verdict, and its
   trace tells every iteration as it was said.
   */
  lemma ReturnsTheLastOutput(cfg: Config, used: set<nat>, task: Task, rubric: seq<Criterion>, max: int)
    requires Run(cfg, used, task, rubric, max).Returned?
    ensures var r := Run(cfg, used, task, rubric, max).result;
            var n := |r.trace.iterations|;
            && 1 <= n <= max && r.iterations == n
            && (forall k :: 0 <= k < n ==> Tells(cfg, rubric, r.trace.iterations[k], k))
            && (forall k :: 0 <= k < n - 1 ==> !r.trace.iterations[k].verifier.pass)
            && r.output == r.trace.iterations[n - 1].maker.output
            && (r.pass <==> r.trace.iterations[n - 1].verifier.pass) && (r.pass <==> r.stoppedBy == Verified)
            && r.failures == r.trace.iterations[n - 1].failures
            && (!r.pass ==> n == max)
            && r.trace.stoppedBy == r.stoppedBy && r.trace.maxIters == max && r.trace.taskId == task.id
            && r.trace.startedAt == cfg.clock(0) && r.trace.completedAt == cfg.clock(2 * n)
  {
    hide Run, RubricOk, TaskOk, Recorded, Tells, SumCost, SumUsage, TraceCost, TraceUsage;
    RunFinishes(cfg, used, task, rubric, max);
    var o := Run(cfg, used, task, rubric, max);
    var p, r := o.progress, o.result;
    var n := |p.iterations|;
    forall k | 0 <= k < n ensures Tells(cfg, rubric, p.iterations[k], k) {
      RecordedTells(cfg, rubric, p.iterations[k], k);
    }
    TellsEnd(cfg, rubric, p.iterations[n - 1], n - 1);
    assert forall k :: 0 <= k < n - 1 ==> p.iterations[..n - 1][k] == p.iterations[k];
  }

  lemma TellsEnd(cfg: Config, rubric: seq<Criterion>, it: Iteration, k: nat)
    requires Tells(cfg, rubric, it, k)
    ensures it.failures == [] <==> it.verifier.pass
    ensures it.verifier.completedAt == cfg.clock(2 * k + 2)
  {
    hide PutForward, Verdict, FailuresOfVerdict;
  }

  // ---- Throwing ----------------------------------------------------------------------------------

  /** Iteration `i` cannot be finished. */
  ghost predicate Broken(cfg: Config, used: set<nat>, task: Task, rubric: seq<Criterion>, i: nat)
    requires i >= 1
  {
    || !PutsForward(cfg.replies(2 * i - 2)) || !NewProvider(cfg, used, i) || !Judges(cfg.replies(2 * i - 1), rubric)
    || (i >= 2 && Escalated(cfg, task).None?)
  }

  /** The maker puts something forward. */
  ghost predicate PutsForward(reply: Reply) {
    exists output, pass, summary :: PutForward(reply, output, pass, summary)
  }

  /** The verifier reports on each criterion. */
  ghost predicate Judges(reply: Reply, rubric: seq<Criterion>) {
    exists rs :: Verdict(reply, rs, rubric)
  }

  /** The factory hands out a provider that is not the maker's and was used by no earlier run or iteration. */
  ghost predicate NewProvider(cfg: Config, used: set<nat>, i: nat) {
    && cfg.verifiers(i).Some? && cfg.verifiers(i).value != cfg.makerProvider && cfg.verifiers(i).value !in used
    && forall j :: 1 <= j < i ==> cfg.verifiers(j) != cfg.verifiers(i)
  }

  /** Who was used so far. */
  ghost predicate UsedSoFar(cfg: Config, used: set<nat>, p: Progress, i: nat) {
    && used <= p.used && (forall j :: 1 <= j < i ==> cfg.verifiers(j).Some? && cfg.verifiers(j).value in p.used)
    && (forall x :: x in p.used ==> x in used || exists j :: 1 <= j < i && cfg.verifiers(j) == Some(x))
    && (i == 1 ==> p.previous.None?)
  }

  lemma MakerReads(reply: Reply)
    ensures MakerAnswer(reply).Some? <==> PutsForward(reply)
  {
    hide MakerAnswer, PutForward;
    forall output, pass, summary
      ensures MakerAnswer(reply) == Some(Made(output, pass, summary)) <==> PutForward(reply, output, pass, summary)
    {
      ReadsMaker(reply, Made(output, pass, summary));
    }
    if MakerAnswer(reply).Some? {
      var made := MakerAnswer(reply).value;
      assert made == Made(made.output, made.pass, made.summary);
    }
  }

  lemma VerifierReads(reply: Reply, rubric: seq<Criterion>)
    ensures VerifierAnswer(reply, rubric).Some? <==> Judges(reply, rubric)
  {
    hide VerifierAnswer, Verdict;
    forall rs ensures VerifierAnswer(reply, rubric) == Some(rs) <==> Verdict(reply, rs, rubric) {
      ReadsVerdict(reply, rubric, rs);
    }
  }

  lemma IteratedThrows(cfg: Config, used: set<nat>, task: Task, rubric: seq<Criterion>, p: Progress, i: nat)
    requires i >= 1 && |p.iterations| == i - 1 && UsedSoFar(cfg, used, p, i)
    ensures match Iterated(cfg, task, rubric, p, i)
            case Thrown(_) => Broken(cfg, used, task, rubric, i)
            case Again(q) => |q.iterations| == i && UsedSoFar(cfg, used, q, i + 1)
            case Passed(q) => |q.iterations| == i
  {
    hide MakerAnswer, VerifierAnswer, TraceOf, Escalated, PutsForward, Judges;
    MakerReads(cfg.replies(2 * i - 2));
    VerifierReads(cfg.replies(2 * i - 1), rubric);
    if Iterated(cfg, task, rubric, p, i).Again? {
      var q := Iterated(cfg, task, rubric, p, i).progress;
      forall x | x in q.used ensures x in used || exists j :: 1 <= j < i + 1 && cfg.verifiers(j) == Some(x) {
        if x in p.used {
          if x !in used { var j :| 1 <= j < i && cfg.verifiers(j) == Some(x); }
        } else {
          assert cfg.verifiers(i) == Some(x);
        }
      }
    }
  }

  lemma {:induction false} IterateThrows(cfg: Config, used: set<nat>, task: Task, rubric: seq<Criterion>, max: nat, p: Progress, i: nat)
    requires 1 <= i <= max + 1 && |p.iterations| == i - 1 && max >= 1 && UsedSoFar(cfg, used, p, i)
    ensures Iterate(cfg, task, rubric, max, p, i).Threw? ==> exists k :: i <= k <= max && Broken(cfg, used, task, rubric, k)
    decreases max + 1 - i
  {
    hide Iterated, Finish, Broken, UsedSoFar;
    if i <= max {
      IteratedThrows(cfg, used, task, rubric, p, i);
      match Iterated(cfg, task, rubric, p, i)
      case Thrown(_) =>
      case Passed(_) =>
      case Again(q) => IterateThrows(cfg, used, task, rubric, max, q, i + 1);
    }
  }

  /**
   A run throws only for a reason: its input or its route is refused, or some iteration cannot be
   finished because a reply does not come, is a refusal or does not spell out what it should, because
   the factory hands out a provider that is not new, or because there is no model to escalate to.
   */
  lemma ThrowsForAReason(cfg: Config, used: set<nat>, task: Task, rubric: seq<Criterion>, max: int)
    requires Run(cfg, used, task, rubric, max).Threw?
    ensures || !TaskOk(task) || !RubricOk(rubric) || !(1 <= max <= 20) || Base(cfg, task).None? || VerifierModel(cfg).None?
            || exists k :: 1 <= k <= max && Broken(cfg, used, task, rubric, k)
  {
    hide Iterate, TaskOk, RubricOk, Base, VerifierModel, Broken;
    if TaskOk(task) && RubricOk(rubric) && 1 <= max <= 20 && Base(cfg, task).Some? && VerifierModel(cfg).Some? {
      IterateThrows(cfg, used, task, rubric, max, Start(Base(cfg, task).value, used), 1);
    }
  }
}
