/**
 The maker-verifier loop as the loop it is, with the provider memory its factory keeps between runs,
 proved to produce exactly the run of `MakerVerifier`.

 Line numbers refer to harness/maker-verifier.ts.
 */
module MakerVerifierProcess {
  import opened Basics
  import opened Provider
  import opened MakerVerifier

  /** `parseVerifierResponse` (428-445): one pass with a set of the criteria seen. */
  method ReadAllResults(items: seq<Json>, ids: seq<string>) returns (results: Option<seq<CriterionResult>>)
    ensures results == ReadResults(items, ids)
  {
    hide ReadResult;
    var seen: set<string> := {};
    var rs: seq<CriterionResult> := [];
    for i := 0 to |items|
      invariant ReadResults(items[..i], ids) == Some(rs)
      invariant forall c :: c in seen <==> c in Criteria(rs)
    {
      assert items[..i + 1][..i] == items[..i];
      var r := ReadResult(items[i], ids);
      if r.None? || r.value.criterion in seen {
        FailsForGood(items, ids, i + 1);
        return None;
      }
      assert Criteria(rs + [r.value]) == Criteria(rs) + [r.value.criterion];
      seen := seen + {r.value.criterion};
      rs := rs + [r.value];
    }
    assert items[..|items|] == items;
    results := Some(rs);
  }

  /** One item that does not read spoils the whole list. */
  lemma {:induction false} FailsForGood(items: seq<Json>, ids: seq<string>, i: nat)
    requires i <= |items| && ReadResults(items[..i], ids).None?
    ensures ReadResults(items, ids).None?
    decreases |items| - i
  {
    if i < |items| {
      assert items[..i + 1][..i] == items[..i];
      FailsForGood(items, ids, i + 1);
    } else {
      assert items[..i] == items;
    }
  }

  method ReadVerifier(reply: Reply, rubric: seq<Criterion>) returns (results: Option<seq<CriterionResult>>)
    ensures results == VerifierAnswer(reply, rubric)
  {
    hide ReadResults;
    if reply.Rejects? || reply.completion.refused { return None; }
    var o := ExactObject(reply.completion.text, {"criteria"});
    if o.None? || !o.value["criteria"].JList? { return None; }
    results := ReadAllResults(o.value["criteria"].items, Ids(rubric));
    if results.Some? && |results.value| != |rubric| { return None; }
  }

  /** `finish` (308-329): the two reductions over the receipts. */
  method FinishRun(cfg: Config, task: Task, max: int, p: Progress, stop: StopReason) returns (r: Result)
    requires p.iterations != []
    ensures r == Finish(cfg, task, max, p, stop)
  {
    hide AddUsage;
    var cost, usage := 0.0, NO_USAGE;
    for i := 0 to |p.receipts|
      invariant cost == SumCost(p.receipts[..i]) && usage == SumUsage(p.receipts[..i])
    {
      assert p.receipts[..i + 1][..i] == p.receipts[..i];
      cost, usage := cost + p.receipts[i].cost, AddUsage(usage, p.receipts[i].usage);
    }
    assert p.receipts[..|p.receipts|] == p.receipts;
    var last := p.iterations[|p.iterations| - 1];
    r := Result(stop == Verified, last.maker.output, if stop == Verified then [] else last.failures, |p.iterations|, stop,
                Trace(task.id, task.taskClass, cfg.clock(0), last.verifier.completedAt, max, stop, p.iterations, p.escalations,
                      cost, usage));
  }

  /** What `createMakerVerifier` closes over. */
  class Harness {
    var used: set<nat>

    constructor ()
      ensures used == {}
    {
      used := {};
    }

    /** One pass of the loop (189-277); `None` where it throws. */
    method Pass(cfg: Config, task: Task, rubric: seq<Criterion>, p: Progress, i: nat) returns (q: Option<Progress>, passed: bool)
      requires i >= 1 && p.used == used
      modifies this
      ensures Iterated(cfg, task, rubric, p, i)
              == if q.None? then Thrown(used) else if passed then Passed(q.value) else Again(q.value)
      ensures q.Some? ==> q.value.used == used && |q.value.iterations| == |p.iterations| + 1
    {
      hide MakerAnswer, VerifierAnswer, TraceOf, Escalated;
      var m, v := cfg.replies(2 * i - 2), cfg.replies(2 * i - 1);
      var made := MakerAnswer(m);
      if made.None? { return None, false; }
      assert m.Answers? by { MadeAnswers(m); }
      var provider := cfg.verifiers(i);
      if provider.None? { return None, false; }
      if provider.value == cfg.makerProvider || provider.value in used { return None, false; }
      used := used + {provider.value};
      var rs := ReadVerifier(v, rubric);
      if rs.None? { return None, false; }
      assert v.Answers? by { VerifiedAnswers(v, rubric); }
      var t := TraceOf(cfg, rubric, i, made.value, rs.value, m.completion, v.completion);
      var n := p.(asked := p.asked + [p.model], used := used, verifiersUsed := p.verifiersUsed + [provider.value],
                  receipts := p.receipts + [m.completion, v.completion], iterations := p.iterations + [t]);
      if t.verifier.pass { return Some(n), true; }
      if n.previous == Some(t.normalized) {
        var escalated := Escalated(cfg, task);
        if escalated.None? { return None, false; }
        if escalated.value != n.model {
          n := n.(escalations := n.escalations + [Escalation(i, n.model, escalated.value)]);
        }
        n := n.(model := escalated.value);
      }
      return Some(n.(previous := Some(t.normalized))), false;
    }

    /** `makerVerifier` (162-292). */
    method MakerVerifierRun(cfg: Config, task: Task, rubric: seq<Criterion>, max: int) returns (outcome: Outcome)
      modifies this
      ensures outcome == Run(cfg, old(used), task, rubric, max)
      ensures used == if outcome.Returned? then outcome.progress.used else outcome.used
    {
      hide Iterated, Finish, RubricOk, TaskOk, Base, VerifierModel;
      if !TaskOk(task) || !RubricOk(rubric) { return Threw(used); }
      if !(1 <= max <= MAX_MAKER_VERIFIER_ITERS) { return Threw(used); }
      var base, verifier := Base(cfg, task), VerifierModel(cfg);
      if base.None? || verifier.None? { return Threw(used); }
      var p := Start(base.value, used);
      var i := 1;
      while i <= max
        invariant 1 <= i <= max + 1 && |p.iterations| == i - 1 && p.used == used
        invariant Run(cfg, old(used), task, rubric, max) == Iterate(cfg, task, rubric, max, p, i)
      {
        var q, passed := Pass(cfg, task, rubric, p, i);
        if q.None? { return Threw(used); }
        p := q.value;
        if passed {
          var r := FinishRun(cfg, task, max, p, Verified);
          return Returned(r, p);
        }
        i := i + 1;
      }
      var r := FinishRun(cfg, task, max, p, MaxIters);
      outcome := Returned(r, p);
    }
  }

  lemma MadeAnswers(m: Reply)
    requires MakerAnswer(m).Some?
    ensures m.Answers?
  {
  }

  lemma VerifiedAnswers(v: Reply, rubric: seq<Criterion>)
    requires VerifierAnswer(v, rubric).Some?
    ensures v.Answers?
  {
  }
}
