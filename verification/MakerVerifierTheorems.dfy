/**
 What every run of the maker-verifier loop guarantees: its trace satisfies the independent checker
 exactly when its inputs were honest, it escalates at most once and where it should, and failure
 sets are compared up to order and white space.
 */
module MakerVerifierTheorems {
  import opened Basics
  import opened Routing
  import opened Sorting
  import opened Texts
  import opened Provider
  import opened MakerVerifier
  import opened MakerVerifierEvidence

  // ---- Answers -----------------------------------------------------------------------------------

  lemma ParsedMaker(t: Text)
    requires ParseMaker(t).Some?
    ensures !Blank(ParseMaker(t).value.output) && !Blank(ParseMaker(t).value.summary) && OneLine(ParseMaker(t).value.summary)
  {
    hide Trim, Blank;
    var o := ExactObject(t, {"output", "selfAssessment"});
    var self := ExactFields(o.value["selfAssessment"], {"pass", "summary"});
    TrimHolds(RequiredText(self.value, "summary").value);
  }

  lemma ReadResultHolds(j: Json, ids: seq<string>)
    requires ReadResult(j, ids).Some?
    ensures ReadResult(j, ids).value.criterion in ids && !Blank(ReadResult(j, ids).value.observed)
  {
    hide Trim, Blank;
    var o := ExactFields(j, {"criterion", "pass", "observed"});
    TrimHolds(RequiredText(o.value, "observed").value);
  }

  lemma {:induction false} ReadResultsHold(items: seq<Json>, ids: seq<string>)
    requires ReadResults(items, ids).Some?
    ensures var rs := ReadResults(items, ids).value;
            && NoDuplicates(Criteria(rs))
            && forall i :: 0 <= i < |rs| ==> rs[i].criterion in ids && !Blank(rs[i].observed)
  {
    hide ReadResult, Blank;
    if items != [] {
      ReadResultsHold(items[..|items| - 1], ids);
      ReadResultHolds(items[|items| - 1], ids);
      var front, last := ReadResults(items[..|items| - 1], ids).value, ReadResult(items[|items| - 1], ids).value;
      assert Criteria(front + [last]) == Criteria(front) + [last.criterion];
    }
  }

  /** Results as the verifier's answer always gives them. */
  ghost predicate Complete(rs: seq<CriterionResult>, rubric: seq<Criterion>) {
    && |rs| == |rubric| && NoDuplicates(Criteria(rs))
    && forall i :: 0 <= i < |rs| ==> rs[i].criterion in Ids(rubric) && !Blank(rs[i].observed)
  }

  lemma ParsedVerifier(t: Text, rubric: seq<Criterion>)
    requires ParseVerifier(t, rubric).Some?
    ensures Complete(ParseVerifier(t, rubric).value, rubric)
  {
    hide ReadResults, Blank;
    var o := ExactObject(t, {"criteria"});
    ReadResultsHold(o.value["criteria"].items, Ids(rubric));
  }

  lemma {:induction false} ExpectedHolds(rubric: seq<Criterion>, id: string)
    requires id in Ids(rubric)
    ensures exists i :: 0 <= i < |rubric| && rubric[i].id == id && Expected(rubric, id) == rubric[i].expected
  {
    var k :| 0 <= k < |rubric| && Ids(rubric)[k] == id;
    if rubric[0].id != id {
      assert Ids(rubric[1..])[k - 1] == id;
      ExpectedHolds(rubric[1..], id);
      var i :| 0 <= i < |rubric[1..]| && rubric[1..][i].id == id && Expected(rubric[1..], id) == rubric[1..][i].expected;
      assert rubric[i + 1] == rubric[1..][i];
    }
  }

  lemma {:induction false} FailuresHold(rs: seq<CriterionResult>, rubric: seq<Criterion>)
    requires RubricOk(rubric)
    requires forall i :: 0 <= i < |rs| ==> rs[i].criterion in Ids(rubric) && !Blank(rs[i].observed)
    ensures forall i :: 0 <= i < |FailuresOf(rs, rubric)| ==> FailureOk(FailuresOf(rs, rubric)[i])
    ensures FailuresOf(rs, rubric) == [] <==> AllPass(rs)
  {
    hide Blank;
    if rs != [] {
      var front, r := rs[..|rs| - 1], rs[|rs| - 1];
      FailuresHold(front, rubric);
      ExpectedHolds(rubric, r.criterion);
      IdIsNotBlank(rubric, r.criterion);
      assert rs == front + [r];
      assert AllPass(rs) <==> AllPass(front) && r.pass;
    }
  }

  lemma IdIsNotBlank(rubric: seq<Criterion>, id: string)
    requires RubricOk(rubric) && id in Ids(rubric)
    ensures !Blank(id)
  {
    hide Blank;
    var k :| 0 <= k < |rubric| && Ids(rubric)[k] == id;
  }

  /** The verifier's results are always a permutation of the rubric, as the checker demands. */
  lemma CriteriaHold(rs: seq<CriterionResult>, rubric: seq<Criterion>)
    requires RubricOk(rubric) && Complete(rs, rubric)
    ensures CriteriaOk(rs, rubric)
  {
    hide Blank, SortText;
    forall i | 0 <= i < |rs| ensures EntryOk(rs[i]) {
      IdIsNotBlank(rubric, rs[i].criterion);
    }
    assert NoDuplicates(Ids(rubric));
    assert forall x :: x in Criteria(rs) ==> x in Ids(rubric);
    SameElements(Criteria(rs), Ids(rubric));
    SortTextAgrees(Criteria(rs), Ids(rubric));
  }

  // ---- Acceptance --------------------------------------------------------------------------------

  /** The two calls of iteration `k + 1` were honestly reported: receipts that add up, times that fit. */
  ghost predicate Honest(cfg: Config, k: nat) {
    && cfg.replies(2 * k).Answers? && cfg.replies(2 * k + 1).Answers?
    && cfg.clock(2 * k) <= cfg.clock(2 * k + 1) <= cfg.clock(2 * k + 2)
    && var m, v := ReceiptFor(cfg.replies(2 * k).completion), ReceiptFor(cfg.replies(2 * k + 1).completion);
       && ReceiptOk(m) && DurationOk(m, cfg.clock(2 * k), cfg.clock(2 * k + 1))
       && ReceiptOk(v) && DurationOk(v, cfg.clock(2 * k + 1), cfg.clock(2 * k + 2))
  }

  /** `it` is what iteration `k + 1` leaves in the trace. */
  ghost predicate Recorded(cfg: Config, rubric: seq<Criterion>, it: Iteration, k: nat) {
    var m, v := cfg.replies(2 * k), cfg.replies(2 * k + 1);
    && MakerAnswer(m).Some? && VerifierAnswer(v, rubric).Some?
    && it == TraceOf(cfg, rubric, k + 1, MakerAnswer(m).value, VerifierAnswer(v, rubric).value, m.completion, v.completion)
  }

  lemma RecordedIsOk(cfg: Config, rubric: seq<Criterion>, it: Iteration, k: nat)
    requires RubricOk(rubric) && Recorded(cfg, rubric, it, k)
    ensures IterationOk(it, k, cfg.clock(2 * k), rubric, cfg.collate) <==> Honest(cfg, k)
    ensures it.verifier.completedAt == cfg.clock(2 * k + 2)
    ensures it.verifier.pass <==> it.failures == []
    ensures it.normalized == NormalizeFailureSet(it.failures, cfg.collate)
  {
    hide ParseMaker, ParseVerifier, ReceiptOk, DurationOk, NormalizeFailureSet, Canonical, Derived, Blank, RubricOk, CriteriaOk, AllPass,
         Complete, FailuresOf, OneLine;
    var m, v := cfg.replies(2 * k), cfg.replies(2 * k + 1);
    ParsedMaker(m.completion.text);
    ParsedVerifier(v.completion.text, rubric);
    var rs := VerifierAnswer(v, rubric).value;
    CriteriaHold(rs, rubric);
    CompleteFailures(rs, rubric, cfg.collate);
    assert it.maker.completedAt == cfg.clock(2 * k + 1);
  }

  lemma {:induction false} TableHolds(rubric: seq<Criterion>, id: string)
    requires forall i, j :: 0 <= i < j < |rubric| ==> rubric[i].id != rubric[j].id
    requires id in Ids(rubric)
    ensures id in TableOf(rubric) && TableOf(rubric)[id].expected == Expected(rubric, id)
  {
    var front, last := rubric[..|rubric| - 1], rubric[|rubric| - 1];
    ExpectedHolds(rubric, id);
    if last.id != id {
      var k :| 0 <= k < |rubric| && Ids(rubric)[k] == id;
      assert Ids(front)[k] == id;
      TableHolds(front, id);
      ExpectedHolds(front, id);
    }
  }

  lemma {:induction false} FailedPush(rs: seq<CriterionResult>, r: CriterionResult)
    ensures FailedOnly(rs + [r]) == FailedOnly(rs) + if r.pass then [] else [r]
  {
    if rs != [] {
      FailedPush(rs[1..], r);
      assert (rs + [r])[1..] == rs[1..] + [r];
    } else {
      assert ([] + [r])[1..] == [];
    }
  }

  /** The checker's filter, map and table arrive at the producer's failures. */
  lemma {:induction false} DerivationsAgree(rs: seq<CriterionResult>, rubric: seq<Criterion>)
    requires RubricOk(rubric) && forall i :: 0 <= i < |rs| ==> rs[i].criterion in Ids(rubric)
    ensures Derived(rs, TableOf(rubric)) == FailuresOf(rs, rubric)
  {
    hide Blank, TableOf, Expected;
    if rs != [] {
      var front, r := rs[..|rs| - 1], rs[|rs| - 1];
      DerivationsAgree(front, rubric);
      FailedPush(front, r);
      TableHolds(rubric, r.criterion);
      assert rs == front + [r];
    }
  }

  /** So do its normalised sets, in the same locale. */
  lemma NormalizationsAgree(fs: seq<StructuredFailure>, collate: string -> string)
    ensures Canonical(fs, collate) == NormalizeFailureSet(fs, collate)
  {
    var plain := (f: StructuredFailure) => StructuredFailure(Normalize(f.criterion), Normalize(f.expected), Normalize(f.observed));
    assert Map(plain, fs) == NormalizeAll(fs);
    SameSort((f: StructuredFailure) => collate(f.criterion), KeyBy(collate), NormalizeAll(fs));
  }

  lemma {:induction false} SameInsert<T>(f: T -> string, g: T -> string, x: T, s: seq<T>)
    requires forall y :: f(y) == g(y)
    ensures Insert(f, x, s) == Insert(g, x, s)
  {
    if s != [] { SameInsert(f, g, x, s[1..]); }
  }

  lemma {:induction false} SameSort<T>(f: T -> string, g: T -> string, s: seq<T>)
    requires forall y :: f(y) == g(y)
    ensures Sort(f, s) == Sort(g, s)
  {
    if s != [] {
      SameSort(f, g, s[1..]);
      SameInsert(f, g, s[0], Sort(f, s[1..]));
    }
  }

  lemma CompleteFailures(rs: seq<CriterionResult>, rubric: seq<Criterion>, collate: string -> string)
    requires RubricOk(rubric) && Complete(rs, rubric)
    ensures FailuresOk(FailuresOf(rs, rubric), rs, rubric) && (FailuresOf(rs, rubric) == [] <==> AllPass(rs))
    ensures NormalizeFailureSet(FailuresOf(rs, rubric), collate) == Canonical(FailuresOf(rs, rubric), collate)
  {
    hide FailuresOf, RubricOk, AllPass, Derived, Canonical, NormalizeFailureSet;
    FailuresHold(rs, rubric);
    DerivationsAgree(rs, rubric);
    NormalizationsAgree(FailuresOf(rs, rubric), collate);
  }

  /** The state of the loop after `n` iterations: everything recorded, and the totals of the receipts. */
  ghost predicate Books(cfg: Config, rubric: seq<Criterion>, p: Progress) {
    && (forall k :: 0 <= k < |p.iterations| ==> Recorded(cfg, rubric, p.iterations[k], k))
    && SumCost(p.receipts) == TraceCost(p.iterations) && SumUsage(p.receipts) == TraceUsage(p.iterations)
  }

  ghost predicate AllFailed(its: seq<Iteration>) {
    forall k :: 0 <= k < |its| ==> !its[k].verifier.pass
  }

  lemma PushBoth(receipts: seq<Completion>, its: seq<Iteration>, m: Completion, v: Completion, it: Iteration)
    requires SumCost(receipts) == TraceCost(its) && SumUsage(receipts) == TraceUsage(its)
    requires it.maker.receipt == ReceiptFor(m) && it.verifier.receipt == ReceiptFor(v)
    ensures SumCost(receipts + [m, v]) == TraceCost(its + [it]) && SumUsage(receipts + [m, v]) == TraceUsage(its + [it])
  {
    hide AddUsage;
    var one, two := receipts + [m], receipts + [m, v];
    assert two[..|two| - 1] == one && one[..|one| - 1] == receipts;
    assert (its + [it])[..|its|] == its;
  }

  lemma IteratedKeeps(cfg: Config, task: Task, rubric: seq<Criterion>, p: Progress, i: nat)
    requires i >= 1 && |p.iterations| == i - 1 && Books(cfg, rubric, p) && AllFailed(p.iterations)
    ensures match Iterated(cfg, task, rubric, p, i)
            case Thrown(_) => true
            case Again(q) => |q.iterations| == i && q.iterations[..i - 1] == p.iterations && Books(cfg, rubric, q) && AllFailed(q.iterations)
            case Passed(q) => |q.iterations| == i && q.iterations[..i - 1] == p.iterations && Books(cfg, rubric, q)
                              && q.iterations[i - 1].verifier.pass
  {
    hide MakerAnswer, VerifierAnswer, FailuresOf, NormalizeFailureSet, SumCost, SumUsage, TraceCost, TraceUsage, Escalated;
    var m, v := cfg.replies(2 * i - 2), cfg.replies(2 * i - 1);
    if MakerAnswer(m).Some? && VerifierAnswer(v, rubric).Some? {
      AnswersAnswer(m, v, rubric);
      var it := TraceOf(cfg, rubric, i, MakerAnswer(m).value, VerifierAnswer(v, rubric).value, m.completion, v.completion);
      PushBoth(p.receipts, p.iterations, m.completion, v.completion, it);
      assert Recorded(cfg, rubric, it, i - 1);
    }
  }

  lemma AnswersAnswer(m: Reply, v: Reply, rubric: seq<Criterion>)
    requires MakerAnswer(m).Some? && VerifierAnswer(v, rubric).Some?
    ensures m.Answers? && v.Answers?
  {
  }

  /** What a returned run looks like. */
  ghost predicate Finished(cfg: Config, task: Task, rubric: seq<Criterion>, max: nat, r: Result, p: Progress) {
    && Books(cfg, rubric, p) && 1 <= |p.iterations| <= max
    && r == Finish(cfg, task, max, p, r.stoppedBy)
    && AllFailed(p.iterations[..|p.iterations| - 1])
    && (r.stoppedBy == Verified <==> p.iterations[|p.iterations| - 1].verifier.pass)
    && (r.stoppedBy == MaxIters ==> |p.iterations| == max)
  }

  lemma {:induction false} IterateFinishes(cfg: Config, task: Task, rubric: seq<Criterion>, max: nat, p: Progress, i: nat)
    requires 1 <= i <= max + 1 && |p.iterations| == i - 1 && max >= 1 && Books(cfg, rubric, p) && AllFailed(p.iterations)
    ensures var o := Iterate(cfg, task, rubric, max, p, i);
            o.Returned? ==> Finished(cfg, task, rubric, max, o.result, o.progress)
    decreases max + 1 - i
  {
    hide Iterated, Books, SumCost, SumUsage;
    if i <= max {
      IteratedKeeps(cfg, task, rubric, p, i);
      match Iterated(cfg, task, rubric, p, i)
      case Thrown(_) =>
      case Passed(q) =>
      case Again(q) => IterateFinishes(cfg, task, rubric, max, q, i + 1);
    }
  }

  lemma RunFinishes(cfg: Config, used: set<nat>, task: Task, rubric: seq<Criterion>, max: int)
    requires Run(cfg, used, task, rubric, max).Returned?
    ensures var o := Run(cfg, used, task, rubric, max);
            TaskOk(task) && RubricOk(rubric) && max >= 1 && Finished(cfg, task, rubric, max, o.result, o.progress)
  {
    hide Iterate, Finished, TaskOk, RubricOk, Base, VerifierModel;
    IterateFinishes(cfg, task, rubric, max, Start(Base(cfg, task).value, used), 1);
  }

  ghost function EvidenceOf(task: Task, rubric: seq<Criterion>, fault: Option<string>, trace: Trace): Evidence {
    Evidence(task.id, rubric, rubric, fault, trace)
  }

  /** The fault label agrees with the maker receipts. */
  ghost predicate FaultFits(cfg: Config, rubric: seq<Criterion>, fault: Option<string>, n: nat) {
    var seeded := exists k :: 0 <= k < n && cfg.replies(2 * k).Answers? && SEEDED in cfg.replies(2 * k).completion.models;
    if fault.None? then !seeded else fault.value in Ids(rubric) && seeded
  }

  lemma FaultAgrees(cfg: Config, task: Task, rubric: seq<Criterion>, p: Progress, fault: Option<string>, trace: Trace)
    requires RubricOk(rubric) && Books(cfg, rubric, p) && trace.iterations == p.iterations
    ensures FaultOk(EvidenceOf(task, rubric, fault, trace)) <==> FaultFits(cfg, rubric, fault, |p.iterations|)
  {
    hide MakerAnswer, VerifierAnswer, FailuresOf, NormalizeFailureSet, SumCost, SumUsage, TraceCost, TraceUsage, RubricOk, Blank;
    forall k | 0 <= k < |p.iterations|
      ensures cfg.replies(2 * k).Answers?
      ensures SEEDED in p.iterations[k].maker.receipt.models <==> SEEDED in cfg.replies(2 * k).completion.models
    {
      assert Recorded(cfg, rubric, p.iterations[k], k);
      AnswersAnswer(cfg.replies(2 * k), cfg.replies(2 * k + 1), rubric);
    }
    if fault.Some? && fault.value in Ids(rubric) { IdIsNotBlank(rubric, fault.value); }
  }

  lemma {:induction false} HonestTotals(its: seq<Iteration>)
    requires forall k :: 0 <= k < |its| ==> its[k].maker.receipt.cost >= 0.0 && its[k].verifier.receipt.cost >= 0.0
    ensures TraceCost(its) >= 0.0
  {
    if its != [] { HonestTotals(its[..|its| - 1]); }
  }

  /**
   The evidence of a returned run is accepted exactly when every call it made was honestly reported
   and the fault label fits: order of criteria, failures, normalised sets, totals and stop reason
   never fail on their own.
   */
  lemma TraceAcceptedExactlyWhen(cfg: Config, used: set<nat>, task: Task, rubric: seq<Criterion>, max: int, fault: Option<string>)
    requires Run(cfg, used, task, rubric, max).Returned?
    ensures var o := Run(cfg, used, task, rubric, max);
            ValidEvidence(EvidenceOf(task, rubric, fault, o.result.trace), cfg.collate) <==>
              && (forall k :: 0 <= k < o.result.iterations ==> Honest(cfg, k))
              && FaultFits(cfg, rubric, fault, o.result.iterations)
  {
    hide Run, Blank, RubricOk, SumCost, SumUsage, TraceCost, TraceUsage, Honest, IterationOk, FaultOk, FaultFits, Recorded;
    RunFinishes(cfg, used, task, rubric, max);
    var o := Run(cfg, used, task, rubric, max);
    var p, e := o.progress, EvidenceOf(task, rubric, fault, o.result.trace);
    FaultAgrees(cfg, task, rubric, p, fault, o.result.trace);
    forall k | 0 <= k < |p.iterations|
      ensures IterationOk(p.iterations[k], k, TimeBefore(e.trace, k), rubric, cfg.collate) <==> Honest(cfg, k)
    {
      RecordedIsOk(cfg, rubric, p.iterations[k], k);
      if k > 0 { RecordedIsOk(cfg, rubric, p.iterations[k - 1], k - 1); }
    }
    if forall k :: 0 <= k < |p.iterations| ==> Honest(cfg, k) {
      HonestTrace(cfg, task, rubric, p);
      assert HeadOk(e);
    }
  }

  /** Honest calls add up to a non-negative total, in times that do not run backwards. */
  lemma HonestTrace(cfg: Config, task: Task, rubric: seq<Criterion>, p: Progress)
    requires Books(cfg, rubric, p) && p.iterations != [] && forall k :: 0 <= k < |p.iterations| ==> Honest(cfg, k)
    ensures TraceCost(p.iterations) >= 0.0
    ensures cfg.clock(0) <= p.iterations[|p.iterations| - 1].verifier.completedAt
  {
    hide MakerAnswer, VerifierAnswer, FailuresOf, NormalizeFailureSet, SumCost, SumUsage, TraceCost, TraceUsage, PartsOk, DurationOk;
    forall k | 0 <= k < |p.iterations| ensures p.iterations[k].maker.receipt.cost >= 0.0 && p.iterations[k].verifier.receipt.cost >= 0.0 {
      assert Recorded(cfg, rubric, p.iterations[k], k) && Honest(cfg, k);
    }
    HonestTotals(p.iterations);
    ClockForward(cfg, |p.iterations|);
    assert Recorded(cfg, rubric, p.iterations[|p.iterations| - 1], |p.iterations| - 1);
  }

  lemma {:induction false} ClockForward(cfg: Config, n: nat)
    requires forall k :: 0 <= k < n ==> Honest(cfg, k)
    ensures cfg.clock(0) <= cfg.clock(2 * n)
  {
    hide ReceiptOk, DurationOk;
    if n > 0 {
      ClockForward(cfg, n - 1);
      assert Honest(cfg, n - 1);
    }
  }

  // ---- Escalation --------------------------------------------------------------------------------

  /** Iteration `k` (from 0) failed with the same normalised failure set as the one before it. */
  predicate Repeats(its: seq<Iteration>, k: nat) {
    1 <= k < |its| && !its[k].verifier.pass && its[k].normalized == its[k - 1].normalized
  }

  /** The first iteration that repeats, or the number of iterations if none does. */
  function FirstRepeat(its: seq<Iteration>): nat {
    if its == [] then 0
    else
      var n := |its| - 1;
      var f := FirstRepeat(its[..n]);
      if f < n || Repeats(its, n) then f else n + 1
  }

  lemma {:induction false} FirstRepeatHolds(its: seq<Iteration>)
    ensures FirstRepeat(its) <= |its| && (FirstRepeat(its) < |its| ==> Repeats(its, FirstRepeat(its)))
    ensures forall k :: 0 <= k < FirstRepeat(its) ==> !Repeats(its, k)
  {
    if its != [] {
      var n := |its| - 1;
      FirstRepeatHolds(its[..n]);
      forall k | 0 <= k < n ensures Repeats(its, k) <==> Repeats(its[..n], k) {}
    }
  }

  /**
   The maker was asked with the base route up to and including the iteration that first repeats, and
   with the escalated route after it; that switch is the only escalation on record.
   */
  ghost predicate EscalatedOnce(cfg: Config, task: Task, base: ModelId, p: Progress) {
    var f, e := FirstRepeat(p.iterations), Escalated(cfg, task);
    && |p.asked| == |p.iterations|
    && (f < |p.iterations| ==> e.Some?)
    && (forall j :: 0 <= j < |p.asked| ==> if j <= f then p.asked[j] == base else e.Some? && p.asked[j] == e.value)
    && p.escalations == if f < |p.iterations| && e.value != base then [Escalation(f + 1, base, e.value)] else []
  }

  ghost predicate Tracking(cfg: Config, task: Task, base: ModelId, p: Progress) {
    && EscalatedOnce(cfg, task, base, p)
    && p.previous == (if p.iterations == [] then None else Some(p.iterations[|p.iterations| - 1].normalized))
    && p.model == if FirstRepeat(p.iterations) < |p.iterations| then Escalated(cfg, task).value else base
  }

  /** Passing says nothing about repetition. */
  lemma PushPass(its: seq<Iteration>, it: Iteration)
    requires it.verifier.pass
    ensures FirstRepeat(its + [it]) == if FirstRepeat(its) < |its| then FirstRepeat(its) else |its| + 1
  {
    assert (its + [it])[..|its|] == its;
  }

  lemma PushFail(its: seq<Iteration>, it: Iteration)
    requires !it.verifier.pass
    ensures FirstRepeat(its + [it]) ==
            if FirstRepeat(its) < |its| || (its != [] && its[|its| - 1].normalized == it.normalized) then FirstRepeat(its) else |its| + 1
  {
    var more := its + [it];
    assert more[..|its|] == its && more[|its|] == it;
    assert its != [] ==> more[|its| - 1] == its[|its| - 1];
  }

  /** `q` is `p` after one more iteration `it`, asked with the current model. */
  ghost predicate Extends(p: Progress, q: Progress, it: Iteration) {
    q.iterations == p.iterations + [it] && q.asked == p.asked + [p.model]
  }

  lemma AskedExtends(cfg: Config, task: Task, base: ModelId, p: Progress, q: Progress, it: Iteration)
    requires Tracking(cfg, task, base, p) && Extends(p, q, it)
    requires var f, f' := FirstRepeat(p.iterations), FirstRepeat(q.iterations);
             if f < |p.iterations| then f' == f else f' >= |p.iterations|
    ensures |q.asked| == |q.iterations|
    ensures forall j :: 0 <= j < |q.asked| ==>
              if j <= FirstRepeat(q.iterations) then q.asked[j] == base
              else Escalated(cfg, task).Some? && q.asked[j] == Escalated(cfg, task).value
  {
    hide Escalated, FirstRepeat;
    FirstRepeatHolds(p.iterations);
  }

  /** Nothing new to compare: the record of escalations stays. */
  lemma TracksQuietly(cfg: Config, task: Task, base: ModelId, p: Progress, q: Progress, it: Iteration)
    requires Tracking(cfg, task, base, p) && Extends(p, q, it) && q.escalations == p.escalations
    requires it.verifier.pass || p.previous != Some(it.normalized)
    ensures EscalatedOnce(cfg, task, base, q)
    ensures q.model == p.model && q.previous == Some(it.normalized) ==> Tracking(cfg, task, base, q)
  {
    hide Escalated, FirstRepeat;
    FirstRepeatHolds(p.iterations);
    if it.verifier.pass { PushPass(p.iterations, it); } else { PushFail(p.iterations, it); }
    AskedExtends(cfg, task, base, p, q, it);
  }

  /** A repeated failure set: the first one escalates, later ones change nothing. */
  lemma TracksRepeat(cfg: Config, task: Task, base: ModelId, p: Progress, q: Progress, it: Iteration, i: nat, e: ModelId)
    requires Tracking(cfg, task, base, p) && Extends(p, q, it) && |p.iterations| == i - 1 && i >= 1
    requires !it.verifier.pass && p.previous == Some(it.normalized) && Escalated(cfg, task) == Some(e)
    requires q.model == e && q.previous == Some(it.normalized)
    requires q.escalations == if e != p.model then p.escalations + [Escalation(i, p.model, e)] else p.escalations
    ensures Tracking(cfg, task, base, q)
  {
    hide Escalated, FirstRepeat;
    FirstRepeatHolds(p.iterations);
    PushFail(p.iterations, it);
    AskedExtends(cfg, task, base, p, q, it);
  }

  lemma IteratedTracks(cfg: Config, task: Task, rubric: seq<Criterion>, p: Progress, i: nat, base: ModelId)
    requires i >= 1 && |p.iterations| == i - 1 && Tracking(cfg, task, base, p)
    ensures match Iterated(cfg, task, rubric, p, i)
            case Thrown(_) => true
            case Again(q) => |q.iterations| == i && Tracking(cfg, task, base, q)
            case Passed(q) => |q.iterations| == i && EscalatedOnce(cfg, task, base, q)
  {
    hide MakerAnswer, VerifierAnswer, TraceOf, Escalated, FirstRepeat, Tracking, EscalatedOnce;
    var m, v := cfg.replies(2 * i - 2), cfg.replies(2 * i - 1);
    if MakerAnswer(m).Some? && VerifierAnswer(v, rubric).Some? {
      AnswersAnswer(m, v, rubric);
      var it := TraceOf(cfg, rubric, i, MakerAnswer(m).value, VerifierAnswer(v, rubric).value, m.completion, v.completion);
      var step := Iterated(cfg, task, rubric, p, i);
      if step.Passed? || step.Again? {
        if it.verifier.pass || p.previous != Some(it.normalized) {
          TracksQuietly(cfg, task, base, p, step.progress, it);
        } else {
          TracksRepeat(cfg, task, base, p, step.progress, it, i, Escalated(cfg, task).value);
        }
      }
    }
  }

  lemma {:induction false} IterateTracks(cfg: Config, task: Task, rubric: seq<Criterion>, max: nat, p: Progress, i: nat, base: ModelId)
    requires 1 <= i <= max + 1 && |p.iterations| == i - 1 && max >= 1 && Tracking(cfg, task, base, p)
    ensures var o := Iterate(cfg, task, rubric, max, p, i); o.Returned? ==> EscalatedOnce(cfg, task, base, o.progress)
    decreases max + 1 - i
  {
    hide Iterated, EscalatedOnce, Finish;
    if i <= max {
      IteratedTracks(cfg, task, rubric, p, i, base);
      match Iterated(cfg, task, rubric, p, i)
      case Thrown(_) =>
      case Passed(q) =>
      case Again(q) => IterateTracks(cfg, task, rubric, max, q, i + 1, base);
    }
  }

  lemma FreshTracks(cfg: Config, task: Task, base: ModelId, used: set<nat>)
    ensures Tracking(cfg, task, base, Start(base, used))
  {
  }

  /** Over every returned run: at most one escalation, exactly at the first repeated failure set. */
  lemma EscalatesAtMostOnce(cfg: Config, used: set<nat>, task: Task, rubric: seq<Criterion>, max: int)
    requires Run(cfg, used, task, rubric, max).Returned?
    ensures var o := Run(cfg, used, task, rubric, max);
            && Base(cfg, task).Some? && EscalatedOnce(cfg, task, Base(cfg, task).value, o.progress)
            && o.result.trace.escalations == o.progress.escalations && |o.result.trace.escalations| <= 1
            && o.result.trace.iterations == o.progress.iterations
  {
    hide Iterate, Tracking, TaskOk, RubricOk, Base, VerifierModel, Books, AllFailed, Escalated, FirstRepeat;
    var base := Base(cfg, task).value;
    FreshTracks(cfg, task, base, used);
    IterateTracks(cfg, task, rubric, max, Start(base, used), 1, base);
    RunFinishes(cfg, used, task, rubric, max);
  }

  // ---- Independent verifiers ---------------------------------------------------------------------

  /** Every verifier so far is a provider nobody used before, in this run or an earlier one. */
  ghost predicate FreshVerifiers(cfg: Config, used: set<nat>, p: Progress) {
    && |p.verifiersUsed| == |p.iterations| && NoDuplicates(p.verifiersUsed)
    && cfg.makerProvider !in p.verifiersUsed
    && (forall x :: x in p.verifiersUsed ==> x !in used)
    && p.used == used + set x | x in p.verifiersUsed
  }

  lemma IteratedUsesFresh(cfg: Config, task: Task, rubric: seq<Criterion>, p: Progress, i: nat, used: set<nat>)
    requires i >= 1 && |p.iterations| == i - 1 && FreshVerifiers(cfg, used, p)
    ensures match Iterated(cfg, task, rubric, p, i)
            case Thrown(_) => true
            case Again(q) => |q.iterations| == i && FreshVerifiers(cfg, used, q)
            case Passed(q) => |q.iterations| == i && FreshVerifiers(cfg, used, q)
  {
    hide MakerAnswer, VerifierAnswer, TraceOf, Escalated;
    var provider := cfg.verifiers(i);
    if provider.Some? {
      var more := p.verifiersUsed + [provider.value];
      assert (set x | x in more) == (set x | x in p.verifiersUsed) + {provider.value};
    }
  }

  lemma {:induction false} IterateUsesFresh(cfg: Config, task: Task, rubric: seq<Criterion>, max: nat, p: Progress, i: nat, used: set<nat>)
    requires 1 <= i <= max + 1 && |p.iterations| == i - 1 && max >= 1 && FreshVerifiers(cfg, used, p)
    ensures var o := Iterate(cfg, task, rubric, max, p, i); o.Returned? ==> FreshVerifiers(cfg, used, o.progress)
    decreases max + 1 - i
  {
    hide Iterated, FreshVerifiers, Finish;
    if i <= max {
      IteratedUsesFresh(cfg, task, rubric, p, i, used);
      match Iterated(cfg, task, rubric, p, i)
      case Thrown(_) =>
      case Passed(q) =>
      case Again(q) => IterateUsesFresh(cfg, task, rubric, max, q, i + 1, used);
    }
  }

  /** Each iteration of a returned run was verified by a provider never used before, not even by an earlier run. */
  lemma VerifiersAreIndependent(cfg: Config, used: set<nat>, task: Task, rubric: seq<Criterion>, max: int)
    requires Run(cfg, used, task, rubric, max).Returned?
    ensures FreshVerifiers(cfg, used, Run(cfg, used, task, rubric, max).progress)
  {
    hide Iterate, TaskOk, RubricOk, Base, VerifierModel;
    var start := Start(Base(cfg, task).value, used);
    assert FreshVerifiers(cfg, used, start);
    IterateUsesFresh(cfg, task, rubric, max, start, 1, used);
  }

  // ---- Comparing failure sets --------------------------------------------------------------------

  /** The words of a failure: what is left of it when white space does not count. */
  datatype Wording = Wording(criterion: seq<string>, expected: seq<string>, observed: seq<string>)

  function WordingOf(f: StructuredFailure): Wording {
    Wording(Words(f.criterion), Words(f.expected), Words(f.observed))
  }

  function Spell(w: Wording): StructuredFailure {
    StructuredFailure(Join(w.criterion), Join(w.expected), Join(w.observed))
  }

  lemma NormalizeSpells(fs: seq<StructuredFailure>)
    ensures NormalizeAll(fs) == Map(Spell, Map(WordingOf, fs))
    ensures Map(WordingOf, NormalizeAll(fs)) == Map(WordingOf, fs)
  {
    hide Normalize, Words, Join;
    forall i | 0 <= i < |fs|
      ensures NormalizeFailure(fs[i]) == Spell(WordingOf(fs[i])) && WordingOf(NormalizeFailure(fs[i])) == WordingOf(fs[i])
    {
      ReadBack(fs[i].criterion);
      ReadBack(fs[i].expected);
      ReadBack(fs[i].observed);
    }
  }

  lemma ReadBack(s: string)
    ensures Normalize(s) == Join(Words(s)) && Words(Normalize(s)) == Words(s)
  {
    NormalizeJoins(s);
    WordsAreWords(s);
    WordsOfJoin(Words(s));
  }

  /** The normalised criterion ids are pairwise different to the comparison. */
  ghost predicate DistinctIds(fs: seq<StructuredFailure>, collate: string -> string) {
    forall i, j :: 0 <= i < j < |fs| ==> collate(Normalize(fs[i].criterion)) != collate(Normalize(fs[j].criterion))
  }

  /**
   In any locale: when the normalised criterion ids are distinct, two failure lists count as the same
   exactly when they are permutations of each other up to white space.
   */
  lemma SameFailuresExactlyWhen(a: seq<StructuredFailure>, b: seq<StructuredFailure>, collate: string -> string)
    requires DistinctIds(a, collate)
    ensures NormalizeFailureSet(a, collate) == NormalizeFailureSet(b, collate)
            <==> multiset(Map(WordingOf, a)) == multiset(Map(WordingOf, b))
  {
    hide Normalize, Words, Join, Sort, Map;
    var x, y := NormalizeAll(a), NormalizeAll(b);
    NormalizeSpells(a);
    NormalizeSpells(b);
    SortHolds(KeyBy(collate), x);
    SortHolds(KeyBy(collate), y);
    if NormalizeFailureSet(a, collate) == NormalizeFailureSet(b, collate) {
      MapKeepsMultiset(WordingOf, x, y);
    }
    if multiset(Map(WordingOf, a)) == multiset(Map(WordingOf, b)) {
      MapKeepsMultiset(Spell, Map(WordingOf, a), Map(WordingOf, b));
      DistinctIsKeyed(a, collate);
      SortIgnoresOrder(KeyBy(collate), x, y);
    }
  }

  lemma DistinctIsKeyed(a: seq<StructuredFailure>, collate: string -> string)
    requires DistinctIds(a, collate)
    ensures Keyed(KeyBy(collate), NormalizeAll(a))
  {
    hide Normalize;
    var x := NormalizeAll(a);
    forall f, g | f in x && g in x && KeyBy(collate)(f) == KeyBy(collate)(g) ensures f == g {
      var i :| 0 <= i < |x| && x[i] == f;
      var j :| 0 <= j < |x| && x[j] == g;
      assert collate(Normalize(a[i].criterion)) == collate(Normalize(a[j].criterion));
    }
  }

  /** `b` lists the same failures in some order. */
  ghost predicate Reordered(a: seq<StructuredFailure>, b: seq<StructuredFailure>) {
    multiset(a) == multiset(b)
  }

  ghost predicate OrderIrrelevant(a: seq<StructuredFailure>, collate: string -> string) {
    forall b :: Reordered(a, b) ==> NormalizeFailureSet(a, collate) == NormalizeFailureSet(b, collate)
  }

  /** `w`, moved to the front of the list. */
  function Hoist(a: seq<StructuredFailure>, j: nat): seq<StructuredFailure>
    requires j < |a|
  {
    [a[j]] + Without(a, j)
  }

  /** Two failures that differ once normalised but not to the comparison: hoisting one of them shows. */
  lemma HoistingShows(a: seq<StructuredFailure>, j: nat, collate: string -> string)
    requires j < |a|
    requires var key, x := KeyBy(collate), NormalizeAll(a);
             var same := WithKey(key, key(x[j]), x); same != [] && same[0] != x[j]
    ensures Reordered(a, Hoist(a, j)) && NormalizeFailureSet(Hoist(a, j), collate) != NormalizeFailureSet(a, collate)
  {
    hide Normalize, Sort, WithKey;
    var b, key, x := Hoist(a, j), KeyBy(collate), NormalizeAll(a);
    WithoutHolds(a, j);
    assert NormalizeAll(b)[0] == x[j];
    var k := key(x[j]);
    SortStable(key, x, k);
    SortStable(key, NormalizeAll(b), k);
    HeadWithKey(key, NormalizeAll(b));
  }

  lemma HeadWithKey<T>(key: T -> string, s: seq<T>)
    requires s != []
    ensures WithKey(key, key(s[0]), s) != [] && WithKey(key, key(s[0]), s)[0] == s[0]
  {
  }

  /**
   The comparison ignores the order of a failure list exactly when failures it cannot tell apart by
   their ids are the same once normalised.
   */
  lemma OrderIrrelevantExactlyWhen(a: seq<StructuredFailure>, collate: string -> string)
    ensures OrderIrrelevant(a, collate) <==> Keyed(KeyBy(collate), NormalizeAll(a))
  {
    hide Normalize, Sort, WithKey, NormalizeFailureSet;
    var key, x := KeyBy(collate), NormalizeAll(a);
    if Keyed(key, x) {
      forall b | Reordered(a, b) ensures NormalizeFailureSet(a, collate) == NormalizeFailureSet(b, collate) {
        ReorderedSame(a, b, collate);
      }
    } else {
      var f, g :| f in x && g in x && key(f) == key(g) && f != g;
      var i :| 0 <= i < |x| && x[i] == f;
      var j :| 0 <= j < |x| && x[j] == g;
      KeyHasElement(key, x, i);
      var first := WithKey(key, key(f), x)[0];
      var w := if first != f then i else j;
      HoistingShows(a, w, collate);
      assert !OrderIrrelevant(a, collate) by { assert Reordered(a, Hoist(a, w)); }
    }
  }

  lemma ReorderedSame(a: seq<StructuredFailure>, b: seq<StructuredFailure>, collate: string -> string)
    requires Reordered(a, b) && Keyed(KeyBy(collate), NormalizeAll(a))
    ensures NormalizeFailureSet(a, collate) == NormalizeFailureSet(b, collate)
  {
    hide Normalize, Sort;
    MapKeepsMultiset(NormalizeFailure, a, b);
    assert Map(NormalizeFailure, a) == NormalizeAll(a) && Map(NormalizeFailure, b) == NormalizeAll(b);
    SortIgnoresOrder(KeyBy(collate), NormalizeAll(a), NormalizeAll(b));
  }

  lemma {:induction false} KeyHasElement<T>(key: T -> string, s: seq<T>, i: nat)
    requires i < |s|
    ensures WithKey(key, key(s[i]), s) != []
  {
    if i > 0 { KeyHasElement(key, s[1..], i - 1); }
  }

  const FIRST := StructuredFailure("x", "e", "p")
  const SECOND := StructuredFailure("x ", "e", "q")

  /** Rubric ids may differ only in white space: then the same two failures, listed the other way round, look like a change. */
  lemma EqualIdsKeepTheirOrder(collate: string -> string)
    ensures NormalizeFailureSet([FIRST, SECOND], collate) != NormalizeFailureSet([SECOND, FIRST], collate)
    ensures Reordered([FIRST, SECOND], [SECOND, FIRST]) && FIRST.criterion != SECOND.criterion
  {
    hide Normalize, Sort, WithKey;
    OneWord("x", "x");
    OneWord("x ", "x");
    OneWord("p", "p");
    OneWord("q", "q");
    var a := [FIRST, SECOND];
    var key, x := KeyBy(collate), NormalizeAll(a);
    HeadWithKey(key, x);
    assert x[0].observed == "p" && x[1].observed == "q" && key(x[0]) == key(x[1]);
    HoistingShows(a, 1, collate);
    assert Hoist(a, 1) == [SECOND, FIRST];
  }

  lemma OneWord(s: string, w: string)
    requires |w| == 1 && !IsSpace(w[0]) && (s == w || s == w + " ")
    ensures Normalize(s) == w
  {
    NormalizeJoins(s);
    assert IsSpace(' ');
    RunLengthIs(s, 1);
    assert s[..1] == w;
    if s != w { assert s[1..][1..] == []; }
    assert Words(s[1..]) == [];
    assert Words(s) == [w];
  }
}
