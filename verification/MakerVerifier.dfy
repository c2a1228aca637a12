/**
 The maker-verifier loop: a maker model revises its output until an independent verifier passes
 every criterion of the rubric, and is replaced by a stronger one when it fails the same way twice.

 Provider replies, clock readings and the providers the factory hands out are parameters: iteration
 `i` uses replies `2i - 2` and `2i - 1` and clock readings `2i - 1` and `2i`.

 Line numbers refer to harness/maker-verifier.ts.
 */
module MakerVerifier {
  import opened Basics
  import opened Routing
  import opened Sorting
  import opened Texts
  import opened Provider

  const MAX_MAKER_VERIFIER_ITERS := 20

  datatype Task = Task(id: string, taskClass: TaskClass, input: string)
  datatype CriterionResult = CriterionResult(criterion: string, pass: bool, observed: string)

  datatype CallReceipt = CallReceipt(
    requested: ModelId, models: seq<string>, stopReason: Option<string>, refused: bool, cost: real, duration: real,
    usage: Usage, modelUsage: seq<ModelUsage>)

  datatype MakerPart = MakerPart(completedAt: int, output: string, selfPass: bool, summary: string, receipt: CallReceipt)
  datatype VerifierPart = VerifierPart(completedAt: int, pass: bool, criteria: seq<CriterionResult>, receipt: CallReceipt)
  datatype Iteration = Iteration(
    number: int, maker: MakerPart, verifier: VerifierPart, failures: seq<StructuredFailure>, normalized: seq<StructuredFailure>)
  datatype Escalation = Escalation(iteration: int, fromModel: ModelId, toModel: ModelId)
  datatype StopReason = Verified | MaxIters

  datatype Trace = Trace(
    taskId: string, taskClass: TaskClass, startedAt: int, completedAt: int, maxIters: int, stoppedBy: StopReason,
    iterations: seq<Iteration>, escalations: seq<Escalation>, totalCost: real, totalUsage: Usage)
  datatype Result = Result(
    pass: bool, output: string, failures: seq<StructuredFailure>, iterations: nat, stoppedBy: StopReason, trace: Trace)

  function ReceiptFor(c: Completion): CallReceipt {
    CallReceipt(c.requested, c.models, c.stopReason, c.refused, c.cost, c.duration, c.usage, c.modelUsage)
  }

  // ---- Input checks ------------------------------------------------------------------------------

  function Ids(rubric: seq<Criterion>): (r: seq<string>)
    ensures |r| == |rubric|
  {
    seq(|rubric|, i requires 0 <= i < |rubric| => rubric[i].id)
  }

  predicate RubricOk(rubric: seq<Criterion>) {
    && 3 <= |rubric| <= 7
    && (forall i :: 0 <= i < |rubric| ==> !Blank(rubric[i].id) && !Blank(rubric[i].description) && !Blank(rubric[i].expected))
    && (forall i, j :: 0 <= i < j < |rubric| ==> rubric[i].id != rubric[j].id)
  }

  predicate TaskOk(task: Task) { !Blank(task.id) && !Blank(task.input) }

  // ---- Answers -----------------------------------------------------------------------------------

  datatype Made = Made(output: string, pass: bool, summary: string)

  /** `parseMakerResponse`; `None` where it throws. */
  function ParseMaker(t: Text): Option<Made> {
    var o := ExactObject(t, {"output", "selfAssessment"});
    if o.None? then None
    else
      var output, self := RequiredText(o.value, "output"), ExactFields(o.value["selfAssessment"], {"pass", "summary"});
      if output.None? || self.None? || !self.value["pass"].JBool? then None
      else
        var summary := RequiredText(self.value, "summary");
        if summary.None? || !OneLine(summary.value) then None
        else Some(Made(output.value, self.value["pass"].flag, Trim(summary.value)))
  }

  function ReadResult(j: Json, ids: seq<string>): Option<CriterionResult> {
    var o := ExactFields(j, {"criterion", "pass", "observed"});
    if o.None? || !o.value["criterion"].JText? || o.value["criterion"].text !in ids || !o.value["pass"].JBool? then None
    else
      var observed := RequiredText(o.value, "observed");
      if observed.None? || !OneLine(observed.value) then None
      else Some(CriterionResult(o.value["criterion"].text, o.value["pass"].flag, Trim(observed.value)))
  }

  function Criteria(rs: seq<CriterionResult>): (r: seq<string>)
    ensures |r| == |rs|
  {
    seq(|rs|, i requires 0 <= i < |rs| => rs[i].criterion)
  }

  /** The results in the order given; a criterion reported twice throws. */
  function ReadResults(items: seq<Json>, ids: seq<string>): Option<seq<CriterionResult>> {
    if items == [] then Some([])
    else
      var front, last := ReadResults(items[..|items| - 1], ids), ReadResult(items[|items| - 1], ids);
      if front.None? || last.None? || last.value.criterion in Criteria(front.value) then None
      else Some(front.value + [last.value])
  }

  /** `parseVerifierResponse`; `None` where it throws. */
  function ParseVerifier(t: Text, rubric: seq<Criterion>): Option<seq<CriterionResult>> {
    var o := ExactObject(t, {"criteria"});
    if o.None? || !o.value["criteria"].JList? then None
    else
      var results := ReadResults(o.value["criteria"].items, Ids(rubric));
      if results.None? || |results.value| != |rubric| then None else results
  }

  /** The expected text of a criterion. */
  function Expected(rubric: seq<Criterion>, id: string): string {
    if rubric == [] then "" else if rubric[0].id == id then rubric[0].expected else Expected(rubric[1..], id)
  }

  /** `toStructuredFailures`. */
  function FailuresOf(rs: seq<CriterionResult>, rubric: seq<Criterion>): seq<StructuredFailure> {
    if rs == [] then []
    else
      var front, r := FailuresOf(rs[..|rs| - 1], rubric), rs[|rs| - 1];
      if r.pass then front else front + [StructuredFailure(r.criterion, Expected(rubric, r.criterion), r.observed)]
  }

  function NormalizeFailure(f: StructuredFailure): StructuredFailure {
    StructuredFailure(Normalize(f.criterion), Normalize(f.expected), Normalize(f.observed))
  }

  function NormalizeAll(fs: seq<StructuredFailure>): (r: seq<StructuredFailure>)
    ensures |r| == |fs|
  {
    seq(|fs|, i requires 0 <= i < |fs| => NormalizeFailure(fs[i]))
  }

  /** `localeCompare` compares the collation keys of two texts; distinct texts may have equal keys. */
  function KeyBy(collate: string -> string): StructuredFailure -> string {
    (f: StructuredFailure) => collate(f.criterion)
  }

  /** `normalizeFailureSet`; its JSON text is as good as the list itself. */
  function NormalizeFailureSet(fs: seq<StructuredFailure>, collate: string -> string): seq<StructuredFailure> {
    Sort(KeyBy(collate), NormalizeAll(fs))
  }

  // ---- The loop ----------------------------------------------------------------------------------

  /** What the caller of the loop supplies; `verifiers(i)` is the i-th provider the factory returns. */
  datatype Config = Config(
    available: Option<seq<ModelId>>, clock: nat -> int, replies: nat -> Reply, verifiers: nat -> Option<nat>, makerProvider: nat,
    collate: string -> string)

  datatype Progress = Progress(
    model: ModelId, previous: Option<seq<StructuredFailure>>, iterations: seq<Iteration>, escalations: seq<Escalation>,
    receipts: seq<Completion>, used: set<nat>,
    // What the maker and the verifiers were asked with.
    asked: seq<ModelId>, verifiersUsed: seq<nat>)

  function Base(cfg: Config, task: Task): Option<ModelId> {
    Route(task.taskClass, 0, if cfg.available.Some? then Availability(cfg.available) else NoFailure)
  }

  function VerifierModel(cfg: Config): Option<ModelId> {
    Route(Grader, 0, if cfg.available.Some? then Availability(cfg.available) else NoFailure)
  }

  function Escalated(cfg: Config, task: Task): Option<ModelId> {
    Route(task.taskClass, 2, VerifierFailure(cfg.available))
  }

  datatype Step = Thrown(used: set<nat>) | Passed(progress: Progress) | Again(progress: Progress)

  /** The maker's half of an iteration (189-195). */
  function MakerAnswer(reply: Reply): Option<Made> {
    if reply.Rejects? || reply.completion.refused then None else ParseMaker(reply.completion.text)
  }

  /** The verifier's half of an iteration (205-219). */
  function VerifierAnswer(reply: Reply, rubric: seq<Criterion>): Option<seq<CriterionResult>> {
    if reply.Rejects? || reply.completion.refused then None else ParseVerifier(reply.completion.text, rubric)
  }

  function TraceOf(cfg: Config, rubric: seq<Criterion>, i: nat, made: Made, rs: seq<CriterionResult>, m: Completion, v: Completion): Iteration
    requires i >= 1
  {
    var failures := FailuresOf(rs, rubric);
    Iteration(i, MakerPart(cfg.clock(2 * i - 1), made.output, made.pass, made.summary, ReceiptFor(m)),
              VerifierPart(cfg.clock(2 * i), failures == [], rs, ReceiptFor(v)), failures,
              NormalizeFailureSet(failures, cfg.collate))
  }

  /** The same failure set as in the iteration before: switch to the escalated route (260-276). */
  function Compare(cfg: Config, task: Task, p: Progress, i: nat, set': seq<StructuredFailure>): Step {
    if p.previous != Some(set') then Again(p.(previous := Some(set')))
    else
      match Escalated(cfg, task)
      case None => Thrown(p.used)
      case Some(e) =>
        Again(p.(model := e, previous := Some(set'),
                 escalations := if e != p.model then p.escalations + [Escalation(i, p.model, e)] else p.escalations))
  }

  function Iterated(cfg: Config, task: Task, rubric: seq<Criterion>, p: Progress, i: nat): Step
    requires i >= 1
  {
    var asked := p.(asked := p.asked + [p.model]);
    var m, v := cfg.replies(2 * i - 2), cfg.replies(2 * i - 1);
    var made := MakerAnswer(m);
    if made.None? then Thrown(p.used)
    else
      var provider := cfg.verifiers(i);
      if provider.None? || provider.value == cfg.makerProvider || provider.value in p.used then Thrown(p.used)
      else
        var rs := VerifierAnswer(v, rubric);
        if rs.None? then Thrown(p.used + {provider.value})
        else
          var t := TraceOf(cfg, rubric, i, made.value, rs.value, m.completion, v.completion);
          var q := asked.(used := p.used + {provider.value}, verifiersUsed := p.verifiersUsed + [provider.value],
                          receipts := p.receipts + [m.completion, v.completion], iterations := p.iterations + [t]);
          if t.verifier.pass then Passed(q) else Compare(cfg, task, q, i, t.normalized)
  }

  function SumCost(cs: seq<Completion>): real {
    if cs == [] then 0.0 else SumCost(cs[..|cs| - 1]) + cs[|cs| - 1].cost
  }

  function SumUsage(cs: seq<Completion>): Usage {
    if cs == [] then NO_USAGE else AddUsage(SumUsage(cs[..|cs| - 1]), cs[|cs| - 1].usage)
  }

  /** `finish`. */
  function Finish(cfg: Config, task: Task, max: int, p: Progress, stop: StopReason): Result
    requires p.iterations != []
  {
    var last := p.iterations[|p.iterations| - 1];
    Result(stop == Verified, last.maker.output, if stop == Verified then [] else last.failures, |p.iterations|, stop,
           Trace(task.id, task.taskClass, cfg.clock(0), last.verifier.completedAt, max, stop, p.iterations, p.escalations,
                 SumCost(p.receipts), SumUsage(p.receipts)))
  }

  datatype Outcome = Returned(result: Result, progress: Progress) | Threw(used: set<nat>)

  /** Iterations `i` to the last. */
  function Iterate(cfg: Config, task: Task, rubric: seq<Criterion>, max: nat, p: Progress, i: nat): Outcome
    requires 1 <= i <= max + 1 && |p.iterations| == i - 1 && max >= 1
    decreases max + 1 - i
  {
    if i > max then Returned(Finish(cfg, task, max, p, MaxIters), p)
    else
      match Iterated(cfg, task, rubric, p, i)
      case Thrown(used) => Threw(used)
      case Passed(q) => Returned(Finish(cfg, task, max, q, Verified), q)
      case Again(q) => Iterate(cfg, task, rubric, max, q, i + 1)
  }

  function Start(model: ModelId, used: set<nat>): Progress {
    Progress(model, None, [], [], [], used, [], [])
  }

  /** `makerVerifier`, given the providers earlier runs have used. */
  function Run(cfg: Config, used: set<nat>, task: Task, rubric: seq<Criterion>, max: int): Outcome {
    if !TaskOk(task) || !RubricOk(rubric) || !(1 <= max <= MAX_MAKER_VERIFIER_ITERS) then Threw(used)
    else if Base(cfg, task).None? || VerifierModel(cfg).None? then Threw(used)
    else Iterate(cfg, task, rubric, max, Start(Base(cfg, task).value, used), 1)
  }
}
