/**
 What the checker of maker-verifier evidence is good for.  First, in plain terms, what it accepts; then
 what it therefore refuses: totals that do not follow from the receipts, verdicts whose failures are
 not theirs, criteria left out or counted twice, another reason for stopping, a shortened trace.

 Line numbers refer to evals/maker-verifier-evidence.ts.
 */
module MakerVerifierAudit {
  import opened Sorting
  import opened Texts
  import opened Provider
  import opened Sums
  import opened MakerVerifier
  import opened MakerVerifierEvidence
  import opened MakerVerifierTheorems
  import opened MakerVerifierAnswers

  // ---- Receipts ----------------------------------------------------------------------------------

  function PartCost(u: ModelUsage): real { u.cost }
  function PartUsage(u: ModelUsage): Usage { u.usage }

  predicate NoneNegative(u: Usage) {
    u.input >= 0 && u.output >= 0 && u.cacheRead >= 0 && u.cacheCreation >= 0
  }

  predicate NoTokens(u: Usage) {
    u.input == 0 && u.output == 0 && u.cacheRead == 0 && u.cacheCreation == 0
  }

  /** The models are those of the parts, each once. */
  ghost predicate ModelsOfParts(models: seq<string>, parts: seq<ModelUsage>) {
    NoDuplicates(models) && forall x :: x in models <==> exists k :: 0 <= k < |parts| && parts[k].model == x
  }

  /** The parts account for the receipt; only a free fixture needs none. */
  ghost predicate Accounted(r: CallReceipt) {
    if r.modelUsage == [] then (forall x :: x in r.models ==> IsFixture(x)) && r.cost == 0.0 && NoTokens(r.usage)
    else
      && (forall u :: u in r.modelUsage ==> !Blank(u.model) && u.cost >= 0.0 && NoneNegative(u.usage))
      && -TOLERANCE <= Total(r.modelUsage, PartCost) - r.cost <= TOLERANCE
      && r.usage == UsageTotal(r.modelUsage, PartUsage)
      && ModelsOfParts(r.models, r.modelUsage)
  }

  /** A receipt that adds up. */
  ghost predicate AddsUp(r: CallReceipt) {
    && (r.requested.Other? ==> !Blank(r.requested.name)) && r.models != [] && "" !in r.models
    && !r.refused && r.cost >= 0.0 && r.duration >= 0.0 && NoneNegative(r.usage) && Accounted(r)
  }

  lemma {:induction false} PartsAgree(us: seq<ModelUsage>)
    ensures ModelCost(us) == Total(us, PartCost) && ModelTokens(us) == UsageTotal(us, PartUsage)
  {
    hide UsageTotal;
    if us == [] {
      NoParts();
    } else {
      var front, last := us[..|us| - 1], us[|us| - 1];
      PartsAgree(front);
      assert us == front + [last];
      PushTotal(front, last, PartCost, PartUsage);
    }
  }

  lemma NoParts()
    ensures UsageTotal<ModelUsage>([], PartUsage) == NO_USAGE
  {
  }

  lemma PartModelsAgree(models: seq<string>, parts: seq<ModelUsage>)
    ensures SortText(Sorting.Distinct(ModelNames(parts))) == SortText(models) <==> ModelsOfParts(models, parts)
  {
    hide SortText, Sorting.Distinct;
    var names := ModelNames(parts);
    var all := Sorting.Distinct(names);
    SortTextAgrees(all, models);
    DistinctHolds(names);
    forall x ensures x in all <==> exists k :: 0 <= k < |parts| && parts[k].model == x {
      if x in names { var k :| 0 <= k < |names| && names[k] == x; assert parts[k].model == x; }
      if k :| 0 <= k < |parts| && parts[k].model == x { assert names[k] == x; }
    }
    SameTexts(all, models);
  }

  lemma SameTexts(all: seq<string>, models: seq<string>)
    requires NoDuplicates(all)
    ensures multiset(all) == multiset(models) <==> NoDuplicates(models) && forall x :: x in models <==> x in all
  {
    NoDuplicatesCounts(all);
    if multiset(all) == multiset(models) {
      forall x ensures x in models <==> x in all { assert x in multiset(models) <==> x in multiset(all); }
      OnceEach(models);
    }
    if NoDuplicates(models) && forall x :: x in models <==> x in all {
      NoDuplicatesCounts(models);
      assert forall x :: multiset(all)[x] == multiset(models)[x];
    }
  }

  lemma AccountsAgree(r: CallReceipt)
    requires NoneNegative(r.usage)
    ensures Accounted(r) <==> PartsOk(r)
  {
    hide Total, UsageTotal, ModelCost, ModelTokens, ModelsOfParts, SortText, Sorting.Distinct, ModelNames, IsFixture, Blank, AllFixture,
         NoneNegative, NoTokens, TokenTotal, ModelUsageOk;
    if r.modelUsage == [] {
      FixturesAgree(r.models);
      FreeAgrees(r.usage);
    } else {
      PartsAgree(r.modelUsage);
      PartModelsAgree(r.models, r.modelUsage);
      PartsInOrder(r.modelUsage);
    }
  }

  lemma FreeAgrees(u: Usage)
    requires NoneNegative(u)
    ensures NoTokens(u) <==> TokenTotal(u) == 0
  {
  }

  lemma ReceiptsAgree(r: CallReceipt)
    ensures AddsUp(r) <==> ReceiptOk(r)
  {
    hide Accounted, PartsOk, Blank;
    NoBlankModels(r.models);
    if NoneNegative(r.usage) { AccountsAgree(r); }
  }

  lemma NoBlankModels(models: seq<string>)
    ensures "" in models <==> exists i :: 0 <= i < |models| && models[i] == ""
  {
  }

  lemma PartsInOrder(us: seq<ModelUsage>)
    ensures (forall u :: u in us ==> !Blank(u.model) && u.cost >= 0.0 && NoneNegative(u.usage))
            <==> forall i :: 0 <= i < |us| ==> ModelUsageOk(us[i])
  {
    hide Blank;
    if forall i :: 0 <= i < |us| ==> ModelUsageOk(us[i]) {
      forall u | u in us ensures !Blank(u.model) && u.cost >= 0.0 && NoneNegative(u.usage) {
        var i :| 0 <= i < |us| && us[i] == u;
      }
    } else {
      var i :| 0 <= i < |us| && !ModelUsageOk(us[i]);
      assert us[i] in us;
    }
  }

  lemma FixturesAgree(models: seq<string>)
    ensures (forall x :: x in models ==> IsFixture(x)) <==> AllFixture(models)
  {
    hide IsFixture;
    if AllFixture(models) {
      forall x | x in models ensures IsFixture(x) { var i :| 0 <= i < |models| && models[i] == x; }
    } else {
      var i :| 0 <= i < |models| && !IsFixture(models[i]);
      assert models[i] in models;
    }
  }

  /** A live call takes time, and no longer than the clock says, give or take two seconds. */
  ghost predicate TookTime(r: CallReceipt, from: int, to: int) {
    && ((exists x :: x in r.models && !IsFixture(x)) ==> r.duration > 0.0)
    && r.duration <= (to - from) as real + 2000.0
  }

  lemma DurationsAgree(r: CallReceipt, from: int, to: int)
    ensures TookTime(r, from, to) <==> DurationOk(r, from, to)
  {
    hide IsFixture;
    FixturesAgree(r.models);
  }

  // ---- Verdicts ----------------------------------------------------------------------------------

  /** One result on each criterion of the rubric, in any order, each with an observation. */
  ghost predicate OneOnEach(rs: seq<CriterionResult>, rubric: seq<Criterion>) {
    && multiset(Criteria(rs)) == multiset(Ids(rubric))
    && forall i :: 0 <= i < |rs| ==> !Blank(rs[i].criterion) && !Blank(rs[i].observed)
  }

  lemma CriteriaAgree(rs: seq<CriterionResult>, rubric: seq<Criterion>)
    ensures OneOnEach(rs, rubric) <==> CriteriaOk(rs, rubric)
  {
    hide SortText, Blank;
    SortTextAgrees(Criteria(rs), Ids(rubric));
    if multiset(Criteria(rs)) == multiset(Ids(rubric)) {
      assert |multiset(Criteria(rs))| == |rs| && |multiset(Ids(rubric))| == |rubric|;
    }
  }

  lemma {:induction false} OnlyOneExplanation(fs: seq<StructuredFailure>, rs: seq<CriterionResult>, rubric: seq<Criterion>)
    requires forall i, j :: 0 <= i < j < |rubric| ==> rubric[i].id != rubric[j].id
    requires FailuresOfVerdict(fs, rs, rubric)
    ensures fs == FailuresOf(rs, rubric)
    decreases |rs|
  {
    if rs != [] {
      var front, r := rs[..|rs| - 1], rs[|rs| - 1];
      if r.pass {
        OnlyOneExplanation(fs, front, rubric);
      } else {
        OnlyOneExplanation(fs[..|fs| - 1], front, rubric);
        assert fs == fs[..|fs| - 1] + [fs[|fs| - 1]];
        var c :| 0 <= c < |rubric| && rubric[c].id == r.criterion && rubric[c].expected == fs[|fs| - 1].expected;
        assert Ids(rubric)[c] == r.criterion;
        ExpectedHolds(rubric, r.criterion);
      }
    }
  }

  /** The failures the checker derives are those of the failed results, with what the rubric expected. */
  lemma FailuresAgree(fs: seq<StructuredFailure>, rs: seq<CriterionResult>, rubric: seq<Criterion>)
    requires RubricOk(rubric) && OneOnEach(rs, rubric)
    ensures FailuresOfVerdict(fs, rs, rubric) <==> FailuresOk(fs, rs, rubric)
  {
    hide Blank, FailuresOfVerdict, FailuresOf, Derived, FailureOk;
    AllNamed(rs, rubric);
    DerivationsAgree(rs, rubric);
    FailuresHold(rs, rubric);
    FailuresAreReported(rs, rubric);
    if FailuresOfVerdict(fs, rs, rubric) { OnlyOneExplanation(fs, rs, rubric); }
  }

  lemma AllNamed(rs: seq<CriterionResult>, rubric: seq<Criterion>)
    requires OneOnEach(rs, rubric)
    ensures forall i :: 0 <= i < |rs| ==> rs[i].criterion in Ids(rubric)
  {
    hide Blank;
    forall i | 0 <= i < |rs| ensures rs[i].criterion in Ids(rubric) {
      assert Criteria(rs)[i] in multiset(Criteria(rs));
    }
  }

  // ---- Normalised sets ---------------------------------------------------------------------------

  /** `ns` are the failures with their white space normalised, sorted by their ids and otherwise as they were. */
  ghost predicate NormalForm(ns: seq<StructuredFailure>, fs: seq<StructuredFailure>, collate: string -> string) {
    && Ordered(KeyBy(collate), ns)
    && forall k :: WithKey(KeyBy(collate), k, ns) == WithKey(KeyBy(collate), k, NormalizeAll(fs))
  }

  lemma {:induction false} WithKeyFirst<T>(key: T -> string, s: seq<T>, i: nat)
    requires i < |s| && (forall j :: 0 <= j < i ==> key(s[j]) != key(s[i]))
    ensures WithKey(key, key(s[i]), s) != [] && WithKey(key, key(s[i]), s)[0] == s[i]
  {
    if i > 0 { WithKeyFirst(key, s[1..], i - 1); }
  }

  lemma {:induction false} WithKeyMember<T>(key: T -> string, k: string, s: seq<T>)
    ensures WithKey(key, k, s) != [] <==> exists i :: 0 <= i < |s| && key(s[i]) == k
  {
    if s != [] {
      WithKeyMember(key, k, s[1..]);
      if i :| 0 <= i < |s[1..]| && key(s[1..][i]) == k { assert key(s[i + 1]) == k; }
      if i :| 0 <= i < |s| && key(s[i]) == k { if i > 0 { assert key(s[1..][i - 1]) == k; } }
    }
  }

  /** There is only one stable order. */
  lemma {:induction false} StableIsUnique<T>(key: T -> string, a: seq<T>, b: seq<T>)
    requires Ordered(key, a) && Ordered(key, b) && forall k :: WithKey(key, k, a) == WithKey(key, k, b)
    ensures a == b
    decreases |a|
  {
    hide Leq;
    if a == [] || b == [] {
      if b != [] { WithKeyMember(key, key(b[0]), b); WithKeyMember(key, key(b[0]), a); }
      if a != [] { WithKeyMember(key, key(a[0]), a); WithKeyMember(key, key(a[0]), b); }
    } else {
      SameFirstKey(key, a, b);
      WithKeyFirst(key, a, 0);
      WithKeyFirst(key, b, 0);
      assert a[0] == b[0];
      forall k ensures WithKey(key, k, a[1..]) == WithKey(key, k, b[1..]) {
        var first := if key(a[0]) == k then [a[0]] else [];
        var p, q := WithKey(key, k, a[1..]), WithKey(key, k, b[1..]);
        assert WithKey(key, k, a) == WithKey(key, k, b);
        assert first + p == first + q;
        assert p == (first + p)[|first|..] && q == (first + q)[|first|..];
      }
      StableIsUnique(key, a[1..], b[1..]);
      assert a == [a[0]] + a[1..] && b == [b[0]] + b[1..];
    }
  }

  lemma SameFirstKey<T>(key: T -> string, a: seq<T>, b: seq<T>)
    requires a != [] && b != [] && Ordered(key, a) && Ordered(key, b) && forall k :: WithKey(key, k, a) == WithKey(key, k, b)
    ensures key(a[0]) == key(b[0])
  {
    hide Leq, WithKey;
    WithKeyMember(key, key(a[0]), a);
    WithKeyMember(key, key(a[0]), b);
    WithKeyMember(key, key(b[0]), b);
    WithKeyMember(key, key(b[0]), a);
    var i :| 0 <= i < |b| && key(b[i]) == key(a[0]);
    var j :| 0 <= j < |a| && key(a[j]) == key(b[0]);
    LeqReflexive(key(a[0]));
    assert Leq(key(b[0]), key(a[0])) && Leq(key(a[0]), key(b[0]));
    LeqAntisymmetric(key(a[0]), key(b[0]));
  }

  lemma NormalFormsAgree(ns: seq<StructuredFailure>, fs: seq<StructuredFailure>, collate: string -> string)
    ensures NormalForm(ns, fs, collate) <==> ns == Canonical(fs, collate)
  {
    hide Canonical, WithKey, Sort, Ordered, NormalizeAll;
    var key, all := KeyBy(collate), NormalizeAll(fs);
    NormalizationsAgree(fs, collate);
    SortHolds(key, all);
    forall k ensures WithKey(key, k, Sort(key, all)) == WithKey(key, k, all) { SortStable(key, all, k); }
    if NormalForm(ns, fs, collate) { StableIsUnique(key, ns, Sort(key, all)); }
  }

  // ---- Totals ------------------------------------------------------------------------------------

  function MakerCost(it: Iteration): real { it.maker.receipt.cost }
  function VerifierCost(it: Iteration): real { it.verifier.receipt.cost }
  function MakerTokens(it: Iteration): Usage { it.maker.receipt.usage }
  function VerifierTokens(it: Iteration): Usage { it.verifier.receipt.usage }

  /** What makers and verifiers cost together, and the tokens of each kind they used. */
  ghost function CostOf(its: seq<Iteration>): real { Total(its, MakerCost) + Total(its, VerifierCost) }

  ghost function TokensOf(its: seq<Iteration>): Usage {
    var m, v := UsageTotal(its, MakerTokens), UsageTotal(its, VerifierTokens);
    Usage(m.input + v.input, m.output + v.output, m.cacheRead + v.cacheRead, m.cacheCreation + v.cacheCreation)
  }

  lemma PushIterationTotals(front: seq<Iteration>, it: Iteration)
    ensures CostOf(front + [it]) == CostOf(front) + it.maker.receipt.cost + it.verifier.receipt.cost
    ensures TokensOf(front + [it]) == AddUsage(AddUsage(TokensOf(front), it.maker.receipt.usage), it.verifier.receipt.usage)
  {
    hide UsageTotal, Total;
    PushTotal(front, it, MakerCost, MakerTokens);
    PushTotal(front, it, VerifierCost, VerifierTokens);
  }

  lemma {:induction false} TotalsAgree(its: seq<Iteration>)
    ensures TraceCost(its) == CostOf(its) && TraceUsage(its) == TokensOf(its)
  {
    hide CostOf, TokensOf;
    if its == [] {
      NothingYet();
    } else {
      var front, it := its[..|its| - 1], its[|its| - 1];
      TotalsAgree(front);
      assert its == front + [it];
      PushIterationTotals(front, it);
    }
  }

  lemma NothingYet()
    ensures CostOf([]) == 0.0 && TokensOf([]) == NO_USAGE
  {
  }

  // ---- In plain terms ----------------------------------------------------------------------------

  ghost predicate TrueIteration(it: Iteration, k: nat, previous: int, rubric: seq<Criterion>, collate: string -> string) {
    && it.number == k + 1 && previous <= it.maker.completedAt && it.maker.completedAt <= it.verifier.completedAt
    && !Blank(it.maker.output) && Line(it.maker.summary)
    && AddsUp(it.maker.receipt) && TookTime(it.maker.receipt, previous, it.maker.completedAt)
    && AddsUp(it.verifier.receipt) && TookTime(it.verifier.receipt, it.maker.completedAt, it.verifier.completedAt)
    && OneOnEach(it.verifier.criteria, rubric)
    && (it.verifier.pass <==> forall i :: 0 <= i < |it.verifier.criteria| ==> it.verifier.criteria[i].pass)
    && FailuresOfVerdict(it.failures, it.verifier.criteria, rubric)
    && NormalForm(it.normalized, it.failures, collate)
  }

  lemma IterationsAgree(it: Iteration, k: nat, previous: int, rubric: seq<Criterion>, collate: string -> string)
    requires RubricOk(rubric)
    ensures TrueIteration(it, k, previous, rubric, collate) <==> IterationOk(it, k, previous, rubric, collate)
  {
    hide AddsUp, ReceiptOk, TookTime, DurationOk, OneOnEach, CriteriaOk, FailuresOfVerdict, FailuresOk, NormalForm, Canonical, Blank, OneLine, RubricOk;
    ReceiptsAgree(it.maker.receipt);
    ReceiptsAgree(it.verifier.receipt);
    DurationsAgree(it.maker.receipt, previous, it.maker.completedAt);
    DurationsAgree(it.verifier.receipt, it.maker.completedAt, it.verifier.completedAt);
    CriteriaAgree(it.verifier.criteria, rubric);
    if OneOnEach(it.verifier.criteria, rubric) { FailuresAgree(it.failures, it.verifier.criteria, rubric); }
    NormalFormsAgree(it.normalized, it.failures, collate);
  }

  /** The task, its rubric of three to seven criteria, and the span of time. */
  ghost predicate Described(e: Evidence) {
    && e.rubric == e.sourceRubric && 3 <= |e.rubric| <= 7 && NoDuplicates(Ids(e.rubric))
    && (forall c :: c in e.rubric ==> !Blank(c.id) && !Blank(c.description) && !Blank(c.expected))
    && e.trace.taskId == e.sourceId && !Blank(e.sourceId) && e.trace.startedAt <= e.trace.completedAt
  }

  /** It stopped because the last verdict passed, or because it had used up its iterations and it did not. */
  ghost predicate TrueStop(t: Trace)
    requires t.iterations != []
  {
    var passed := t.iterations[|t.iterations| - 1].verifier.pass;
    match t.stoppedBy
    case Verified => passed
    case MaxIters => !passed && |t.iterations| == t.maxIters
  }

  /** A fault is labelled exactly if the maker's receipts show the seeded model. */
  ghost predicate TrueLabel(e: Evidence) {
    && (e.faultCriterion.Some? <==> exists k :: 0 <= k < |e.trace.iterations| && SEEDED in e.trace.iterations[k].maker.receipt.models)
    && (e.faultCriterion.Some? ==> e.faultCriterion.value in Ids(e.rubric))
  }

  ghost predicate Sound(e: Evidence, collate: string -> string) {
    var t := e.trace;
    && Described(e) && 1 <= |t.iterations| <= t.maxIters
    && (forall k :: 0 <= k < |t.iterations| ==> TrueIteration(t.iterations[k], k, TimeBefore(t, k), e.rubric, collate))
    && t.iterations[|t.iterations| - 1].verifier.completedAt <= t.completedAt
    && t.totalCost >= 0.0 && -TOLERANCE <= CostOf(t.iterations) - t.totalCost <= TOLERANCE
    && t.totalUsage == TokensOf(t.iterations)
    && TrueStop(t) && TrueLabel(e)
  }

  lemma HeadsAgree(e: Evidence)
    ensures Described(e) && 1 <= |e.trace.iterations| <= e.trace.maxIters <==> HeadOk(e)
  {
    hide Blank;
    var ids := Ids(e.rubric);
    if HeadOk(e) {
      forall c | c in e.rubric ensures !Blank(c.id) && !Blank(c.description) && !Blank(c.expected) {
        var i :| 0 <= i < |e.rubric| && e.rubric[i] == c;
      }
    }
    if Described(e) {
      forall i | 0 <= i < |e.rubric| ensures !Blank(e.rubric[i].id) && !Blank(e.rubric[i].description) && !Blank(e.rubric[i].expected) {
        assert e.rubric[i] in e.rubric;
      }
      forall i, j | 0 <= i < j < |e.rubric| ensures e.rubric[i].id != e.rubric[j].id { assert ids[i] != ids[j]; }
    }
  }

  lemma LabelsAgree(e: Evidence)
    requires RubricOk(e.rubric)
    ensures TrueLabel(e) <==> FaultOk(e)
  {
    hide Blank, RubricOk;
    if e.faultCriterion.Some? && e.faultCriterion.value in Ids(e.rubric) { IdIsNotBlank(e.rubric, e.faultCriterion.value); }
  }

  /**
   The checker accepts evidence exactly when it describes its task, every iteration is told in order and
   in time with receipts that add up, one result on each criterion and the failures of that verdict,
   the totals are those of the receipts, it stopped for the reason it gives, and a seeded fault is
   labelled as one.
   */
  lemma AcceptedExactlyWhen(e: Evidence, collate: string -> string)
    ensures ValidEvidence(e, collate) <==> Sound(e, collate)
  {
    hide TrueIteration, IterationOk, Described, HeadOk, TrueLabel, FaultOk, CostOf, TokensOf, TraceCost, TraceUsage, TimeBefore;
    HeadsAgree(e);
    HeadsHold(e);
    TotalsAgree(e.trace.iterations);
    if HeadOk(e) {
      LabelsAgree(e);
      forall k | 0 <= k < |e.trace.iterations|
        ensures TrueIteration(e.trace.iterations[k], k, TimeBefore(e.trace, k), e.rubric, collate)
           <==> IterationOk(e.trace.iterations[k], k, TimeBefore(e.trace, k), e.rubric, collate)
      {
        IterationsAgree(e.trace.iterations[k], k, TimeBefore(e.trace, k), e.rubric, collate);
      }
    }
  }

  lemma HeadsHold(e: Evidence)
    ensures HeadOk(e) ==> RubricOk(e.rubric) && 1 <= |e.trace.iterations| <= e.trace.maxIters
  {
  }

  // ---- What it refuses ---------------------------------------------------------------------------

  /** The receipts leave no choice about the totals, and the last verdict none about the reason for stopping. */
  lemma TotalsFollowFromReceipts(e: Evidence, f: Evidence, collate: string -> string)
    requires ValidEvidence(e, collate) && ValidEvidence(f, collate) && e.trace.iterations == f.trace.iterations
    ensures Abs(e.trace.totalCost - f.trace.totalCost) <= 2.0 * TOLERANCE && e.trace.totalUsage == f.trace.totalUsage
    ensures e.trace.stoppedBy == f.trace.stoppedBy
    ensures e.faultCriterion.Some? <==> f.faultCriterion.Some?
  {
    hide TrueIteration, Described, CostOf, TokensOf, ValidEvidence, TimeBefore;
    AcceptedExactlyWhen(e, collate);
    AcceptedExactlyWhen(f, collate);
  }

  /** The results leave no choice about the verdict: pass, failures and normalised set follow from them. */
  lemma VerdictFollowsFromResults(e: Evidence, f: Evidence, k: nat, collate: string -> string)
    requires ValidEvidence(e, collate) && ValidEvidence(f, collate) && e.rubric == f.rubric
    requires k < |e.trace.iterations| && k < |f.trace.iterations|
    requires e.trace.iterations[k].verifier.criteria == f.trace.iterations[k].verifier.criteria
    ensures var a, b := e.trace.iterations[k], f.trace.iterations[k];
            a.verifier.pass == b.verifier.pass && a.failures == b.failures && a.normalized == b.normalized
  {
    hide AddsUp, TookTime, Described, CostOf, TokensOf, ValidEvidence, TimeBefore, FailuresOfVerdict, NormalForm, OneOnEach, TrueLabel, Canonical;
    AcceptedExactlyWhen(e, collate);
    AcceptedExactlyWhen(f, collate);
    var a, b := e.trace.iterations[k], f.trace.iterations[k];
    assert TrueIteration(a, k, TimeBefore(e.trace, k), e.rubric, collate);
    assert TrueIteration(b, k, TimeBefore(f.trace, k), f.rubric, collate);
    DistinctRubric(e);
    OnlyOneExplanation(a.failures, a.verifier.criteria, e.rubric);
    OnlyOneExplanation(b.failures, b.verifier.criteria, e.rubric);
    NormalFormsAgree(a.normalized, a.failures, collate);
    NormalFormsAgree(b.normalized, b.failures, collate);
  }

  lemma DistinctRubric(e: Evidence)
    requires Described(e)
    ensures forall i, j :: 0 <= i < j < |e.rubric| ==> e.rubric[i].id != e.rubric[j].id
  {
    hide Blank;
    var ids := Ids(e.rubric);
    forall i, j | 0 <= i < j < |e.rubric| ensures e.rubric[i].id != e.rubric[j].id { assert ids[i] != ids[j]; }
  }

  /** The same evidence with another result on one criterion of one iteration, and all else as it was. */
  function Retold(e: Evidence, k: nat, i: nat, r: CriterionResult): Evidence
    requires k < |e.trace.iterations| && i < |e.trace.iterations[k].verifier.criteria|
  {
    var it := e.trace.iterations[k];
    var told := it.(verifier := it.verifier.(criteria := it.verifier.criteria[i := r]));
    e.(trace := e.trace.(iterations := e.trace.iterations[k := told]))
  }

  /** No result can be turned round, no failure reworded and no criterion swapped for another behind the failures' back. */
  lemma AlteredResultIsCaught(e: Evidence, k: nat, i: nat, r: CriterionResult, collate: string -> string)
    requires ValidEvidence(e, collate) && k < |e.trace.iterations| && i < |e.trace.iterations[k].verifier.criteria|
    requires ValidEvidence(Retold(e, k, i, r), collate)
    ensures var was := e.trace.iterations[k].verifier.criteria[i];
            r.criterion == was.criterion && r.pass == was.pass && (!r.pass ==> r.observed == was.observed)
  {
    hide AddsUp, TookTime, CostOf, TokensOf, ValidEvidence, TimeBefore, FailuresOfVerdict, NormalForm, TrueLabel, Described, OneOnEach;
    var f := Retold(e, k, i, r);
    AcceptedExactlyWhen(e, collate);
    AcceptedExactlyWhen(f, collate);
    var a, b := e.trace.iterations[k], f.trace.iterations[k];
    assert TrueIteration(a, k, TimeBefore(e.trace, k), e.rubric, collate);
    assert TrueIteration(b, k, TimeBefore(f.trace, k), f.rubric, collate);
    DistinctRubric(e);
    SameName(a.verifier.criteria, i, r, e.rubric);
    OnlyOneExplanation(a.failures, a.verifier.criteria, e.rubric);
    OnlyOneExplanation(b.failures, b.verifier.criteria, e.rubric);
    SameResult(a.verifier.criteria, i, r, e.rubric);
  }

  /** The results name the same criteria, so a single one cannot change its name. */
  lemma SameName(rs: seq<CriterionResult>, i: nat, r: CriterionResult, rubric: seq<Criterion>)
    requires i < |rs| && OneOnEach(rs, rubric) && OneOnEach(rs[i := r], rubric)
    ensures r.criterion == rs[i].criterion
  {
    hide Blank;
    var a, b := Criteria(rs), Criteria(rs[i := r]);
    assert b == a[i := r.criterion];
    assert multiset(b) == multiset(a) - multiset{a[i]} + multiset{r.criterion};
    assert multiset(a)[a[i]] >= 1;
    assert multiset(b)[a[i]] == multiset(a)[a[i]] - 1 + multiset{r.criterion}[a[i]];
  }

  lemma {:induction false} SameResult(rs: seq<CriterionResult>, i: nat, r: CriterionResult, rubric: seq<Criterion>)
    requires i < |rs| && r.criterion == rs[i].criterion && FailuresOf(rs, rubric) == FailuresOf(rs[i := r], rubric)
    ensures r.pass == rs[i].pass && (!r.pass ==> r.observed == rs[i].observed)
    decreases |rs|
  {
    var n := |rs| - 1;
    var ts := rs[i := r];
    if i < n {
      assert ts[..n] == rs[..n][i := r] && ts[n] == rs[n];
      var a, b := FailuresOf(rs[..n], rubric), FailuresOf(ts[..n], rubric);
      if !rs[n].pass {
        var f := [StructuredFailure(rs[n].criterion, Expected(rubric, rs[n].criterion), rs[n].observed)];
        assert a == (a + f)[..|a|] && b == (b + f)[..|b|];
      }
      SameResult(rs[..n], i, r, rubric);
    } else {
      assert ts[..n] == rs[..n] && ts[n] == r;
      var a, b := FailuresOf(rs, rubric), FailuresOf(ts, rubric);
      assert !rs[n].pass ==> a[|a| - 1].observed == rs[n].observed;
      assert !r.pass ==> b[|b| - 1].observed == r.observed;
    }
  }

  /** A criterion left out, counted twice or made up is noticed. */
  lemma IncompleteVerdictIsRefused(e: Evidence, k: nat, collate: string -> string)
    requires k < |e.trace.iterations| && multiset(Criteria(e.trace.iterations[k].verifier.criteria)) != multiset(Ids(e.rubric))
    ensures !ValidEvidence(e, collate)
  {
    hide AddsUp, TookTime, CostOf, TokensOf, ValidEvidence, TimeBefore, FailuresOfVerdict, NormalForm, TrueLabel, Described;
    AcceptedExactlyWhen(e, collate);
  }

  /** The evidence without its last iteration. */
  function Shortened(e: Evidence): Evidence
    requires |e.trace.iterations| >= 2
  {
    e.(trace := e.trace.(iterations := e.trace.iterations[..|e.trace.iterations| - 1]))
  }

  /**
   The last iteration cannot be cut off, unless the one before it had passed already, the last one was
   free and without tokens, and it was not the only one with a seeded fault.
   */
  lemma ShortenedTraceIsCaughtUnless(e: Evidence, collate: string -> string)
    requires ValidEvidence(e, collate) && |e.trace.iterations| >= 2
    ensures var its := e.trace.iterations;
            var n := |its|;
            ValidEvidence(Shortened(e), collate) <==>
              && e.trace.stoppedBy == Verified && its[n - 2].verifier.pass
              && NoTokens(TokensOf([its[n - 1]]))
              && Abs(CostOf(its[..n - 1]) - e.trace.totalCost) <= TOLERANCE
              && TrueLabel(Shortened(e))
  {
    hide TrueIteration, Described, CostOf, TokensOf, ValidEvidence, TrueLabel;
    var its := e.trace.iterations;
    var n := |its|;
    var f := Shortened(e);
    AcceptedExactlyWhen(e, collate);
    AcceptedExactlyWhen(f, collate);
    ShortenedTotals(its);
    SameDescription(e, f);
    forall k | 0 <= k < n - 1 ensures f.trace.iterations[k] == its[k] && TimeBefore(f.trace, k) == TimeBefore(e.trace, k) {
    }
    assert TrueIteration(its[n - 1], n - 1, TimeBefore(e.trace, n - 1), e.rubric, collate);
    InTime(its[n - 1], n - 1, TimeBefore(e.trace, n - 1), e.rubric, collate);
  }

  lemma InTime(it: Iteration, k: nat, previous: int, rubric: seq<Criterion>, collate: string -> string)
    requires TrueIteration(it, k, previous, rubric, collate)
    ensures previous <= it.verifier.completedAt
  {
    hide AddsUp, TookTime, OneOnEach, FailuresOfVerdict, NormalForm;
  }

  lemma SameDescription(e: Evidence, f: Evidence)
    requires f == e.(trace := e.trace.(iterations := f.trace.iterations))
    ensures Described(f) <==> Described(e)
  {
  }

  lemma ShortenedTotals(its: seq<Iteration>)
    requires its != []
    ensures TokensOf(its) == TokensOf(its[..|its| - 1]) <==> NoTokens(TokensOf([its[|its| - 1]]))
  {
    hide TokensOf;
    var front, it := its[..|its| - 1], its[|its| - 1];
    assert its == front + [it] && [it] == [] + [it];
    PushIterationTotals(front, it);
    PushIterationTotals([], it);
    NothingYet();
  }
}
