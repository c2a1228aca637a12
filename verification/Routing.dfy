/** Which model serves a task: tiers, availability, escalation. */
module Routing {
  import opened Basics

  datatype ModelId = Fable | Mythos | Opus | Sonnet | Haiku | Other(name: string)

  predicate Registered(m: ModelId) { !m.Other? }

  datatype TaskClass =
    | Orchestration | Planning | RefusalSensitiveFrontier | HardSubtask | BulkWorker | Grader | Classifier

  datatype Tier = Cheap | Bulk | Frontier | Hard

  const GENERAL_AVAILABILITY := [Fable, Opus, Sonnet, Haiku]
  const DEESCALATION_AGREEMENT_RUNS := 3

  function BaseTier(c: TaskClass): Tier {
    match c
    case Orchestration => Frontier
    case Planning => Frontier
    case RefusalSensitiveFrontier => Frontier
    case HardSubtask => Hard
    case BulkWorker => Bulk
    case Grader => Cheap
    case Classifier => Cheap
  }

  function TierOrder(t: Tier): seq<ModelId> {
    match t
    case Cheap => [Haiku, Sonnet, Opus, Fable, Mythos]
    case Bulk => [Sonnet, Opus, Fable, Haiku, Mythos]
    case Frontier => [Fable, Mythos, Opus, Sonnet, Haiku]
    case Hard => [Mythos, Opus, Sonnet, Haiku]
  }

  function Rank(t: Tier): nat {
    match t case Cheap => 0 case Bulk => 1 case Frontier => 2 case Hard => 3
  }

  function Escalate(t: Tier): Tier {
    var next := if Rank(t) + 1 < Rank(Hard) then Rank(t) + 1 else Rank(Hard);
    if next == 0 then Cheap else if next == 1 then Bulk else if next == 2 then Frontier else Hard
  }

  function ModelTier(m: ModelId): Tier {
    match m case Haiku => Cheap case Sonnet => Bulk case Fable => Frontier case _ => Hard
  }

  datatype LastFailure =
    | NoFailure
    | Availability(available: Option<seq<ModelId>>)
    | VerifierFailure(available: Option<seq<ModelId>>)
    | GraderDisagreement(available: Option<seq<ModelId>>)
    | Refusal(model: ModelId, available: Option<seq<ModelId>>)
    | Agreement(runs: int, current: ModelId, available: Option<seq<ModelId>>)

  function Override(f: LastFailure): Option<seq<ModelId>> {
    if f.NoFailure? then None else f.available
  }

  /** `availability`: nothing listed or an unknown id throws. */
  function AvailableModels(override: Option<seq<ModelId>>): Option<seq<ModelId>> {
    var values := if override.Some? then override.value else GENERAL_AVAILABILITY;
    if values != [] && (forall m :: m in values ==> Registered(m)) then Some(values) else None
  }

  /** The first of `order` that is available. */
  function First(order: seq<ModelId>, available: seq<ModelId>): Option<ModelId> {
    if order == [] then None else if order[0] in available then Some(order[0]) else First(order[1..], available)
  }

  function Select(t: Tier, available: seq<ModelId>): Option<ModelId> {
    First(TierOrder(t), available)
  }

  /** The tier `route` settles on; `None` where it throws. */
  function TierFor(c: TaskClass, attempt: int, f: LastFailure): Option<Tier> {
    if attempt < 0 then None
    else
      match f
      case NoFailure => Some(BaseTier(c))
      case Availability(_) => Some(BaseTier(c))
      case Refusal(m, _) => if Registered(m) then Some(Hard) else None
      case GraderDisagreement(_) => Some(Escalate(BaseTier(c)))
      case VerifierFailure(_) => Some(if attempt >= 2 then Escalate(BaseTier(c)) else BaseTier(c))
      case Agreement(runs, current, _) =>
        if runs < 0 || !Registered(current) then None
        else Some(if runs >= DEESCALATION_AGREEMENT_RUNS then BaseTier(c) else ModelTier(current))
  }

  /** `route`; `None` where it throws. */
  function Route(c: TaskClass, attempt: int, f: LastFailure): Option<ModelId> {
    var available, tier := AvailableModels(Override(f)), TierFor(c, attempt, f);
    if available.None? || tier.None? then None else Select(tier.value, available.value)
  }

  lemma {:induction false} FirstHolds(order: seq<ModelId>, available: seq<ModelId>)
    ensures First(order, available).None? <==> forall m :: m in order ==> m !in available
    ensures First(order, available).Some? ==> First(order, available).value in order && First(order, available).value in available
  {
    if order != [] {
      FirstHolds(order[1..], available);
      assert order == [order[0]] + order[1..];
    }
  }

  lemma AvailableHolds(override: Option<seq<ModelId>>)
    requires AvailableModels(override).Some?
    ensures AvailableModels(override).value != []
    ensures forall m :: m in AvailableModels(override).value ==> Registered(m)
    ensures override.None? ==> Mythos !in AvailableModels(override).value
  {
  }

  /** A route is always one of the models the caller said are available; Mythos is never assumed to be. */
  lemma RouteIsAvailable(c: TaskClass, attempt: int, f: LastFailure)
    requires Route(c, attempt, f).Some?
    ensures var available := AvailableModels(Override(f)); available.Some? && Route(c, attempt, f).value in available.value
    ensures Registered(Route(c, attempt, f).value)
    ensures Override(f).None? ==> Route(c, attempt, f).value != Mythos
  {
    hide AvailableModels, First, TierFor;
    AvailableHolds(Override(f));
    FirstHolds(TierOrder(TierFor(c, attempt, f).value), AvailableModels(Override(f)).value);
  }

  lemma {:induction false} FirstIgnoresOrder(order: seq<ModelId>, a: seq<ModelId>, b: seq<ModelId>)
    requires forall m :: m in a <==> m in b
    ensures First(order, a) == First(order, b)
  {
    if order != [] { FirstIgnoresOrder(order[1..], a, b); }
  }

  function WithAvailable(f: LastFailure, available: seq<ModelId>): LastFailure {
    match f
    case NoFailure => NoFailure
    case Availability(_) => Availability(Some(available))
    case VerifierFailure(_) => VerifierFailure(Some(available))
    case GraderDisagreement(_) => GraderDisagreement(Some(available))
    case Refusal(m, _) => Refusal(m, Some(available))
    case Agreement(r, m, _) => Agreement(r, m, Some(available))
  }

  /** The order and repetition of the availability list never affect the route. */
  lemma AvailabilityOrderIrrelevant(c: TaskClass, attempt: int, f: LastFailure, a: seq<ModelId>, b: seq<ModelId>)
    requires forall m :: m in a <==> m in b
    ensures Route(c, attempt, WithAvailable(f, a)) == Route(c, attempt, WithAvailable(f, b))
  {
    hide First;
    var tier := TierFor(c, attempt, WithAvailable(f, a));
    if !f.NoFailure? && tier.Some? {
      FirstIgnoresOrder(TierOrder(tier.value), a, b);
      SameAvailability(a, b);
    }
  }

  lemma SameAvailability(a: seq<ModelId>, b: seq<ModelId>)
    requires forall m :: m in a <==> m in b
    ensures AvailableModels(Some(a)).None? <==> AvailableModels(Some(b)).None?
  {
    if a != [] { assert a[0] in b; }
    if b != [] { assert b[0] in a; }
  }

  lemma TierOrderHolds(t: Tier, m: ModelId)
    ensures m in TierOrder(t) <==> Registered(m) && !(t == Hard && m == Fable)
  {
    var order := TierOrder(t);
    assert order[0] in order && order[1] in order && order[2] in order && order[3] in order;
    assert |order| == 5 ==> order[4] in order;
  }

  /**
   A task that has a base route loses it on escalation exactly when it escalates to the hard tier,
   which leaves Fable out, and nothing but Fable is available.
   */
  lemma EscalationFailsExactlyWhen(c: TaskClass, available: Option<seq<ModelId>>)
    requires Route(c, 0, Availability(available)).Some?
    ensures Route(c, 2, VerifierFailure(available)).None? <==>
            Escalate(BaseTier(c)) == Hard && (forall m :: m in AvailableModels(available).value ==> m == Fable)
  {
    hide AvailableModels, First, TierOrder;
    var models := AvailableModels(available).value;
    AvailableHolds(available);
    FirstHolds(TierOrder(Escalate(BaseTier(c))), models);
    forall m: ModelId {
      TierOrderHolds(Escalate(BaseTier(c)), m);
    }
    assert models[0] in models;
  }

  // ---- Which model it is -------------------------------------------------------------------------

  /** How far down a tier's preferences a model stands; the hard tier has no place for Fable. */
  function Standing(t: Tier, m: ModelId): Option<nat> {
    match (t, m)
    case (Cheap, Haiku) => Some(0) case (Cheap, Sonnet) => Some(1) case (Cheap, Opus) => Some(2) case (Cheap, Fable) => Some(3) case (Cheap, Mythos) => Some(4)
    case (Bulk, Sonnet) => Some(0) case (Bulk, Opus) => Some(1) case (Bulk, Fable) => Some(2) case (Bulk, Haiku) => Some(3) case (Bulk, Mythos) => Some(4)
    case (Frontier, Fable) => Some(0) case (Frontier, Mythos) => Some(1) case (Frontier, Opus) => Some(2) case (Frontier, Sonnet) => Some(3) case (Frontier, Haiku) => Some(4)
    case (Hard, Mythos) => Some(0) case (Hard, Opus) => Some(1) case (Hard, Sonnet) => Some(2) case (Hard, Haiku) => Some(3)
    case _ => None
  }

  /** `m` is available and stands higher in the tier than everything else that is. */
  ghost predicate Preferred(t: Tier, available: seq<ModelId>, m: ModelId) {
    && m in available && Standing(t, m).Some?
    && forall o :: o in available && Standing(t, o).Some? ==> Standing(t, m).value <= Standing(t, o).value
  }

  lemma StandingIsPlace(t: Tier, m: ModelId)
    ensures Standing(t, m).Some? <==> m in TierOrder(t)
    ensures Standing(t, m).Some? ==> Standing(t, m).value < |TierOrder(t)| && TierOrder(t)[Standing(t, m).value] == m
  {
    TierOrderHolds(t, m);
  }

  lemma {:induction false} FirstIsFirst(order: seq<ModelId>, available: seq<ModelId>, k: nat)
    requires k < |order| && order[k] in available && forall i :: 0 <= i < k ==> order[i] !in available
    ensures First(order, available) == Some(order[k])
  {
    if k > 0 { FirstIsFirst(order[1..], available, k - 1); }
  }

  /** The model a tier selects is the preferred one of those available. */
  lemma SelectsThePreferred(t: Tier, available: seq<ModelId>, m: ModelId)
    ensures Select(t, available) == Some(m) <==> Preferred(t, available, m)
  {
    hide First, Standing, TierOrder;
    var order := TierOrder(t);
    forall x: ModelId { StandingIsPlace(t, x); }
    if Preferred(t, available, m) {
      forall i | 0 <= i < Standing(t, m).value ensures order[i] !in available {
        PlaceIsStanding(t, i);
      }
      FirstIsFirst(order, available, Standing(t, m).value);
    }
    if Select(t, available) == Some(m) {
      FirstHolds(order, available);
      forall o | o in available && Standing(t, o).Some? ensures Standing(t, m).value <= Standing(t, o).value {
        Before(t, available, m, o);
      }
    }
  }

  lemma PlaceIsStanding(t: Tier, i: nat)
    requires i < |TierOrder(t)|
    ensures Standing(t, TierOrder(t)[i]) == Some(i)
  {
  }

  lemma Before(t: Tier, available: seq<ModelId>, m: ModelId, o: ModelId)
    requires Select(t, available) == Some(m) && o in available && Standing(t, o).Some? && Standing(t, m).Some?
    ensures Standing(t, m).value <= Standing(t, o).value
  {
    hide First, Standing, TierOrder;
    var order := TierOrder(t);
    StandingIsPlace(t, o);
    StandingIsPlace(t, m);
    var k := FirstPlace(order, available, Standing(t, o).value);
    FirstIsFirst(order, available, k);
    PlaceIsStanding(t, k);
  }

  lemma FirstPlace(order: seq<ModelId>, available: seq<ModelId>, n: nat) returns (k: nat)
    requires n < |order| && order[n] in available
    ensures k <= n && order[k] in available && forall i :: 0 <= i < k ==> order[i] !in available
  {
    k := 0;
    while order[k] !in available
      invariant k <= n && forall i :: 0 <= i < k ==> order[i] !in available
      decreases n - k
    {
      k := k + 1;
    }
  }

  /**
   Which model a task gets: the preferred one of its class's tier, of one tier up after two failed
   verifications or a disagreement of graders, of the hard tier after a refusal, and of the tier of the
   model in use until three runs in a row have agreed.
   */
  lemma RouteIsPreferred(c: TaskClass, attempt: int, f: LastFailure, m: ModelId)
    ensures Route(c, attempt, f) == Some(m) <==>
            && AvailableModels(Override(f)).Some? && TierFor(c, attempt, f).Some?
            && Preferred(TierFor(c, attempt, f).value, AvailableModels(Override(f)).value, m)
  {
    hide AvailableModels, TierFor, Preferred, Select;
    if AvailableModels(Override(f)).Some? && TierFor(c, attempt, f).Some? {
      SelectsThePreferred(TierFor(c, attempt, f).value, AvailableModels(Override(f)).value, m);
    }
  }

  /** With the models everybody has, the routes are these, and these after two failed verifications. */
  lemma UsualRoutes(c: TaskClass)
    ensures Route(c, 0, NoFailure) == Some(
              match c case Grader => Haiku case Classifier => Haiku case BulkWorker => Sonnet case HardSubtask => Opus case _ => Fable)
    ensures Route(c, 1, VerifierFailure(None)) == Route(c, 0, NoFailure)
    ensures Route(c, 2, VerifierFailure(None)) == Some(
              match c case Grader => Sonnet case Classifier => Sonnet case BulkWorker => Fable case _ => Opus)
    ensures Route(c, 0, GraderDisagreement(None)) == Route(c, 2, VerifierFailure(None))
    ensures Route(c, 0, Refusal(Fable, None)) == Some(Opus)
    ensures Route(c, 0, Agreement(3, Opus, None)) == Route(c, 0, NoFailure) && Route(c, 0, Agreement(2, Opus, None)) == Some(Opus)
  {
    hide First, TierOrder, AvailableModels;
    UsualModels();
  }

  /** What each tier selects of the models everybody has. */
  lemma UsualModels()
    ensures var usual := AvailableModels(None);
            && usual.Some? && Select(Cheap, usual.value) == Some(Haiku) && Select(Bulk, usual.value) == Some(Sonnet)
            && Select(Frontier, usual.value) == Some(Fable) && Select(Hard, usual.value) == Some(Opus)
  {
    hide First;
    var usual := GENERAL_AVAILABILITY;
    assert usual[0] == Fable && usual[1] == Opus && usual[2] == Sonnet && usual[3] == Haiku;
    FirstIsFirst(TierOrder(Cheap), usual, 0);
    FirstIsFirst(TierOrder(Bulk), usual, 0);
    FirstIsFirst(TierOrder(Frontier), usual, 0);
    FirstIsFirst(TierOrder(Hard), usual, 1);
  }
}
