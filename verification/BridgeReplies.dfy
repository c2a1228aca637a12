/**
 Everything a client is ever told, event by event: the answers of the executor to its own requests,
 and the few errors the bridge makes up itself, each with its reason.

 Line numbers refer to apps/dc-mcp-gateway/bridge.js.
 */
module BridgeReplies {
  import opened Basics
  import opened BridgeState
  import opened BridgeInvariant
  import opened BridgeSafety

  /** The challenge the answer to this call has to echo. */
  ghost function Expected(s: State, u: Uid): Option<Challenge>
    requires u in s.issued
  {
    if s.issued[u].initialize && s.issued[u].session in s.initOf then s.initOf[s.issued[u].session].challenge else None
  }

  ghost function To(s: State, u: Uid, reply: Reply): seq<Delivery>
    requires u in s.issued
  {
    [Delivery(s.issued[u].session, s.issued[u].downstreamId, u, reply)]
  }

  /** What an event makes the bridge say to a client. */
  ghost function SaidIn(s: State, e: Event): seq<Delivery>
    requires Enabled(s, e)
  {
    match e
    case InitializeArrives(i, id, u, carried, setup) =>
      if !s.sessions[i].closed && s.sessions[i].gen == s.current && id !in s.sessions[i].pending
         && s.managedDc && carried.None? && !setup.CanIssue?
      then [Delivery(i, id, u, SetupError)] else []
    case BootstrapIssued(u, challenge) => if u in s.issued && challenge.None? then To(s, u, SetupError) else []
    case InitializeTimesOut(g) =>
      var u := s.chains[g][0];
      if u in s.routes && u in s.issued then To(s, u, TimeoutError) else []
    case ExecutorResponds(g, u, response) =>
      if u in s.expired[g] || u !in s.routes || s.routes[u].gen != g || u !in s.issued then []
      else if Expected(s, u).Some? && response.proof != Expected(s, u) then To(s, u, IdentityError)
      else if s.routes[u].initialize && s.routes[u].bootstrap then []
      else To(s, u, Answer(response))
    case BootstrapCompleted(u, ok) =>
      if u !in s.issued then []
      else To(s, u, if ok then Answer(s.inflight[u].task.response) else BootstrapError)
    case _ => []
  }

  /** The expired ids after an event: a timed-out initialize joins them, an answer to one of them leaves. */
  ghost function ExpiredIn(s: State, e: Event): seq<seq<Uid>>
    requires Enabled(s, e)
  {
    match e
    case InitializeTimesOut(g) =>
      if s.chains[g][0] in s.routes then s.expired[g := AddExpired(s.expired[g], s.chains[g][0])] else s.expired
    case ExecutorResponds(g, u, _) => if u in s.expired[g] then s.expired[g := Without(s.expired[g], u)] else s.expired
    case ExecutorCloses(g) => if g == s.current && !s.stopping then s.expired + [[]] else s.expired
    case _ => s.expired
  }

  ghost function Said(s: State, es: seq<Event>): seq<Delivery>
    requires IsRun(s, es)
    decreases |es|
  {
    if es == [] then [] else SaidIn(s, es[0]) + Said(Step(s, es[0]), es[1..])
  }

  // ---- Only delivering delivers ------------------------------------------------------------------

  /** Nothing was said, and no id expired or came back. */
  ghost predicate Mute(s: State, t: State) {
    t.deliveries == s.deliveries && t.expired == s.expired
  }

  lemma TablesAreMute()
    ensures forall s: State, g: nat :: Mute(s, FailClosed(s, g))
    ensures forall s: State :: Mute(s, Fault(s)) && Respawn(s).deliveries == s.deliveries && Respawn(s).expired == s.expired + [[]]
    ensures forall s: State, u, r: Route :: Mute(s, Report(s, u, r)) && Mute(s, IssueRequest(s, u, r))
    ensures forall s: State, x :: Mute(s, AddSend(s, x))
    ensures forall s: State, k: nat | k < |s.waiting| :: Mute(s, Dequeue(s, k))
    ensures forall s: State, u, x :: Mute(s, AddResponse(s, u, x))
    ensures forall s: State, u :: Mute(s, EndJob(s, u))
    ensures forall s: State, u, reports, lost :: Mute(s, FinishJob(s, u, reports, lost))
    ensures forall s: State, u, r: Route, task :: Mute(s, StartJob(s, u, r, task))
  {
    hide FaultedSessions, GovernedOf, RoutesElsewhere;
  }

  lemma SessionsAreMute()
    ensures forall s: State, i: nat, v | i < |s.sessions| :: Mute(s, ResolveIn(s, i, v))
    ensures forall s: State, i: nat | i < |s.sessions| :: Mute(s, CloseIn(s, i))
    ensures forall s: State, u, r: Route | r.session < |s.sessions| :: Mute(s, DropRoute(s, u, r))
    ensures forall s: State, u, r: Route | r.session < |s.sessions| :: Mute(s, InstallRoute(s, u, r))
    ensures forall s: State, u, r: Route, x | r.session < |s.sessions| :: Mute(s, Accept(s, u, r, x))
    ensures forall s: State, u, r: Route, task | r.session < |s.sessions| :: Mute(s, TakeRoute(s, u, r, task))
    ensures forall s: State, u, r: Route | r.session < |s.sessions| :: Mute(s, Admit(s, u, r))
  {
  }

  lemma TurnsAreMute()
    ensures forall s: State, g: nat, u | g < |s.expired| ::
              Expire(s, g, u).deliveries == s.deliveries && Expire(s, g, u).expired == s.expired[g := AddExpired(s.expired[g], u)]
    ensures forall s: State, g: nat, u | g < |s.expired| ::
              Unexpire(s, g, u).deliveries == s.deliveries && Unexpire(s, g, u).expired == s.expired[g := Without(s.expired[g], u)]
    ensures forall s: State, u, r: Route | r.gen < |s.chains| :: Mute(s, Enqueue(s, u, r))
    ensures forall s: State, g: nat | g < |s.chains| && |s.chains[g]| > 0 :: Mute(s, PopTurn(s, g))
    ensures forall s: State, u, stage | u in s.turns :: Mute(s, SetStage(s, u, stage))
  {
  }

  /** What the inner states have of these tables is what the outer ones have. */
  lemma InnerTables()
    ensures forall s: State, u, r: Route | r.session < |s.sessions| ::
              InstallRoute(s, u, r).turns == s.turns && DropRoute(s, u, r).chains == s.chains && Admit(s, u, r).chains == s.chains
    ensures forall s: State, u, r: Route, task | r.session < |s.sessions| ::
              TakeRoute(s, u, r, task).turns == s.turns && TakeRoute(s, u, r, task).expired == s.expired
    ensures forall s: State, u, stage | u in s.turns :: SetStage(s, u, stage).expired == s.expired
    ensures forall s: State, u :: EndJob(s, u).chains == s.chains
  {
  }

  lemma InitializeSays(s: State, i: Sid, id: RpcId, u: Uid, carried: Option<Challenge>, setup: Setup)
    requires Enabled(s, InitializeArrives(i, id, u, carried, setup))
    ensures OnInitializeArrives(s, i, id, u, carried, setup).deliveries
         == s.deliveries + SaidIn(s, InitializeArrives(i, id, u, carried, setup))
    ensures OnInitializeArrives(s, i, id, u, carried, setup).expired == s.expired
  {
    hide FailClosed, StartJob, Enqueue, Admit;
    TablesAreMute();
    SessionsAreMute();
    TurnsAreMute();
    InnerTables();
  }

  lemma BootstrapSays(s: State, e: Event)
    requires Enabled(s, e) && (e.BootstrapIssued? || e.BootstrapCompleted?)
    requires Invariant(s)
    ensures Step(s, e).deliveries == s.deliveries + SaidIn(s, e) && Step(s, e).expired == s.expired
  {
    hide Invariant, StartJob, EndJob, Enqueue;
    TablesAreMute();
    TurnsAreMute();
    InnerTables();
    JobFacts(s, e.uid);
  }

  lemma TimeoutSays(s: State, g: nat)
    requires Enabled(s, InitializeTimesOut(g))
    requires Invariant(s)
    ensures OnInitializeTimesOut(s, g).deliveries == s.deliveries + SaidIn(s, InitializeTimesOut(g))
    ensures OnInitializeTimesOut(s, g).expired == ExpiredIn(s, InitializeTimesOut(g))
  {
    hide Invariant, PopTurn, SetStage, TakeRoute, Expire;
    TablesAreMute();
    SessionsAreMute();
    TurnsAreMute();
    InnerTables();
    TurnFacts(s, s.chains[g][0]);
  }

  lemma AnswerSays(s: State, u: Uid, response: Response)
    requires u in s.routes && s.routes[u].session < |s.sessions|
    requires Invariant(s)
    ensures u in s.issued && AnswerRoute(s, u, s.routes[u], response).expired == s.expired
    ensures AnswerRoute(s, u, s.routes[u], response).deliveries == s.deliveries +
      if Expected(s, u).Some? && response.proof != Expected(s, u) then To(s, u, IdentityError)
      else if s.routes[u].initialize && s.routes[u].bootstrap then []
      else To(s, u, Answer(response))
  {
    hide Invariant, TakeRoute, AddResponse, DropRoute, ResolveIn;
    TablesAreMute();
    SessionsAreMute();
    RouteFacts(s, u);
    assert s.deliveries + [] == s.deliveries;
  }

  lemma ResponseSays(s: State, g: nat, u: Uid, response: Response)
    requires Enabled(s, ExecutorResponds(g, u, response))
    requires Invariant(s)
    ensures OnExecutorResponds(s, g, u, response).deliveries == s.deliveries + SaidIn(s, ExecutorResponds(g, u, response))
    ensures OnExecutorResponds(s, g, u, response).expired == ExpiredIn(s, ExecutorResponds(g, u, response))
  {
    hide Invariant, FailClosed, Unexpire, AnswerRoute, SentTo, Expected, To;
    TablesAreMute();
    TurnsAreMute();
    if u in s.routes { AnswerSays(s, u, response); }
  }

  lemma SettlingSaysNothing(s: State, u: Uid, ok: bool)
    requires Enabled(s, SendSettles(u, ok))
    ensures Mute(s, OnSendSettles(s, u, ok))
  {
    hide FailClosed, ResolveIn, EndJob, FinishJob, Accept, CloseIn, Fault;
    TablesAreMute();
    SessionsAreMute();
  }

  lemma ForwardingSaysNothing(s: State, k: nat, u: Uid, ok: bool)
    requires Enabled(s, ForwardResumes(k, u, ok))
    ensures Mute(s, OnForwardResumes(s, k, u, ok))
  {
    hide FailClosed, Dequeue, InstallRoute, IssueRequest, AddSend, Report, Fault;
    TablesAreMute();
    SessionsAreMute();
  }

  lemma TurnsSayNothing(s: State, e: Event)
    requires Enabled(s, e) && (e.TurnStarts? || e.TurnSends? || e.TurnEnds?)
    ensures Mute(s, Step(s, e))
  {
    hide ResolveIn, DropRoute, InstallRoute, AddSend, Fault, PopTurn, SetStage;
    TablesAreMute();
    SessionsAreMute();
    TurnsAreMute();
    InnerTables();
  }

  lemma SaidStepwise(s: State, e: Event)
    requires Enabled(s, e)
    requires Invariant(s)
    ensures Step(s, e).deliveries == s.deliveries + SaidIn(s, e)
    ensures Step(s, e).expired == ExpiredIn(s, e)
  {
    hide Invariant, FailClosed, Respawn, PopTurn, OnConnect, OnInitializeArrives, OnBootstrapIssued, OnTurnStarts, OnTurnSends,
         OnInitializeTimesOut, OnMessageArrives, OnForwardResumes, OnExecutorResponds, OnBootstrapCompleted, OnSendSettles,
         OnClientCloses, OnExecutorCloses, To, Expected;
    assert s.deliveries + [] == s.deliveries;
    match e
    case InitializeArrives(i, id, u, carried, setup) => InitializeSays(s, i, id, u, carried, setup);
    case BootstrapIssued(_, _) => BootstrapSays(s, e);
    case BootstrapCompleted(_, _) => BootstrapSays(s, e);
    case InitializeTimesOut(g) => TimeoutSays(s, g);
    case ExecutorResponds(g, u, response) => ResponseSays(s, g, u, response);
    case SendSettles(u, ok) => SettlingSaysNothing(s, u, ok);
    case ForwardResumes(k, u, ok) => ForwardingSaysNothing(s, k, u, ok);
    case TurnStarts(_) => TurnsSayNothing(s, e);
    case TurnSends(_, _) => TurnsSayNothing(s, e);
    case TurnEnds(_) => TurnsSayNothing(s, e);
    case ExecutorCloses(g) => LosingSaysNothing(s, g);
    case _ => OthersSayNothing(s, e);
  }

  lemma LosingSaysNothing(s: State, g: nat)
    ensures OnExecutorCloses(s, g).deliveries == s.deliveries
    ensures OnExecutorCloses(s, g).expired == if g == s.current && !s.stopping then s.expired + [[]] else s.expired
  {
    hide FailClosed, Respawn;
    TablesAreMute();
  }

  lemma OthersSayNothing(s: State, e: Event)
    requires Enabled(s, e)
    requires e.Connect? || e.MessageArrives? || e.ExecutorRequests? || e.ClientCloses? || e.ForwardFaults? || e.ShutsDown?
    ensures Mute(s, Step(s, e))
  {
    hide FailClosed, OnClientCloses, OnMessageArrives, OnConnect;
    TablesAreMute();
    match e
    case ClientCloses(i) => ClosingSaysNothing(s, i);
    case MessageArrives(i, m) => ArrivingSaysNothing(s, i, m);
    case Connect => ConnectingSaysNothing(s);
    case _ =>
  }

  lemma ClosingSaysNothing(s: State, i: Sid)
    requires i < |s.sessions|
    ensures Mute(s, OnClientCloses(s, i))
  {
    hide PendingRoutes, CloseSession;
  }

  lemma ArrivingSaysNothing(s: State, i: Sid, m: Message)
    requires i < |s.sessions|
    ensures Mute(s, OnMessageArrives(s, i, m))
  {
    hide FailClosed;
    TablesAreMute();
  }

  lemma ConnectingSaysNothing(s: State)
    ensures Mute(s, OnConnect(s))
  {
  }

  lemma {:induction false} SaidOverRuns(s: State, es: seq<Event>)
    requires Invariant(s) && IsRun(s, es)
    ensures After(s, es).deliveries == s.deliveries + Said(s, es)
    decreases |es|
  {
    hide Invariant, Step, Enabled, SaidIn;
    if es != [] {
      StepKeeps(s, es[0]);
      SaidStepwise(s, es[0]);
      SaidOverRuns(Step(s, es[0]), es[1..]);
    }
  }

  /**
   From start-up, over any run, the clients are told exactly this, in this order: the executor's answer
   to a routed request, unless it fails to echo the challenge of that session's initialize, and after
   the bootstrap the bridge issued for it was completed; and errors for a challenge that cannot be
   had, a bootstrap that fails, an initialize that takes too long and an identity that does not match.
   */
  lemma RepliesAreTheAnswers(managedDc: bool, es: seq<Event>)
    requires IsRun(Initial(managedDc), es)
    ensures After(Initial(managedDc), es).deliveries == Said(Initial(managedDc), es)
  {
    hide Invariant;
    InitialInvariant(managedDc);
    SaidOverRuns(Initial(managedDc), es);
  }

  // ---- Late answers ------------------------------------------------------------------------------

  /** `u` is among the expired ids, with at most `n` younger ones. */
  ghost predicate Remembered(xs: seq<Uid>, u: Uid, n: nat) {
    exists k :: 0 <= k < |xs| && xs[k] == u && |xs| - 1 - k <= n
  }

  lemma AddingRemembers(xs: seq<Uid>, u: Uid, v: Uid, n: nat)
    requires |xs| <= MAX_EXPIRED
    ensures v !in xs ==> Remembered(AddExpired(xs, v), v, 0)
    ensures Remembered(xs, u, n) && n + 1 < MAX_EXPIRED ==> Remembered(AddExpired(xs, v), u, n + 1)
  {
    var ys := if v in xs then xs else xs + [v];
    var zs := AddExpired(xs, v);
    if v !in xs { assert zs[|zs| - 1] == v; }
    if Remembered(xs, u, n) && n + 1 < MAX_EXPIRED {
      var k :| 0 <= k < |xs| && xs[k] == u && |xs| - 1 - k <= n;
      assert ys[k] == u;
      if |ys| > MAX_EXPIRED { assert zs[k - 1] == ys[k]; } else { assert zs[k] == u; }
    }
  }

  lemma {:induction false} RemovingRemembers(xs: seq<Uid>, u: Uid, v: Uid, n: nat)
    requires Remembered(xs, u, n) && u != v
    ensures Remembered(Without(xs, v), u, n)
    decreases |xs|
  {
    var k :| 0 <= k < |xs| && xs[k] == u && |xs| - 1 - k <= n;
    var rest := Without(xs[1..], v);
    if k == 0 {
      assert Without(xs, v) == [u] + rest && |rest| <= |xs| - 1;
      assert Without(xs, v)[0] == u;
    } else {
      assert xs[1..][k - 1] == u;
      RemovingRemembers(xs[1..], u, v, n);
      var j :| 0 <= j < |rest| && rest[j] == u && |rest| - 1 - j <= n;
      if xs[0] != v { assert ([xs[0]] + rest)[j + 1] == u; }
    }
  }

  /** The initializes of executor `g` that time out. */
  function Timeouts(es: seq<Event>, g: nat): nat {
    if es == [] then 0 else (if es[0] == InitializeTimesOut(g) then 1 else 0) + Timeouts(es[1..], g)
  }

  predicate Silent(es: seq<Event>, g: nat, u: Uid) {
    forall e :: e in es ==> !(e.ExecutorResponds? && e.gen == g && e.uid == u)
  }

  lemma RememberedStepwise(s: State, e: Event, g: nat, u: Uid, n: nat)
    requires Enabled(s, e) && g < |s.expired| && Remembered(s.expired[g], u, n) && n + 1 < MAX_EXPIRED
    requires Invariant(s)
    requires !(e.ExecutorResponds? && e.gen == g && e.uid == u)
    ensures g < |Step(s, e).expired|
    ensures Remembered(Step(s, e).expired[g], u, if e == InitializeTimesOut(g) then n + 1 else n)
  {
    hide Invariant, Step, Remembered, AddExpired, Without, SaidIn;
    SaidStepwise(s, e);
    BoundedExpired(s, g);
    match e
    case InitializeTimesOut(h) =>
      AddingRemembers(s.expired[g], u, s.chains[h][0], n);
      MoreMayBe(s.expired[g], u, n);
    case ExecutorResponds(h, v, _) => if v != u { RemovingRemembers(s.expired[g], u, v, n); }
    case _ =>
  }

  lemma MoreMayBe(xs: seq<Uid>, u: Uid, n: nat)
    requires Remembered(xs, u, n)
    ensures Remembered(xs, u, n + 1)
  {
  }

  lemma BoundedExpired(s: State, g: nat)
    requires Invariant(s) && g < |s.expired|
    ensures |s.expired[g]| <= MAX_EXPIRED
  {
    hide Shape, SessionsOk, TicketsOk, PromisesOk, RoutesOk, OwnersOk, PendingOk, PendingNamed, TurnsOk,
         StagesOk, ChainsOk, HeadOk, JobsOk, JobsApart, UnsentOk, UndeliveredOk, DeliveriesOk, ReportsOk,
         SendsOk, AcceptedOk, WaitingOk;
  }

  lemma {:induction false} RememberedOverRuns(s: State, es: seq<Event>, g: nat, u: Uid, n: nat)
    requires Invariant(s) && IsRun(s, es) && g < |s.expired| && Remembered(s.expired[g], u, n)
    requires Silent(es, g, u) && n + Timeouts(es, g) < MAX_EXPIRED
    ensures g < |After(s, es).expired| && u in After(s, es).expired[g]
    decreases |es|
  {
    hide Invariant, Step, Enabled, Remembered;
    if es == [] {
      RememberedIsIn(s.expired[g], u, n);
    } else {
      assert es[0] in es;
      assert Silent(es[1..], g, u);
      StepKeeps(s, es[0]);
      if n + 1 < MAX_EXPIRED {
        RememberedStepwise(s, es[0], g, u, n);
        RememberedOverRuns(Step(s, es[0]), es[1..], g, u, if es[0] == InitializeTimesOut(g) then n + 1 else n);
      } else {
        QuietlyRemembered(s, es[0], g, u, n);
        RememberedOverRuns(Step(s, es[0]), es[1..], g, u, n);
      }
    }
  }

  lemma QuietlyRemembered(s: State, e: Event, g: nat, u: Uid, n: nat)
    requires Enabled(s, e) && g < |s.expired| && Remembered(s.expired[g], u, n) && e != InitializeTimesOut(g)
    requires Invariant(s)
    requires !(e.ExecutorResponds? && e.gen == g && e.uid == u)
    ensures g < |Step(s, e).expired| && Remembered(Step(s, e).expired[g], u, n)
  {
    hide Invariant, Step, Remembered, AddExpired, Without, SaidIn;
    SaidStepwise(s, e);
    if e.ExecutorResponds? && e.uid != u { RemovingRemembers(s.expired[g], u, e.uid, n); }
  }

  lemma RememberedIsIn(xs: seq<Uid>, u: Uid, n: nat)
    requires Remembered(xs, u, n)
    ensures u in xs
  {
  }

  /**
   A late answer to an initialize that timed out is dropped, not taken for an intruder's: whatever has
   happened since, as long as fewer than 256 initializes of that executor timed out after it, the first
   answer to it says nothing to anybody and changes nothing but the list of such ids.
   */
  lemma LateAnswerIsDropped(s: State, g: nat, v: Uid, es: seq<Event>, t: State, response: Response)
    requires Reachable(s) && Enabled(s, InitializeTimesOut(g)) && v in s.routes && s.chains[g][0] == v
    requires IsRun(Step(s, InitializeTimesOut(g)), es) && Silent(es, g, v) && Timeouts(es, g) < MAX_EXPIRED
    requires t == After(Step(s, InitializeTimesOut(g)), es) && Enabled(t, ExecutorResponds(g, v, response))
    ensures Step(t, ExecutorResponds(g, v, response)).(expired := t.expired) == t
  {
    hide Invariant, Step, Remembered, AddExpired, SaidIn, Silent, After, IsRun, SentTo;
    TimedOutIsRemembered(s, g);
    ReachableInvariant(s);
    StepKeeps(s, InitializeTimesOut(g));
    RememberedOverRuns(Step(s, InitializeTimesOut(g)), es, g, v, 0);
    DroppedAnswer(t, g, v, response);
  }

  lemma TimedOutIsRemembered(s: State, g: nat)
    requires Reachable(s) && Enabled(s, InitializeTimesOut(g)) && s.chains[g][0] in s.routes
    ensures var t := Step(s, InitializeTimesOut(g)); g < |t.expired| && Remembered(t.expired[g], s.chains[g][0], 0)
  {
    hide Invariant, Step, Remembered, AddExpired, SaidIn;
    var v := s.chains[g][0];
    ReachableInvariant(s);
    SaidStepwise(s, InitializeTimesOut(g));
    RoutedNotExpired(s, g, v);
    BoundedExpired(s, g);
    AddingRemembers(s.expired[g], v, v, 0);
  }

  lemma RoutedNotExpired(s: State, g: nat, u: Uid)
    requires Invariant(s) && g < |s.expired| && u in s.routes
    ensures u !in s.expired[g]
  {
    hide Shape, SessionsOk, TicketsOk, PromisesOk, RoutesOk, OwnersOk, PendingOk, PendingNamed, TurnsOk,
         StagesOk, ChainsOk, HeadOk, JobsOk, JobsApart, UnsentOk, UndeliveredOk, DeliveriesOk, ReportsOk,
         SendsOk, AcceptedOk, WaitingOk;
  }

  lemma DroppedAnswer(t: State, g: nat, u: Uid, response: Response)
    requires Enabled(t, ExecutorResponds(g, u, response)) && u in t.expired[g]
    ensures Step(t, ExecutorResponds(g, u, response)).(expired := t.expired) == t
  {
    hide SentTo;
  }
}
