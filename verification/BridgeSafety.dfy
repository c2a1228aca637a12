/**
 Every event keeps the invariant, so every run of the multiplexer is safe.

 Line numbers refer to apps/dc-mcp-gateway/bridge.js.
 */
module BridgeSafety {
  import opened Basics
  import opened BridgeState
  import opened BridgeInvariant

  // ---- What the invariant says about one id or one session --------------------------------------

  lemma OpenIsCurrent(s: State, i: Sid)
    requires Invariant(s) && i < |s.sessions|
    ensures !s.sessions[i].closed ==> s.sessions[i].gen == s.current && s.sessions[i].listed
    ensures |s.chains| == |s.expired| == s.current + 1 && s.sessions[i].gen < |s.chains|
  {
    hide TicketsOk, PromisesOk, RoutesOk, OwnersOk, PendingOk, PendingNamed, ExpiredOk, TurnsOk, StagesOk,
         ChainsOk, HeadOk, JobsOk, JobsApart, UnsentOk, UndeliveredOk, DeliveriesOk, ReportsOk, SendsOk,
         AcceptedOk, WaitingOk;
  }

  lemma RouteFacts(s: State, u: Uid)
    requires Invariant(s) && u in s.routes
    ensures var r := s.routes[u];
      && Names(s.issued, u, r) && Armed(s.managedDc, s.initOf, r) && Owned(s.sessions, u, r) && MayDrop(s, u, r)
      && u !in s.inflight && NeverDelivered(s.deliveries, u)
      && (u in s.turns ==> !s.turns[u].stage.Queued?)
  {
    hide Shape, SessionsOk, TicketsOk, PromisesOk, PendingOk, PendingNamed, ExpiredOk, TurnsOk, ChainsOk,
         HeadOk, JobsOk, UnsentOk, DeliveriesOk, ReportsOk, SendsOk, AcceptedOk, WaitingOk;
    TurnsHaveSessions(s);
  }

  lemma JobFacts(s: State, u: Uid)
    requires Invariant(s) && u in s.inflight
    ensures var Job(r, task) := s.inflight[u];
      && JobOk(s.managedDc, u, s.inflight[u], s.issued, s.initOf, s.responses) && u !in s.routes
      && (u in s.turns ==> !s.turns[u].stage.Queued? && !task.Issuing?)
      && (task.Issuing? ==> Unseen(s.sends, s.expired, u))
      && (task.Issuing? || task.Completing? ==> NeverDelivered(s.deliveries, u))
  {
    hide Shape, SessionsOk, TicketsOk, PromisesOk, RoutesOk, OwnersOk, PendingOk, PendingNamed, ExpiredOk,
         TurnsOk, ChainsOk, HeadOk, DeliveriesOk, ReportsOk, SendsOk, AcceptedOk, WaitingOk;
    TurnsHaveSessions(s);
  }

  lemma JobOwner(s: State, u: Uid)
    requires Invariant(s) && u in s.inflight && s.inflight[u].route.initialize
    ensures var i := s.inflight[u].route.session;
      && i < |s.sessions| && i in s.initOf && s.initOf[i].uid == u && i !in s.accepted
      && !s.inflight[u].route.governed && !s.sessions[i].upstreamInitialized
      && (s.inflight[u].task.Issuing? && !s.sessions[i].closed ==> s.sessions[i].promise.Unsettled?)
  {
    hide Shape, SessionsOk, TicketsOk, RoutesOk, OwnersOk, PendingOk, PendingNamed, ExpiredOk, TurnsOk,
         StagesOk, ChainsOk, HeadOk, JobsOk, JobsApart, UnsentOk, UndeliveredOk, DeliveriesOk, ReportsOk,
         SendsOk, AcceptedOk, WaitingOk;
    JobFacts(s, u);
    InitializeIsUnique(s, u, s.inflight[u].route);
  }

  lemma TurnFacts(s: State, u: Uid)
    requires Invariant(s) && u in s.turns
    ensures var Turn(r, stage) := s.turns[u];
      && Names(s.issued, u, r) && r.initialize && Armed(s.managedDc, s.initOf, r)
      && r.session < |s.sessions| && r.gen == s.sessions[r.session].gen
      && r.session in s.initOf && s.initOf[r.session].uid == u && !r.governed
      && (stage.Queued? ==> u !in s.routes && u !in s.inflight)
      && (stage.Starting? && !s.sessions[r.session].closed ==> u in s.routes)
      && (u in s.inflight ==> !s.inflight[u].task.Issuing?)
      && (stage.Queued? || stage.Starting? ==> Unseen(s.sends, s.expired, u))
  {
    hide Shape, SessionsOk, TicketsOk, PromisesOk, RoutesOk, OwnersOk, PendingOk, PendingNamed, ExpiredOk,
         ChainsOk, HeadOk, JobsOk, UndeliveredOk, DeliveriesOk, ReportsOk, SendsOk, AcceptedOk, WaitingOk;
    InitializeIsUnique(s, u, s.turns[u].route);
  }

  lemma ClosedOwnsNothing(s: State, u: Uid, i: Sid)
    requires Invariant(s) && u in s.routes && i < |s.sessions| && s.sessions[i].closed
    ensures s.routes[u].session != i
  {
    RouteFacts(s, u);
  }

  /** A session suspended in its own initialize has no request on the wire. */
  lemma SuspendedOwnsNothing(s: State, u: Uid, v: Uid)
    requires Invariant(s) && u in s.inflight && s.inflight[u].route.initialize && v in s.routes
    ensures s.routes[v].session != s.inflight[u].route.session
  {
    hide Invariant;
    JobOwner(s, u);
    JobFacts(s, u);
    RouteFacts(s, v);
    InitializeIsUnique(s, v, s.routes[v]);
  }

  // ---- Events -----------------------------------------------------------------------------------

  lemma InitializeArrivesKeeps(s: State, i: Sid, id: RpcId, u: Uid, carried: Option<Challenge>, setup: Setup)
    requires Invariant(s) && Enabled(s, InitializeArrives(i, id, u, carried, setup))
    ensures Invariant(OnInitializeArrives(s, i, id, u, carried, setup))
  {
    hide Invariant;
    if Live(s, i, s.current) {
      if id in s.sessions[i].pending {
        FailClosedKeeps(s, s.current);
      } else {
        var r := Route(s.sessions[i].gen, i, id, true, false, carried, false);
        AbsentHasNoInitialize(s, i);
        FreshIsNowhere(s, u);
        AdmitKeeps(s, u, r);
        var t := Admit(s, u, r);
        if s.managedDc && carried.None? {
          if setup.CanIssue? {
            StartJobKeeps(t, u, r, Issuing);
          } else {
            StartJobKeeps(t, u, r, RefusingSetup);
            DeliverKeeps(StartJob(t, u, r, RefusingSetup), u, r, SetupError);
          }
        } else {
          EnqueueKeeps(t, u, r);
        }
      }
    }
  }

  lemma BootstrapIssuedKeeps(s: State, u: Uid, challenge: Option<Challenge>)
    requires Invariant(s) && Enabled(s, BootstrapIssued(u, challenge))
    ensures Invariant(OnBootstrapIssued(s, u, challenge))
  {
    hide Invariant;
    var r := s.inflight[u].route;
    JobFacts(s, u);
    JobOwner(s, u);
    if challenge.None? {
      StartJobKeeps(s, u, r, RefusingSetup);
      DeliverKeeps(StartJob(s, u, r, RefusingSetup), u, r, SetupError);
    } else {
      EndJobKeeps(s, u, s.reports, s.lost);
      var t := EndJob(s, u);
      assert t == FinishJob(s, u, s.reports, s.lost);
      RechallengeKeeps(t, u, challenge);
      EnqueueKeeps(t.(initOf := t.initOf[r.session := Initialize(u, challenge)]), u,
                   r.(challenge := challenge, bootstrap := true));
    }
  }

  lemma TurnStartsKeeps(s: State, g: nat)
    requires Invariant(s) && Enabled(s, TurnStarts(g))
    ensures Invariant(OnTurnStarts(s, g))
  {
    hide Invariant;
    var u := s.chains[g][0];
    TurnFacts(s, u);
    if Live(s, s.turns[u].route.session, g) {
      BeginKeeps(s, g);
    } else {
      PopKeeps(s, g);
      ResolveKeeps(PopTurn(s, g), s.turns[u].route.session);
    }
  }

  lemma TurnSendsKeeps(s: State, g: nat, ok: bool)
    requires Invariant(s) && Enabled(s, TurnSends(g, ok))
    ensures Invariant(OnTurnSends(s, g, ok))
  {
    hide Invariant;
    var u := s.chains[g][0];
    var r := s.turns[u].route;
    TurnFacts(s, u);
    if !Live(s, r.session, g) {
      StaleTurnKeeps(s, g);
    } else if ok {
      SendTurnKeeps(s, g);
    } else {
      AbortKeeps(s, g);
      ResolveKeeps(Abort(s, g), r.session);
      FaultCounts(ResolveIn(Abort(s, g), r.session, false));
    }
  }

  lemma StaleTurnKeeps(s: State, g: nat)
    requires Invariant(s) && Enabled(s, TurnSends(g, true)) && !Live(s, HeadTurn(s, g).route.session, g)
    ensures Invariant(OnTurnSends(s, g, true)) && OnTurnSends(s, g, true) == OnTurnSends(s, g, false)
  {
    hide Invariant;
    var u := s.chains[g][0];
    var r := s.turns[u].route;
    TurnFacts(s, u);
    HeadGen(s, g);
    OpenIsCurrent(s, r.session);
    if u in s.routes { TurnMatchesRoute(s, u); ClosedOwnsNothing(s, u, r.session); }
    ForgetKeeps(s, u, r);
    PopKeeps(DropRoute(s, u, r), g);
    ResolveKeeps(PopTurn(DropRoute(s, u, r), g), r.session);
  }

  lemma HeadGen(s: State, g: nat)
    requires Invariant(s) && HasTurn(s, g)
    ensures HeadTurn(s, g).route.gen == g
  {
    hide Shape, SessionsOk, TicketsOk, PromisesOk, RoutesOk, OwnersOk, PendingOk, PendingNamed, ExpiredOk,
         TurnsOk, StagesOk, HeadOk, JobsOk, JobsApart, UnsentOk, UndeliveredOk, DeliveriesOk, ReportsOk,
         SendsOk, AcceptedOk, WaitingOk;
  }

  /** Counting a pending fault touches nothing else. */
  lemma FaultCounts(s: State)
    requires Invariant(s)
    ensures Invariant(Fault(s))
  {
    hide Shape, SessionsOk, TicketsOk, PromisesOk, RoutesOk, OwnersOk, PendingOk, PendingNamed, ExpiredOk,
         TurnsOk, StagesOk, ChainsOk, HeadOk, JobsOk, JobsApart, UnsentOk, UndeliveredOk, DeliveriesOk,
         ReportsOk, SendsOk, AcceptedOk, WaitingOk;
  }

  lemma TurnEndsKeeps(s: State, g: nat)
    requires Invariant(s) && Enabled(s, TurnEnds(g))
    ensures Invariant(PopTurn(s, g))
  {
    hide Shape, SessionsOk, TicketsOk, RoutesOk, OwnersOk, PendingOk, PendingNamed, ExpiredOk, TurnsOk,
         StagesOk, ChainsOk, HeadOk, JobsOk, JobsApart, UnsentOk, UndeliveredOk, DeliveriesOk, ReportsOk,
         SendsOk, AcceptedOk, WaitingOk;
    TurnFacts(s, s.chains[g][0]);
    PopKeeps(s, g);
  }

  lemma InitializeTimesOutKeeps(s: State, g: nat)
    requires Invariant(s) && Enabled(s, InitializeTimesOut(g))
    ensures Invariant(OnInitializeTimesOut(s, g))
  {
    hide Invariant;
    var u := s.chains[g][0];
    var r := s.turns[u].route;
    TurnFacts(s, u);
    if u !in s.routes {
      PopKeeps(s, g);
    } else {
      RouteFacts(s, u);
      TurnMatchesRoute(s, u);
      TakeKeeps(s, u, r, Expiring);
      var s0 := TakeRoute(s, u, r, Expiring);
      TimedOutKeeps(s0, g);
      var s1 := SetStage(s0, u, TimedOut);
      ExpireKeeps(s1, g, u);
      var s2 := s1.(expired := s1.expired[g := AddExpired(s1.expired[g], u)]);
      DeliverKeeps(s2, u, r, TimeoutError);
    }
  }

  lemma MessageArrivesKeeps(s: State, i: Sid, m: Message)
    requires Invariant(s) && i < |s.sessions|
    ensures Invariant(OnMessageArrives(s, i, m))
  {
    hide Shape, SessionsOk, PromisesOk, RoutesOk, OwnersOk, PendingOk, PendingNamed, ExpiredOk, TurnsOk,
         StagesOk, ChainsOk, HeadOk, JobsOk, JobsApart, UnsentOk, UndeliveredOk, DeliveriesOk, ReportsOk,
         SendsOk, AcceptedOk;
    FailClosedKeeps(s, s.sessions[i].gen);
  }

  lemma ForwardResumesKeeps(s: State, k: nat, u: Uid, ok: bool)
    requires Invariant(s) && Enabled(s, ForwardResumes(k, u, ok))
    ensures Invariant(OnForwardResumes(s, k, u, ok))
  {
    hide Invariant;
    var Waiting(i, m) := s.waiting[k];
    var t := s.(waiting := s.waiting[..k] + s.waiting[k + 1..]);
    LeavesQueue(s, k);
    OpenIsCurrent(s, i);
    if s.sessions[i].upstreamInitialized && Live(s, i, s.current) {
      if m.Request? {
        var r := Route(s.current, i, m.id, false, m.governed, None, false);
        if m.id in s.sessions[i].pending {
          FailClosedKeeps(t, s.sessions[i].gen);
        } else if ok {
          RouteKeeps(t, u, r);
        } else {
          ReportAtOnceKeeps(t, u, r);
          FaultCounts(Report(IssueRequest(t, u, r), u, r));
        }
      } else if ok {
        NotifyKeeps(t, i);
      } else {
        FaultCounts(t);
      }
    }
  }

  lemma LeavesQueue(s: State, k: nat)
    requires Invariant(s) && k < |s.waiting|
    ensures Invariant(s.(waiting := s.waiting[..k] + s.waiting[k + 1..]))
    ensures WaitingOk([s.waiting[k]], s.sessions, s.received)
    ensures s.waiting[k].message.Request? ==> (s.waiting[k].session, s.waiting[k].message.id) in s.received
  {
    hide Shape, SessionsOk, TicketsOk, PromisesOk, RoutesOk, OwnersOk, PendingOk, PendingNamed, ExpiredOk,
         TurnsOk, StagesOk, ChainsOk, HeadOk, JobsOk, JobsApart, UnsentOk, UndeliveredOk, DeliveriesOk,
         ReportsOk, SendsOk, AcceptedOk;
  }

  /** An id the executor was sent belongs to no turn that is still to be sent. */
  lemma SentHasStarted(s: State, g: nat, u: Uid)
    requires Invariant(s) && SentTo(s, g, u)
    ensures u in s.turns ==> !s.turns[u].stage.Queued? && !s.turns[u].stage.Starting?
  {
    hide Invariant;
    if u in s.turns { TurnFacts(s, u); }
  }

  lemma MayTakeAnswered(s: State, g: nat, u: Uid, response: Response, task: Task)
    requires Invariant(s) && u in s.routes && SentTo(s, g, u)
    requires task.Rejecting? || ((task.Completing? || task.Answering?) && task.response == response)
    requires !task.Answering? ==> s.routes[u].initialize
    requires !task.Rejecting? && s.routes[u].initialize && s.routes[u].challenge.Some? ==>
               response.proof == s.routes[u].challenge
    ensures MayTake(s.(responses := s.responses[u := response]), u, s.routes[u], task)
  {
    hide Invariant, SentTo, Unseen, NeverDelivered, Owned;
    RouteFacts(s, u);
    SentHasStarted(s, g, u);
  }

  lemma AnsweredKeeps(s: State, g: nat, u: Uid, response: Response)
    requires Invariant(s) && Enabled(s, ExecutorResponds(g, u, response)) && u in s.routes
    requires s.routes[u].gen == g && u !in s.expired[g]
    ensures Invariant(OnExecutorResponds(s, g, u, response))
  {
    hide Invariant;
    var r := s.routes[u];
    RouteFacts(s, u);
    RespondKeeps(s, u, response);
    var s0 := s.(responses := s.responses[u := response]);
    var rejected := r.initialize && r.challenge.Some? && response.proof != r.challenge;
    var task := if rejected then Rejecting else if r.initialize && r.bootstrap then Completing(response) else Answering(response);
    MayTakeAnswered(s, g, u, response, task);
    TakeKeeps(s0, u, r, task);
    if !task.Completing? {
      DeliverKeeps(TakeRoute(s0, u, r, task), u, r, if rejected then IdentityError else Answer(response));
    }
  }

  lemma ExecutorRespondsKeeps(s: State, g: nat, u: Uid, response: Response)
    requires Invariant(s) && Enabled(s, ExecutorResponds(g, u, response))
    ensures Invariant(OnExecutorResponds(s, g, u, response))
  {
    hide Invariant;
    if u in s.expired[g] {
      UnexpireKeeps(s, g, u);
    } else if u !in s.routes || s.routes[u].gen != g {
      FailClosedKeeps(s, g);
    } else {
      AnsweredKeeps(s, g, u, response);
    }
  }

  lemma BootstrapCompletedKeeps(s: State, u: Uid, ok: bool)
    requires u in s.inflight && s.inflight[u].task.Completing?
    requires Invariant(s)
    ensures Invariant(OnBootstrapCompleted(s, u, ok))
  {
    hide Invariant;
    var Job(r, task) := s.inflight[u];
    JobFacts(s, u);
    JobOwner(s, u);
    var next := if ok then Answering(task.response) else Rejecting;
    StartJobKeeps(s, u, r, next);
    DeliverKeeps(StartJob(s, u, r, next), u, r, if ok then Answer(task.response) else BootstrapError);
  }

  lemma DeliveredKeeps(s: State, u: Uid, r: Route, response: Response)
    requires Invariant(s) && HasJob(s, u) && s.inflight[u] == Job(r, Answering(response))
    ensures Invariant(OnDelivered(s, u, r, response))
  {
    hide Invariant;
    if r.initialize && !s.sessions[r.session].closed {
      AcceptKeeps(s, u, r, response);
    } else {
      EndJobKeeps(s, u, if r.governed then s.reports + multiset{u} else s.reports, s.lost);
    }
  }

  lemma UndeliverableKeeps(s: State, u: Uid, r: Route, response: Response)
    requires Invariant(s) && HasJob(s, u) && s.inflight[u] == Job(r, Answering(response))
    ensures Invariant(OnUndeliverable(s, u, r))
  {
    hide Invariant;
    var lost := if r.governed then s.lost + {u} else s.lost;
    var t := FinishJob(s, u, s.reports, lost);
    EndJobKeeps(s, u, s.reports, lost);
    if r.initialize {
      JobFacts(s, u);
      JobOwner(s, u);
      ResolveKeeps(t, r.session);
      FailClosedKeeps(ResolveIn(t, r.session, false), r.gen);
    } else {
      FailClosedKeeps(t, r.gen);
    }
  }

  lemma SendSettlesKeeps(s: State, u: Uid, ok: bool)
    requires Invariant(s) && Enabled(s, SendSettles(u, ok))
    ensures Invariant(OnSendSettles(s, u, ok))
  {
    hide Invariant;
    var Job(r, task) := s.inflight[u];
    if task.Answering? {
      if ok { DeliveredKeeps(s, u, r, task.response); } else { UndeliverableKeeps(s, u, r, task.response); }
    } else {
      JobFacts(s, u);
      JobOwner(s, u);
      EndJobKeeps(s, u, s.reports, s.lost);
      var t := EndJob(s, u);
      assert t == FinishJob(s, u, s.reports, s.lost);
      if task.Expiring? {
        forall v | v in t.routes ensures t.routes[v].session != r.session { SuspendedOwnsNothing(s, u, v); }
        CloseKeeps(t, r.session);
      } else if ok {
        ResolveKeeps(t, r.session);
      } else if task.Rejecting? {
        FailClosedKeeps(t, r.gen);
        ResolveKeeps(FailClosed(t, r.gen), r.session);
      } else {
        FaultCounts(t);
      }
    }
  }

  lemma ExecutorClosesKeeps(s: State, g: nat)
    requires Invariant(s)
    ensures Invariant(OnExecutorCloses(s, g))
  {
    hide Shape, TicketsOk, PromisesOk, RoutesOk, OwnersOk, PendingOk, PendingNamed, ExpiredOk, TurnsOk,
         StagesOk, ChainsOk, HeadOk, JobsOk, JobsApart, UnsentOk, UndeliveredOk, DeliveriesOk, ReportsOk,
         SendsOk, AcceptedOk, WaitingOk;
    FailClosedKeeps(s, g);
    if g == s.current && !s.stopping {
      RespawnKeeps(FailClosed(s, g));
    }
  }

  lemma OtherFaultsKeep(s: State, faults: nat, stopping: bool)
    requires Invariant(s)
    ensures Invariant(FailClosed(s.(faults := faults), s.current))
    ensures Invariant(FailClosed(s.(stopping := stopping), s.current))
  {
    hide Shape, SessionsOk, TicketsOk, PromisesOk, RoutesOk, OwnersOk, PendingOk, PendingNamed, ExpiredOk,
         TurnsOk, StagesOk, ChainsOk, HeadOk, JobsOk, JobsApart, UnsentOk, UndeliveredOk, DeliveriesOk,
         ReportsOk, SendsOk, AcceptedOk, WaitingOk;
    FailClosedKeeps(s.(faults := faults), s.current);
    FailClosedKeeps(s.(stopping := stopping), s.current);
  }

  lemma StepKeeps(s: State, e: Event)
    requires Invariant(s) && Enabled(s, e)
    ensures Invariant(Step(s, e))
  {
    hide Invariant;
    match e
    case Connect => ConnectKeeps(s);
    case InitializeArrives(i, id, u, carried, setup) => InitializeArrivesKeeps(s, i, id, u, carried, setup);
    case BootstrapIssued(u, challenge) => BootstrapIssuedKeeps(s, u, challenge);
    case TurnStarts(g) => TurnStartsKeeps(s, g);
    case TurnSends(g, ok) => TurnSendsKeeps(s, g, ok);
    case TurnEnds(g) => TurnEndsKeeps(s, g);
    case InitializeTimesOut(g) => InitializeTimesOutKeeps(s, g);
    case MessageArrives(i, m) => MessageArrivesKeeps(s, i, m);
    case ForwardResumes(k, u, ok) => ForwardResumesKeeps(s, k, u, ok);
    case ExecutorResponds(g, u, response) => ExecutorRespondsKeeps(s, g, u, response);
    case BootstrapCompleted(u, ok) => BootstrapCompletedKeeps(s, u, ok);
    case SendSettles(u, ok) => SendSettlesKeeps(s, u, ok);
    case ExecutorRequests(g) => FailClosedKeeps(s, g);
    case ClientCloses(i) => ClientClosesKeeps(s, i);
    case ExecutorCloses(g) => ExecutorClosesKeeps(s, g);
    case ForwardFaults => OtherFaultsKeep(s, s.faults - 1, true);
    case ShutsDown => OtherFaultsKeep(s, 0, true);
  }

  /** Once an executor is gone, none of its sessions is open. */
  lemma NoneLeftOpen(s: State, g: nat)
    requires Invariant(s) && g <= s.current
    ensures forall i :: 0 <= i < |s.sessions| && s.sessions[i].gen == g ==> FaultedSessions(s.sessions, g)[i].closed
    ensures g < s.current ==> forall i :: 0 <= i < |s.sessions| && s.sessions[i].gen == g ==> s.sessions[i].closed
    ensures OnExecutorCloses(s, g).sessions == if g == s.current then FaultedSessions(s.sessions, g) else s.sessions
  {
    hide Shape, TicketsOk, PromisesOk, RoutesOk, OwnersOk, PendingOk, PendingNamed, ExpiredOk, TurnsOk,
         StagesOk, ChainsOk, HeadOk, JobsOk, JobsApart, UnsentOk, UndeliveredOk, DeliveriesOk, ReportsOk,
         SendsOk, AcceptedOk, WaitingOk, FaultedSessions, GovernedOf, RoutesElsewhere;
  }

  lemma {:induction false} RunKeeps(s: State, es: seq<Event>)
    requires Invariant(s) && IsRun(s, es)
    ensures Invariant(After(s, es))
    decreases |es|
  {
    hide Invariant;
    if es != [] {
      StepKeeps(s, es[0]);
      RunKeeps(Step(s, es[0]), es[1..]);
    }
  }

  // ---- What holds after every run ---------------------------------------------------------------

  ghost predicate Reachable(s: State) {
    exists managedDc, es :: IsRun(Initial(managedDc), es) && s == After(Initial(managedDc), es)
  }

  lemma ReachableInvariant(s: State)
    requires Reachable(s)
    ensures Invariant(s)
  {
    hide Invariant;
    var managedDc, es :| IsRun(Initial(managedDc), es) && s == After(Initial(managedDc), es);
    InitialInvariant(managedDc);
    RunKeeps(Initial(managedDc), es);
  }

  /** `routes` and the pending maps of open sessions are inverse; a closed session owns no route. */
  lemma TablesAreInverse(s: State, i: Sid, k: RpcId, u: Uid)
    requires Reachable(s) && i < |s.sessions|
    ensures !s.sessions[i].closed ==>
              ((k in s.sessions[i].pending && s.sessions[i].pending[k] == u) <==> Routed(s.routes, i, k, u))
    ensures s.sessions[i].closed ==> !Routed(s.routes, i, k, u)
  {
    hide Shape, SessionsOk, TicketsOk, PromisesOk, RoutesOk, PendingNamed, ExpiredOk, TurnsOk, StagesOk,
         ChainsOk, HeadOk, JobsOk, JobsApart, UnsentOk, UndeliveredOk, DeliveriesOk, ReportsOk, SendsOk,
         AcceptedOk, WaitingOk;
    ReachableInvariant(s);
  }

  lemma ExpiredIdsAreBounded(s: State, g: nat)
    requires Reachable(s) && g < |s.expired|
    ensures |s.expired[g]| <= 256 && Distinct(s.expired[g])
    ensures forall u :: u in s.expired[g] ==> u !in s.routes
  {
    hide Shape, SessionsOk, TicketsOk, PromisesOk, RoutesOk, OwnersOk, PendingOk, PendingNamed, TurnsOk,
         StagesOk, ChainsOk, HeadOk, JobsOk, JobsApart, UnsentOk, UndeliveredOk, DeliveriesOk, ReportsOk,
         SendsOk, AcceptedOk, WaitingOk;
    ReachableInvariant(s);
  }

  /**
   Whatever a session is sent under an id, it asked for under that id; an answer is the response the
   executor gave to that very request; and no request is replied to twice, so never both by a
   timeout and by an answer.
   */
  lemma RepliesMatchRequests(s: State, k: nat)
    requires Reachable(s) && k < |s.deliveries|
    ensures var d := s.deliveries[k];
      && d.uid in s.issued
      && s.issued[d.uid].session == d.session && s.issued[d.uid].downstreamId == d.downstreamId
      && (d.session, d.downstreamId) in s.received
      && (d.reply.Answer? ==> d.uid in s.responses && s.responses[d.uid] == d.reply.response)
    ensures forall j :: 0 <= j < |s.deliveries| && j != k ==> s.deliveries[j].uid != s.deliveries[k].uid
  {
    hide Shape, SessionsOk, PromisesOk, RoutesOk, OwnersOk, PendingOk, PendingNamed, ExpiredOk, TurnsOk,
         StagesOk, ChainsOk, HeadOk, JobsOk, JobsApart, UnsentOk, UndeliveredOk, ReportsOk, SendsOk,
         AcceptedOk, WaitingOk;
    ReachableInvariant(s);
    var u := s.deliveries[k].uid;
    assert (s.issued[u].session, s.issued[u].downstreamId) in s.received;
  }

  lemma OneInitializeAtATime(s: State, u: Uid, v: Uid)
    requires Reachable(s)
    requires u in s.routes && s.routes[u].initialize && v in s.routes && s.routes[v].initialize
    ensures u == v
  {
    hide Shape, SessionsOk, TicketsOk, PromisesOk, RoutesOk, OwnersOk, PendingOk, PendingNamed, ExpiredOk,
         TurnsOk, StagesOk, ChainsOk, JobsOk, JobsApart, UnsentOk, UndeliveredOk, DeliveriesOk, ReportsOk,
         SendsOk, AcceptedOk, WaitingOk;
    ReachableInvariant(s);
    assert Running(s.current, s.chains, s.turns, u) && Running(s.current, s.chains, s.turns, v);
  }

  /**
   Every message on the wire to an executor comes from a session of that executor, and unless it is
   an initialize, the session's own initialize was accepted before: in managed mode, with the
   challenge issued for that session echoed by the executor.
   */
  lemma NothingPrecedesAcceptance(s: State, k: nat)
    requires Reachable(s) && k < |s.sends|
    ensures var x := s.sends[k];
      && x.session < |s.sessions| && s.sessions[x.session].gen == x.gen
      && (!x.initialize ==>
        && x.session in s.accepted && x.session in s.initOf
        && var h := s.accepted[x.session];
           && s.initOf[x.session] == Initialize(h.uid, h.expected)
           && h.uid in s.responses && s.responses[h.uid].proof == h.proof
           && (s.managedDc ==> h.expected.Some?)
           && (h.expected.Some? ==> h.proof == h.expected))
  {
    hide Shape, SessionsOk, TicketsOk, PromisesOk, RoutesOk, OwnersOk, PendingOk, PendingNamed, ExpiredOk,
         TurnsOk, StagesOk, ChainsOk, HeadOk, JobsOk, JobsApart, UnsentOk, UndeliveredOk, DeliveriesOk,
         ReportsOk, WaitingOk;
    ReachableInvariant(s);
  }

  lemma ForwardingLosesNothing(s: State, k: nat, u: Uid, ok: bool)
    requires Enabled(s, ForwardResumes(k, u, ok))
    ensures OnForwardResumes(s, k, u, ok).lost == s.lost
  {
    hide FailClosed, InstallRoute, Report, Fault, IssueRequest;
  }

  lemma SettlingLoses(s: State, u: Uid, ok: bool)
    requires Enabled(s, SendSettles(u, ok))
    ensures var lost := OnSendSettles(s, u, ok).lost;
      || lost == s.lost
      || (!ok && s.inflight[u].task.Answering? && s.inflight[u].route.governed && lost == s.lost + {u})
  {
    hide FailClosed, ResolveIn, EndJob, Fault, Accept, CloseIn;
  }

  lemma RespondingLosesNothing(s: State, g: nat, u: Uid, response: Response)
    requires Enabled(s, ExecutorResponds(g, u, response))
    ensures OnExecutorResponds(s, g, u, response).lost == s.lost
  {
    hide FailClosed, ResolveIn, DropRoute, InstallRoute, Deliver, StartJob, TakeRoute, EndJob, Report, Fault,
         Enqueue, PopTurn, SetStage, Admit, IssueRequest, Accept, CloseIn, Respawn;
  }

  lemma InitializingLosesNothing(s: State, e: Event)
    requires Enabled(s, e)
    requires e.InitializeArrives? || e.BootstrapIssued? || e.TurnStarts? || e.TurnSends? || e.InitializeTimesOut?
    ensures Step(s, e).lost == s.lost
  {
    hide FailClosed, ResolveIn, DropRoute, InstallRoute, Deliver, StartJob, TakeRoute, EndJob, Report, Fault,
         Enqueue, PopTurn, SetStage, Admit, IssueRequest, Accept, CloseIn, Respawn;
  }

  lemma MessagesLoseNothing(s: State, i: Sid, m: Message)
    requires i < |s.sessions|
    ensures OnMessageArrives(s, i, m).lost == s.lost
  {
    hide FailClosed;
  }

  lemma CompletingLosesNothing(s: State, u: Uid, ok: bool)
    requires u in s.inflight && s.inflight[u].task.Completing?
    ensures OnBootstrapCompleted(s, u, ok).lost == s.lost
  {
    hide Deliver, StartJob;
  }

  lemma ClosingLosesNothing(s: State, i: Sid)
    requires i < |s.sessions|
    ensures OnClientCloses(s, i).lost == s.lost
  {
    hide PendingRoutes, CloseSession;
  }

  lemma RespawningLosesNothing(s: State, g: nat)
    ensures OnExecutorCloses(s, g).lost == s.lost
  {
    hide FailClosed, Respawn;
  }

  /** The only way to lose a report is a failed delivery of the executor's response. */
  lemma OnlyFailedDeliveriesLose(s: State, e: Event, u: Uid)
    requires Enabled(s, e)
    requires u in Step(s, e).lost && u !in s.lost
    ensures e == SendSettles(u, false) && s.inflight[u].task.Answering? && s.inflight[u].route.governed
  {
    hide FailClosed, PopTurn, OnForwardResumes, OnExecutorResponds, OnInitializeArrives, OnBootstrapIssued,
         OnTurnStarts, OnTurnSends, OnInitializeTimesOut, OnSendSettles, OnMessageArrives,
         OnBootstrapCompleted, OnClientCloses, OnExecutorCloses;
    match e
    case ForwardResumes(k, v, ok) => ForwardingLosesNothing(s, k, v, ok);
    case ExecutorResponds(g, v, response) => RespondingLosesNothing(s, g, v, response);
    case InitializeArrives(_, _, _, _, _) => InitializingLosesNothing(s, e);
    case BootstrapIssued(_, _) => InitializingLosesNothing(s, e);
    case TurnStarts(_) => InitializingLosesNothing(s, e);
    case TurnSends(_, _) => InitializingLosesNothing(s, e);
    case InitializeTimesOut(_) => InitializingLosesNothing(s, e);
    case SendSettles(v, ok) => SettlingLoses(s, v, ok);
    case MessageArrives(i, m) => MessagesLoseNothing(s, i, m);
    case BootstrapCompleted(v, ok) => CompletingLosesNothing(s, v, ok);
    case ClientCloses(i) => ClosingLosesNothing(s, i);
    case ExecutorCloses(g) => RespawningLosesNothing(s, g);
    case _ =>
  }

  /** The response branch for a closed session (lines 689-692) is never taken. */
  lemma RoutedSessionsAreOpen(s: State, u: Uid)
    requires Reachable(s) && u in s.routes
    ensures s.routes[u].session < |s.sessions| && !s.sessions[s.routes[u].session].closed
    ensures s.routes[u].gen == s.current
  {
    hide Shape, SessionsOk, TicketsOk, PromisesOk, PendingOk, PendingNamed, ExpiredOk, TurnsOk, StagesOk,
         ChainsOk, HeadOk, JobsOk, JobsApart, UnsentOk, UndeliveredOk, DeliveriesOk, ReportsOk, SendsOk,
         AcceptedOk, WaitingOk;
    ReachableInvariant(s);
    InitializeIsUnique(s, u, s.routes[u]);
    OpenIsCurrent(s, s.routes[u].session);
  }
}
