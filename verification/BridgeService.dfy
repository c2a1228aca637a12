/**
 No call of an open session is ever swallowed.  Until a fault is waiting to be handled, each is
 queued, on the wire, being answered, or answered; a session whose `initializePromise` is unresolved
 has its initialize still in hand; an answered initialize has opened its session; and every error a
 client is sent is about an initialize and has its reason.

 Line numbers refer to apps/dc-mcp-gateway/bridge.js.
 */
module BridgeService {
  import opened Basics
  import opened BridgeState
  import opened BridgeInvariant
  import opened BridgeSafety
  import opened BridgeCalls

  ghost predicate Delivered(deliveries: seq<Delivery>, u: Uid) {
    exists k :: 0 <= k < |deliveries| && deliveries[k].uid == u
  }

  ghost predicate Answered(deliveries: seq<Delivery>, u: Uid) {
    exists k :: 0 <= k < |deliveries| && deliveries[k].uid == u && deliveries[k].reply.Answer?
  }

  /** The bridge will still do something about this call. */
  ghost predicate InHand(s: State, u: Uid) {
    u in s.routes || u in s.inflight || (u in s.turns && s.turns[u].stage.Queued?)
  }

  ghost predicate OpenCall(s: State, u: Uid) {
    u in s.issued && s.issued[u].session < |s.sessions| && !s.sessions[s.issued[u].session].closed
  }

  /** A suspended handler that has spoken to the client, or has not yet. */
  ghost predicate Spoke(s: State, u: Uid) {
    u in s.inflight && !s.inflight[u].task.Issuing? && !s.inflight[u].task.Completing?
  }

  ghost predicate Good(s: State, u: Uid)
    requires OpenCall(s, u)
  {
    var x := s.sessions[s.issued[u].session];
    && (InHand(s, u) || Delivered(s.deliveries, u))
    && (Spoke(s, u) ==> Delivered(s.deliveries, u))
    && (u in s.inflight && Answered(s.deliveries, u) ==> s.inflight[u].task.Answering?)
    && (s.issued[u].initialize && x.promise.Unsettled? ==> InHand(s, u))
    && (s.issued[u].initialize && Answered(s.deliveries, u) && u !in s.inflight ==> x.upstreamInitialized)
  }

  ghost predicate Served(s: State) {
    s.faults == 0 ==> forall u :: OpenCall(s, u) ==> Good(s, u)
  }

  // ---- What an event leaves as it was ------------------------------------------------------------

  /** The session of a call is no worse off: a resolved promise stays resolved, an initialized session initialized. */
  ghost predicate Eased(x: Session, y: Session, initialize: bool) {
    (initialize && y.promise.Unsettled? ==> x.promise.Unsettled?) && (x.upstreamInitialized ==> y.upstreamInitialized)
  }

  ghost predicate SameDeliveries(ds: seq<Delivery>, next: seq<Delivery>, u: Uid) {
    next == ds || (|next| == |ds| + 1 && next[..|ds|] == ds && next[|ds|].uid != u)
  }

  ghost predicate Alike(s: State, t: State, u: Uid) {
    && (u in s.routes <==> u in t.routes)
    && (u in s.inflight <==> u in t.inflight) && (u in s.inflight ==> t.inflight[u] == s.inflight[u])
    && (u in s.turns && s.turns[u].stage.Queued? ==> u in t.turns && t.turns[u].stage.Queued?)
    && SameDeliveries(s.deliveries, t.deliveries, u)
  }

  lemma DeliveriesAlike(ds: seq<Delivery>, next: seq<Delivery>, u: Uid)
    requires SameDeliveries(ds, next, u)
    ensures Delivered(ds, u) <==> Delivered(next, u)
    ensures Answered(ds, u) <==> Answered(next, u)
  {
    if next != ds {
      forall k | 0 <= k < |ds| ensures next[k] == ds[k] {
        assert next[..|ds|][k] == ds[k];
      }
    }
  }

  lemma AlikeIsGood(s: State, t: State, u: Uid)
    requires OpenCall(s, u) && OpenCall(t, u) && Good(s, u) && Alike(s, t, u)
    requires t.issued[u] == s.issued[u]
    requires Eased(s.sessions[s.issued[u].session], t.sessions[s.issued[u].session], s.issued[u].initialize)
    ensures Good(t, u)
  {
    hide Delivered, Answered, SameDeliveries;
    DeliveriesAlike(s.deliveries, t.deliveries, u);
  }

  /** The call `u` was there before and nothing happened to it. */
  ghost predicate Left(s: State, t: State, u: Uid) {
    && OpenCall(s, u) && OpenCall(t, u) && t.issued[u] == s.issued[u] && Alike(s, t, u)
    && Eased(s.sessions[s.issued[u].session], t.sessions[s.issued[u].session], s.issued[u].initialize)
  }

  /** Nothing happened to any open call but `v`, so only `v` has to be looked at. */
  lemma BesideServes(s: State, t: State, v: Option<Uid>)
    requires Served(s) && t.faults == s.faults
    requires forall u :: OpenCall(t, u) && v != Some(u) ==> Left(s, t, u)
    requires v.Some? && OpenCall(t, v.value) ==> Good(t, v.value)
    ensures Served(t)
  {
    hide Good, Alike, Eased;
    if t.faults == 0 {
      forall u | OpenCall(t, u) ensures Good(t, u) {
        if v != Some(u) { AlikeIsGood(s, t, u); }
      }
    }
  }

  // ---- Faults ------------------------------------------------------------------------------------

  lemma FaultLeavesNoneOpen(s: State, u: Uid)
    requires Invariant(s)
    ensures !OpenCall(FailClosed(s, s.current), u)
  {
    hide Invariant, GovernedOf, RoutesElsewhere;
    var t := FailClosed(s, s.current);
    if u in t.issued && t.issued[u].session < |t.sessions| {
      OpenIsCurrent(s, t.issued[u].session);
    }
  }

  /** A fault of a former executor concerns no open session. */
  lemma FormerFault(s: State, g: nat, u: Uid)
    requires Invariant(s) && g != s.current && OpenCall(FailClosed(s, g), u)
    ensures var t := FailClosed(s, g);
      && OpenCall(s, u) && t.issued == s.issued && t.inflight == s.inflight && t.turns == s.turns && t.deliveries == s.deliveries
      && (u in s.routes <==> u in t.routes) && t.sessions[s.issued[u].session] == s.sessions[s.issued[u].session]
  {
    hide Invariant, GovernedOf;
    OpenIsCurrent(s, s.issued[u].session);
    if u in s.routes {
      RouteFacts(s, u);
      RouteGen(s, u);
    }
  }

  lemma RouteGen(s: State, u: Uid)
    requires u in s.routes
    requires Invariant(s)
    ensures s.routes[u].gen == s.current
  {
    hide Invariant;
    RouteFacts(s, u);
    InitializeIsUnique(s, u, s.routes[u]);
    OpenIsCurrent(s, s.routes[u].session);
  }

  lemma FaultServes(s: State, g: nat)
    requires Invariant(s) && (g != s.current ==> Served(s))
    ensures Served(FailClosed(s, g))
  {
    hide Invariant, Good;
    var t := FailClosed(s, g);
    if t.faults == 0 {
      forall u | OpenCall(t, u) ensures Good(t, u) {
        if g == s.current {
          FaultLeavesNoneOpen(s, u);
        } else {
          FormerFault(s, g, u);
          GoodStays(s, t, u);
        }
      }
    }
  }

  lemma GoodStays(s: State, t: State, u: Uid)
    requires OpenCall(s, u) && OpenCall(t, u) && Good(s, u) && t.issued == s.issued && t.inflight == s.inflight && t.turns == s.turns
    requires t.deliveries == s.deliveries && (u in s.routes <==> u in t.routes)
    requires t.sessions[s.issued[u].session] == s.sessions[s.issued[u].session]
    ensures Good(t, u)
  {
  }

  /** One more delivery. */
  lemma Delivering(ds: seq<Delivery>, d: Delivery)
    ensures Delivered(ds + [d], d.uid)
    ensures forall u :: Delivered(ds, u) ==> Delivered(ds + [d], u)
    ensures forall u :: u != d.uid ==> SameDeliveries(ds, ds + [d], u)
    ensures forall u :: Answered(ds + [d], u) ==> Answered(ds, u) || (u == d.uid && d.reply.Answer?)
  {
    assert (ds + [d])[|ds|] == d && (ds + [d])[..|ds|] == ds;
    forall u | Delivered(ds, u) ensures Delivered(ds + [d], u) {
      var k :| 0 <= k < |ds| && ds[k].uid == u;
      assert (ds + [d])[k] == ds[k];
    }
  }

  lemma NotYetAnswered(ds: seq<Delivery>, u: Uid)
    requires NeverDelivered(ds, u)
    ensures !Answered(ds, u) && !Delivered(ds, u)
  {
  }

  // ---- Initialize --------------------------------------------------------------------------------

  lemma ConnectServes(s: State)
    requires Invariant(s) && Served(s)
    ensures Served(OnConnect(s))
  {
    hide Good, Invariant;
    var t := OnConnect(s);
    forall u | OpenCall(t, u) ensures Left(s, t, u) {
      TicketHasSession(s, u);
    }
    BesideServes(s, t, None);
  }

  lemma TicketHasSession(s: State, u: Uid)
    requires u in s.issued
    requires Invariant(s)
    ensures s.issued[u].session < |s.sessions|
    ensures s.issued[u].initialize ==> s.issued[u].session in s.initOf && s.initOf[s.issued[u].session].uid == u
  {
    hide Shape, SessionsOk, PromisesOk, RoutesOk, OwnersOk, PendingOk, PendingNamed, ExpiredOk, TurnsOk,
         StagesOk, ChainsOk, HeadOk, JobsOk, JobsApart, UnsentOk, UndeliveredOk, DeliveriesOk, ReportsOk,
         SendsOk, AcceptedOk, WaitingOk;
  }

  lemma AdmitLeaves(s: State, i: Sid, v: Uid, r: Route, u: Uid)
    requires r.session == i < |s.sessions| && s.sessions[i].promise.Absent? && v !in s.issued
    requires Invariant(s)
    requires OpenCall(Admit(s, v, r), u) && u != v
    ensures Left(s, Admit(s, v, r), u)
  {
    hide Invariant;
    AbsentHasNoInitialize(s, i);
    TicketHasSession(s, u);
  }

  lemma AdmittedServes(s: State, v: Uid, r: Route, next: State)
    requires r.session < |s.sessions| && s.sessions[r.session].promise.Absent? && v !in s.issued
    requires Invariant(s) && Served(s)
    requires r.gen < |s.chains|
    requires next == Enqueue(Admit(s, v, r), v, r) || next == StartJob(Admit(s, v, r), v, r, Issuing)
          || next == Deliver(StartJob(Admit(s, v, r), v, r, RefusingSetup), v, r, SetupError)
    ensures Served(next)
  {
    hide Invariant, Good, Delivered, Answered;
    FreshIsNowhere(s, v);
    NotYetAnswered(s.deliveries, v);
    Delivering(s.deliveries, Delivery(r.session, r.downstreamId, v, SetupError));
    forall u | OpenCall(next, u) && u != v ensures Left(s, next, u) {
      AdmitLeaves(s, r.session, v, r, u);
    }
    assert OpenCall(next, v) ==> Good(next, v) by { AdmittedIsGood(s, v, r, next); }
    BesideServes(s, next, Some(v));
  }

  lemma AdmittedIsGood(s: State, v: Uid, r: Route, t: State)
    requires r.session < |s.sessions| && r.gen < |s.chains| && v !in s.inflight && NeverDelivered(s.deliveries, v)
    requires t == Enqueue(Admit(s, v, r), v, r) || t == StartJob(Admit(s, v, r), v, r, Issuing)
          || t == Deliver(StartJob(Admit(s, v, r), v, r, RefusingSetup), v, r, SetupError)
    ensures OpenCall(t, v) ==> Good(t, v)
  {
    NotYetAnswered(s.deliveries, v);
    Delivering(s.deliveries, Delivery(r.session, r.downstreamId, v, SetupError));
  }

  lemma InitializeServes(s: State, i: Sid, id: RpcId, v: Uid, carried: Option<Challenge>, setup: Setup)
    requires Enabled(s, InitializeArrives(i, id, v, carried, setup))
    requires Invariant(s) && Served(s)
    ensures Served(OnInitializeArrives(s, i, id, v, carried, setup))
  {
    hide Invariant, Served, Admit, Enqueue, StartJob, Deliver, FailClosed;
    FaultServes(s, s.current);
    var r := Route(s.sessions[i].gen, i, id, true, false, carried, false);
    AdmittedServes(s, v, r, Enqueue(Admit(s, v, r), v, r)) by { AdmittingIssues(s, v, r); }
    AdmittedServes(s, v, r, StartJob(Admit(s, v, r), v, r, Issuing));
    AdmittedServes(s, v, r, Deliver(StartJob(Admit(s, v, r), v, r, RefusingSetup), v, r, SetupError));
  }

  lemma BootstrapIssuedServes(s: State, v: Uid, challenge: Option<Challenge>)
    requires Enabled(s, BootstrapIssued(v, challenge))
    requires Invariant(s) && Served(s)
    ensures Served(OnBootstrapIssued(s, v, challenge))
  {
    hide Invariant, Served, StartJob, Deliver;
    var r := s.inflight[v].route;
    JobFacts(s, v);
    SpeaksServes(s, v, r, RefusingSetup, SetupError);
    if challenge.Some? { RequeuedServes(s, v, challenge); }
  }

  /** A suspended handler speaks to the client for the first time. */
  lemma SpeaksServes(s: State, v: Uid, r: Route, task: Task, reply: Reply)
    requires Served(s) && NeverDelivered(s.deliveries, v)
    requires !task.Issuing? && !task.Completing? && (reply.Answer? ==> task.Answering?)
    ensures Served(Deliver(StartJob(s, v, r, task), v, r, reply))
  {
    hide Good;
    var t := Deliver(StartJob(s, v, r, task), v, r, reply);
    Delivering(s.deliveries, Delivery(r.session, r.downstreamId, v, reply));
    forall u | OpenCall(t, u) && u != v ensures Left(s, t, u) {
    }
    assert OpenCall(t, v) ==> Good(t, v) by { HandedOn(s, t, v, r, reply); }
    BesideServes(s, t, Some(v));
  }

  lemma RequeuedServes(s: State, v: Uid, challenge: Option<Challenge>)
    requires Served(s) && HasJob(s, v) && NeverDelivered(s.deliveries, v) && challenge.Some?
    ensures Served(OnBootstrapIssued(s, v, challenge))
  {
    hide Good;
    var t := OnBootstrapIssued(s, v, challenge);
    forall u | OpenCall(t, u) && u != v ensures Left(s, t, u) {
    }
    assert OpenCall(t, v) ==> Good(t, v) by { HandedOn(s, t, v, s.inflight[v].route, SetupError); }
    BesideServes(s, t, Some(v));
  }

  /** A call that is in hand again, and told the client nothing or just this. */
  lemma HandedOn(s: State, t: State, v: Uid, r: Route, reply: Reply)
    requires NeverDelivered(s.deliveries, v) && InHand(t, v)
    requires t.deliveries == s.deliveries || t.deliveries == s.deliveries + [Delivery(r.session, r.downstreamId, v, reply)]
    requires Spoke(t, v) ==> t.deliveries != s.deliveries
    requires reply.Answer? && t.deliveries != s.deliveries ==> v in t.inflight && t.inflight[v].task.Answering?
    ensures OpenCall(t, v) ==> Good(t, v)
  {
    NotYetAnswered(s.deliveries, v);
    Delivering(s.deliveries, Delivery(r.session, r.downstreamId, v, reply));
  }

  lemma TurnStartsServes(s: State, g: nat)
    requires Enabled(s, TurnStarts(g))
    requires Invariant(s) && Served(s)
    ensures Served(OnTurnStarts(s, g))
  {
    hide Invariant, Served, InstallRoute, SetStage, PopTurn, ResolveIn;
    var v := s.chains[g][0];
    var r := s.turns[v].route;
    TurnFacts(s, v);
    HeadGen(s, g);
    OpenIsCurrent(s, r.session);
    if Live(s, r.session, g) {
      BegunServes(s, v, r);
    } else {
      StaleServes(s, g);
    }
  }

  lemma BegunServes(s: State, v: Uid, r: Route)
    requires Served(s) && v in s.turns && r.session < |s.sessions| && v in s.issued && s.issued[v].session == r.session
    ensures Served(SetStage(InstallRoute(s, v, r), v, Starting))
  {
    hide Good;
    var t := SetStage(InstallRoute(s, v, r), v, Starting);
    if s.faults == 0 {
      forall u | OpenCall(t, u) && u != v ensures Left(s, t, u) {
      }
      StartedIsGood(s, t, v);
      BesideServes(s, t, Some(v));
    }
  }

  lemma StaleServes(s: State, g: nat)
    requires Served(s) && HasTurn(s, g)
    requires var v := s.chains[g][0]; v in s.issued && s.issued[v].session == s.turns[v].route.session
    requires s.sessions[HeadTurn(s, g).route.session].closed
    ensures Served(ResolveIn(PopTurn(s, g), HeadTurn(s, g).route.session, false))
  {
    hide Good;
    var i := HeadTurn(s, g).route.session;
    var t := ResolveIn(PopTurn(s, g), i, false);
    forall u | OpenCall(t, u) ensures Left(s, t, u) {
    }
    BesideServes(s, t, None);
  }

  /** Its route takes the place of its turn. */
  lemma StartedIsGood(s: State, t: State, v: Uid)
    requires Served(s) && s.faults == 0 && t.issued == s.issued && t.deliveries == s.deliveries && t.inflight == s.inflight
    requires |t.sessions| == |s.sessions| && (OpenCall(t, v) ==> OpenCall(s, v) && v in t.routes)
    requires OpenCall(t, v) ==> t.sessions[s.issued[v].session].upstreamInitialized == s.sessions[s.issued[v].session].upstreamInitialized
    ensures OpenCall(t, v) ==> Good(t, v)
  {
  }

  lemma TurnSendsServes(s: State, g: nat, ok: bool)
    requires Enabled(s, TurnSends(g, ok))
    requires Invariant(s) && Served(s)
    ensures Served(OnTurnSends(s, g, ok))
  {
    hide Invariant, Served, AddSend, SetStage, DropRoute, PopTurn, ResolveIn, Fault;
    var v := s.chains[g][0];
    var r := s.turns[v].route;
    TurnFacts(s, v);
    HeadGen(s, g);
    OpenIsCurrent(s, r.session);
    SessionsAreQuiet();
    if !Live(s, r.session, g) {
      DroppedServes(s, v, r);
      StaleServes(DropRoute(s, v, r), g) by { DroppedTables(s, v, r); }
      assert DropRoute(s, v, r).turns == s.turns && DropRoute(s, v, r).chains == s.chains;
    } else if ok {
      RacingServes(s, v);
      SendServes(SetStage(s, v, Racing), Sent(g, r.session, true, Some(v)));
    } else {
      PendingFault(ResolveIn(PopTurn(DropRoute(s, v, r), g), r.session, false));
    }
  }

  lemma DroppedTables(s: State, v: Uid, r: Route)
    requires r.session < |s.sessions|
    ensures var t := DropRoute(s, v, r);
      && t.issued == s.issued && t.turns == s.turns && t.chains == s.chains && t.expired == s.expired
      && t.sessions[r.session].closed == s.sessions[r.session].closed
  {
  }

  /** The route of a closed session is missed by nobody. */
  lemma DroppedServes(s: State, v: Uid, r: Route)
    requires Served(s) && r.session < |s.sessions| && s.sessions[r.session].closed && v in s.issued && s.issued[v].session == r.session
    ensures Served(DropRoute(s, v, r))
  {
    hide Good;
    var t := DropRoute(s, v, r);
    forall u | OpenCall(t, u) ensures Left(s, t, u) {
    }
    BesideServes(s, t, None);
  }

  lemma RacingServes(s: State, v: Uid)
    requires Served(s) && v in s.turns && v in s.routes
    ensures Served(SetStage(s, v, Racing))
  {
    hide Good;
    var t := SetStage(s, v, Racing);
    if s.faults == 0 {
      forall u | OpenCall(t, u) && u != v ensures Left(s, t, u) {
      }
      StartedIsGood(s, t, v);
      BesideServes(s, t, Some(v));
    }
  }

  lemma PopServes(s: State, g: nat)
    requires Served(s) && HasTurn(s, g) && !HeadTurn(s, g).stage.Queued?
    ensures Served(PopTurn(s, g))
  {
    hide Good;
    var t := PopTurn(s, g);
    forall u | OpenCall(t, u) ensures Left(s, t, u) {
    }
    BesideServes(s, t, None);
  }

  lemma TimesOutServes(s: State, g: nat)
    requires Enabled(s, InitializeTimesOut(g))
    requires Invariant(s) && Served(s)
    ensures Served(OnInitializeTimesOut(s, g))
  {
    hide Invariant, Good;
    var v := s.chains[g][0];
    var r := s.turns[v].route;
    if v !in s.routes {
      PopServes(s, g);
    } else {
      var t := LoseRace(s, g, v, r);
      RouteFacts(s, v);
      TurnFacts(s, v);
      Delivering(s.deliveries, Delivery(r.session, r.downstreamId, v, TimeoutError));
      forall u | OpenCall(t, u) && u != v ensures Left(s, t, u) {
      }
      assert OpenCall(t, v) ==> Good(t, v) by { HandedOn(s, t, v, r, TimeoutError); }
      BesideServes(s, t, Some(v));
    }
  }

  // ---- Requests and answers ----------------------------------------------------------------------

  /** Only tables that no call depends on changed. */
  lemma ElsewhereServes(s: State, t: State)
    requires Served(s) && t.faults == s.faults && t.issued == s.issued && t.sessions == s.sessions && t.routes == s.routes
    requires t.inflight == s.inflight && t.turns == s.turns && t.deliveries == s.deliveries
    ensures Served(t)
  {
    hide Good;
    forall u | OpenCall(t, u) ensures Left(s, t, u) {
    }
    BesideServes(s, t, None);
  }

  lemma ArrivesServes(s: State, i: Sid, m: Message)
    requires i < |s.sessions|
    requires Invariant(s) && Served(s)
    ensures Served(OnMessageArrives(s, i, m))
  {
    hide Invariant, Served, FailClosed;
    FaultServes(s, s.sessions[i].gen);
    if Live(s, i, s.current) && (m.Request? || m.Notification?) { ElsewhereServes(s, OnMessageArrives(s, i, m)); }
  }

  lemma ForwardResumesServes(s: State, k: nat, v: Uid, ok: bool)
    requires Enabled(s, ForwardResumes(k, v, ok))
    requires Invariant(s) && Served(s)
    ensures Served(OnForwardResumes(s, k, v, ok))
  {
    hide Invariant, Served, ForwardRequest, Dequeue, Fault, AddSend;
    var Waiting(i, m) := s.waiting[k];
    var s0 := Dequeue(s, k);
    DequeueServes(s, k);
    OpenIsCurrent(s, i);
    if Ready(s, i) {
      if m.Request? {
        FreshIsNowhere(s0, v) by { Dequeues(s, k); }
        assert s0.current == s.current && s0.sessions == s.sessions by { Dequeues(s, k); }
        RequestServes(s0, v, Route(s.current, i, m.id, false, m.governed, None, false), ok);
      } else if ok {
        SendServes(s0, Sent(s.current, i, false, None));
      } else {
        PendingFault(s0);
      }
    }
  }

  lemma DequeueServes(s: State, k: nat)
    requires k < |s.waiting|
    requires Invariant(s) && Served(s)
    ensures Served(Dequeue(s, k)) && Invariant(Dequeue(s, k))
  {
    hide Invariant, Served;
    LeavesQueue(s, k);
    ElsewhereServes(s, Dequeue(s, k));
  }

  lemma SendServes(s: State, x: Sent)
    requires Served(s)
    ensures Served(AddSend(s, x))
  {
    hide Served;
    ElsewhereServes(s, AddSend(s, x));
  }

  /** With a fault waiting to be handled there is nothing to show. */
  lemma PendingFault(s: State)
    ensures Served(Fault(s))
  {
  }

  lemma RequestServes(s: State, v: Uid, r: Route, ok: bool)
    requires r.session < |s.sessions| && r.gen == s.current && !r.initialize
    requires Invariant(s) && Served(s)
    requires v !in s.inflight
    ensures Served(ForwardRequest(s, v, r, ok))
  {
    hide Invariant, Served, FailClosed, Fault, Report, AddSend;
    FaultServes(s, s.current);
    PendingFault(Report(IssueRequest(s, v, r), v, r));
    if ok && r.downstreamId !in s.sessions[r.session].pending {
      InstalledServes(s, v, r);
      SendServes(InstallRoute(IssueRequest(s, v, r), v, r), Sent(r.gen, r.session, false, Some(v)));
    }
  }

  lemma InstalledServes(s: State, v: Uid, r: Route)
    requires Served(s) && r.session < |s.sessions| && !r.initialize && v !in s.inflight
    ensures Served(InstallRoute(IssueRequest(s, v, r), v, r))
  {
    hide Good;
    var t := InstallRoute(IssueRequest(s, v, r), v, r);
    forall u | OpenCall(t, u) && u != v ensures Left(s, t, u) {
    }
    assert OpenCall(t, v) ==> Good(t, v) by { PlainRequestIsGood(t, v); }
    BesideServes(s, t, Some(v));
  }

  lemma PlainRequestIsGood(t: State, v: Uid)
    requires v in t.routes && v !in t.inflight && v in t.issued && !t.issued[v].initialize
    ensures OpenCall(t, v) ==> Good(t, v)
  {
  }

  lemma AnswerServes(s: State, v: Uid, response: Response)
    requires v in s.routes && s.routes[v].session < |s.sessions|
    requires Invariant(s) && Served(s)
    ensures Served(AnswerRoute(s, v, s.routes[v], response))
  {
    hide Invariant, Served, AddResponse, TakeRoute, Deliver;
    var r := s.routes[v];
    RouteFacts(s, v);
    var s0 := AddResponse(s, v, response);
    assert Served(s0) && s0.deliveries == s.deliveries && s0.sessions == s.sessions by { NotedServes(s, v, response); }
    TakenServes(s0, v, r, Rejecting, IdentityError);
    TakenServes(s0, v, r, Answering(response), Answer(response));
    CompletingServes(s0, v, r, response);
  }

  lemma NotedServes(s: State, v: Uid, response: Response)
    requires Served(s)
    ensures var t := AddResponse(s, v, response); Served(t) && t.deliveries == s.deliveries && t.sessions == s.sessions
  {
    hide Served;
    ElsewhereServes(s, AddResponse(s, v, response));
  }

  lemma TakenServes(s: State, v: Uid, r: Route, task: Task, reply: Reply)
    requires Served(s) && r.session < |s.sessions| && NeverDelivered(s.deliveries, v)
    requires !task.Issuing? && !task.Completing? && (reply.Answer? ==> task.Answering?)
    ensures Served(Deliver(TakeRoute(s, v, r, task), v, r, reply))
  {
    hide Good;
    var t := Deliver(TakeRoute(s, v, r, task), v, r, reply);
    Delivering(s.deliveries, Delivery(r.session, r.downstreamId, v, reply));
    forall u | OpenCall(t, u) && u != v ensures Left(s, t, u) {
    }
    assert OpenCall(t, v) ==> Good(t, v) by { HandedOn(s, t, v, r, reply); }
    BesideServes(s, t, Some(v));
  }

  lemma CompletingServes(s: State, v: Uid, r: Route, response: Response)
    requires Served(s) && r.session < |s.sessions| && NeverDelivered(s.deliveries, v)
    ensures Served(TakeRoute(s, v, r, Completing(response)))
  {
    hide Good;
    var t := TakeRoute(s, v, r, Completing(response));
    forall u | OpenCall(t, u) && u != v ensures Left(s, t, u) {
    }
    assert OpenCall(t, v) ==> Good(t, v) by { HandedOn(s, t, v, r, IdentityError); }
    BesideServes(s, t, Some(v));
  }

  lemma RespondsServes(s: State, g: nat, v: Uid, response: Response)
    requires Enabled(s, ExecutorResponds(g, v, response))
    requires Invariant(s) && Served(s)
    ensures Served(OnExecutorResponds(s, g, v, response))
  {
    hide Invariant, Served, FailClosed, Unexpire, AnswerRoute, SentTo;
    if v in s.expired[g] {
      UnexpireServes(s, g, v);
    } else if v !in s.routes || s.routes[v].gen != g {
      FaultServes(s, g);
    } else {
      AnswerServes(s, v, response);
    }
  }

  lemma UnexpireServes(s: State, g: nat, v: Uid)
    requires Served(s) && g < |s.expired|
    ensures Served(Unexpire(s, g, v))
  {
    hide Served;
    ElsewhereServes(s, Unexpire(s, g, v));
  }

  lemma CompletedServes(s: State, v: Uid, ok: bool)
    requires v in s.inflight && s.inflight[v].task.Completing?
    requires Invariant(s) && Served(s)
    ensures Served(OnBootstrapCompleted(s, v, ok))
  {
    hide Invariant, Served, StartJob, Deliver;
    var Job(r, task) := s.inflight[v];
    JobFacts(s, v);
    SpeaksServes(s, v, r, Answering(task.response), Answer(task.response));
    SpeaksServes(s, v, r, Rejecting, BootstrapError);
  }

  // ---- After the client was told -----------------------------------------------------------------

  /** A handler that has spoken may end, once an initialize it was about is resolved. */
  lemma EndedServes(s: State, t: State, v: Uid)
    requires Served(s) && Spoke(s, v) && t.faults == s.faults && t.issued == s.issued && |t.sessions| == |s.sessions|
    requires t.routes == s.routes && t.turns == s.turns && t.deliveries == s.deliveries && t.inflight == s.inflight - {v}
    requires forall i :: 0 <= i < |s.sessions| ==> t.sessions[i].closed || (!s.sessions[i].closed && Eased(s.sessions[i], t.sessions[i], true))
    requires OpenCall(t, v) && t.issued[v].initialize ==> !t.sessions[t.issued[v].session].promise.Unsettled?
    requires OpenCall(t, v) && t.issued[v].initialize && s.inflight[v].task.Answering? ==> t.sessions[t.issued[v].session].upstreamInitialized
    ensures Served(t)
  {
    hide Good, Delivered, Answered;
    if s.faults == 0 {
      forall u | OpenCall(t, u) && u != v ensures Left(s, t, u) {
      }
      EndedIsGood(s, t, v);
      BesideServes(s, t, Some(v));
    }
  }

  lemma EndedIsGood(s: State, t: State, v: Uid)
    requires OpenCall(s, v) ==> Good(s, v)
    requires Spoke(s, v) && t.issued == s.issued && t.deliveries == s.deliveries && v !in t.inflight
    requires OpenCall(t, v) ==> OpenCall(s, v)
    requires OpenCall(t, v) && t.issued[v].initialize ==> !t.sessions[t.issued[v].session].promise.Unsettled?
    requires OpenCall(t, v) && t.issued[v].initialize && s.inflight[v].task.Answering? ==> t.sessions[t.issued[v].session].upstreamInitialized
    ensures OpenCall(t, v) ==> Good(t, v)
  {
  }

  lemma RefusedServes(s: State, v: Uid, i: Sid)
    requires Served(s) && Spoke(s, v) && !s.inflight[v].task.Answering? && i < |s.sessions|
    requires v in s.issued ==> s.issued[v].session == i
    ensures Served(ResolveIn(EndJob(s, v), i, false)) && Served(CloseIn(EndJob(s, v), i))
  {
    hide Served;
    EndedServes(s, ResolveIn(EndJob(s, v), i, false), v);
    EndedServes(s, CloseIn(EndJob(s, v), i), v);
  }

  lemma ResolveServes(s: State, i: Sid)
    requires Served(s) && i < |s.sessions|
    ensures Served(ResolveIn(s, i, false))
  {
    hide Good;
    var t := ResolveIn(s, i, false);
    forall u | OpenCall(t, u) ensures Left(s, t, u) {
    }
    BesideServes(s, t, None);
  }

  lemma DeliveredServes(s: State, v: Uid, r: Route, response: Response)
    requires HasJob(s, v) && s.inflight[v] == Job(r, Answering(response))
    requires Invariant(s) && Served(s)
    ensures Served(OnDelivered(s, v, r, response))
  {
    hide Invariant, Served, Accept, FinishJob;
    JobFacts(s, v);
    var reports := if r.governed then s.reports + multiset{v} else s.reports;
    if r.initialize && !s.sessions[r.session].closed {
      AcceptServes(s, v, r, response);
    } else {
      ReportedServes(s, v, r, reports);
    }
  }

  lemma AcceptServes(s: State, v: Uid, r: Route, response: Response)
    requires Served(s) && Spoke(s, v) && r.session < |s.sessions| && (v in s.issued ==> s.issued[v].session == r.session)
    ensures Served(Accept(s, v, r, response))
  {
    hide Served;
    EndedServes(s, Accept(s, v, r, response), v);
  }

  lemma ReportedServes(s: State, v: Uid, r: Route, reports: multiset<Uid>)
    requires Served(s) && Spoke(s, v) && Names(s.issued, v, r) && r.session < |s.sessions|
    requires !r.initialize || s.sessions[r.session].closed
    ensures Served(FinishJob(s, v, reports, s.lost))
  {
    hide Served;
    EndedServes(s, FinishJob(s, v, reports, s.lost), v);
  }

  /** The job of a call ends although the client may not have been told. */
  lemma AbandonedServes(s: State, v: Uid, reports: multiset<Uid>, lost: set<Uid>)
    requires Served(s) && v in s.inflight && !OpenCall(s, v)
    ensures Served(FinishJob(s, v, reports, lost)) && Served(EndJob(s, v))
  {
    hide Good;
    var t, q := FinishJob(s, v, reports, lost), EndJob(s, v);
    forall u | OpenCall(t, u) ensures Left(s, t, u) {
    }
    forall u | OpenCall(q, u) ensures Left(s, q, u) {
    }
    BesideServes(s, t, None);
    BesideServes(s, q, None);
  }

  /** The executor of a call whose answer cannot be delivered is given up; if it is a former one, nobody waits. */
  lemma FormerJob(s: State, v: Uid)
    requires v in s.inflight && s.inflight[v].route.gen != s.current
    requires Invariant(s)
    ensures !OpenCall(s, v)
  {
    hide Invariant;
    JobFacts(s, v);
    InitializeIsUnique(s, v, s.inflight[v].route);
    OpenIsCurrent(s, s.inflight[v].route.session);
  }

  lemma UndeliverableServes(s: State, v: Uid, r: Route, response: Response)
    requires HasJob(s, v) && s.inflight[v] == Job(r, Answering(response))
    requires Invariant(s) && Served(s)
    ensures Served(OnUndeliverable(s, v, r))
  {
    hide Invariant, Served, FailClosed, ResolveIn, FinishJob;
    var lost := if r.governed then s.lost + {v} else s.lost;
    var t := FinishJob(s, v, s.reports, lost);
    EndJobKeeps(s, v, s.reports, lost);
    assert t.current == s.current by { FinishingKeeps(s, v, s.reports, lost); }
    if r.gen != s.current {
      FormerJob(s, v);
      AbandonedServes(s, v, s.reports, lost);
    }
    if r.initialize {
      JobFacts(s, v);
      JobOwner(s, v);
      ResolvedKeeps(s, v, r, lost);
      if r.gen != s.current { ResolveServes(t, r.session); }
      FaultServes(ResolveIn(t, r.session, false), r.gen);
    } else {
      FaultServes(t, r.gen);
    }
  }

  lemma FinishingKeeps(s: State, v: Uid, reports: multiset<Uid>, lost: set<Uid>)
    ensures FinishJob(s, v, reports, lost).current == s.current
    ensures EndJob(s, v) == FinishJob(s, v, s.reports, s.lost)
  {
  }

  lemma ResolvedKeeps(s: State, v: Uid, r: Route, lost: set<Uid>)
    requires v in s.inflight && s.inflight[v].route == r && r.initialize && s.inflight[v].task.Answering?
    requires Invariant(s)
    requires Invariant(FinishJob(s, v, s.reports, lost)) && r.session < |s.sessions|
    ensures var t := ResolveIn(FinishJob(s, v, s.reports, lost), r.session, false); Invariant(t) && t.current == s.current
  {
    hide Invariant;
    JobFacts(s, v);
    JobOwner(s, v);
    ResolveKeeps(FinishJob(s, v, s.reports, lost), r.session);
  }

  lemma RejectedServes(s: State, v: Uid, r: Route)
    requires HasJob(s, v) && s.inflight[v] == Job(r, Rejecting)
    requires Invariant(s) && Served(s)
    ensures Served(ResolveIn(FailClosed(EndJob(s, v), r.gen), r.session, false))
  {
    hide Invariant, Served, FailClosed, ResolveIn, EndJob, FinishJob;
    JobFacts(s, v);
    JobOwner(s, v);
    EndJobKeeps(s, v, s.reports, s.lost);
    FinishingKeeps(s, v, s.reports, s.lost);
    if r.gen != s.current {
      FormerJob(s, v);
      AbandonedServes(s, v, s.reports, s.lost);
    }
    FaultServes(EndJob(s, v), r.gen);
    ResolveServes(FailClosed(EndJob(s, v), r.gen), r.session);
  }

  lemma SettlesServes(s: State, v: Uid, ok: bool)
    requires Enabled(s, SendSettles(v, ok))
    requires Invariant(s) && Served(s)
    ensures Served(OnSendSettles(s, v, ok))
  {
    hide Invariant, Served, FailClosed, ResolveIn, EndJob, CloseIn, Fault, OnDelivered, OnUndeliverable;
    var Job(r, task) := s.inflight[v];
    JobFacts(s, v);
    match task
    case Answering(response) =>
      if ok { DeliveredServes(s, v, r, response); } else { UndeliverableServes(s, v, r, response); }
    case Rejecting =>
      RefusedServes(s, v, r.session);
      RejectedServes(s, v, r);
    case RefusingSetup =>
      RefusedServes(s, v, r.session);
      PendingFault(EndJob(s, v));
    case Expiring => RefusedServes(s, v, r.session);
  }

  // ---- Closing -----------------------------------------------------------------------------------

  lemma ClientClosesLeaves(s: State, i: Sid, u: Uid)
    requires i < |s.sessions| && OpenCall(OnClientCloses(s, i), u)
    requires Invariant(s)
    ensures Left(s, OnClientCloses(s, i), u)
  {
    hide Invariant;
    if u in PendingRoutes(s, i) {
      var k :| k in s.sessions[i].pending && s.sessions[i].pending[k] == u;
      PendingIsOwn(s, i, k);
    }
  }

  lemma PendingIsOwn(s: State, i: Sid, k: RpcId)
    requires i < |s.sessions| && k in s.sessions[i].pending
    requires Invariant(s)
    ensures var u := s.sessions[i].pending[k]; u in s.issued && s.issued[u].session == i
  {
    hide Shape, SessionsOk, TicketsOk, PromisesOk, RoutesOk, OwnersOk, PendingOk, ExpiredOk, TurnsOk,
         StagesOk, ChainsOk, HeadOk, JobsOk, JobsApart, UnsentOk, UndeliveredOk, DeliveriesOk, ReportsOk,
         SendsOk, AcceptedOk, WaitingOk;
  }

  lemma ClientClosesServes(s: State, i: Sid)
    requires i < |s.sessions|
    requires Invariant(s) && Served(s)
    ensures Served(OnClientCloses(s, i))
  {
    hide Invariant, Good;
    var t := OnClientCloses(s, i);
    forall u | OpenCall(t, u) ensures Left(s, t, u) {
      ClientClosesLeaves(s, i, u);
    }
    BesideServes(s, t, None);
  }

  lemma RespawnServes(s: State)
    requires Served(s)
    ensures Served(Respawn(s))
  {
    hide Served;
    ElsewhereServes(s, Respawn(s));
  }

  lemma OtherFaultsServe(s: State, faults: nat, stopping: bool)
    requires Invariant(s)
    ensures Served(FailClosed(s.(faults := faults), s.current)) && Served(FailClosed(s.(stopping := stopping), s.current))
  {
    hide Invariant, Good, GovernedOf, RoutesElsewhere;
    var t, q := FailClosed(s.(faults := faults), s.current), FailClosed(s.(stopping := stopping), s.current);
    forall u ensures !OpenCall(t, u) && !OpenCall(q, u) {
      FaultLeavesNoneOpen(s, u);
    }
  }

  lemma StepServes(s: State, e: Event)
    requires Enabled(s, e)
    requires Invariant(s) && Served(s)
    ensures Served(Step(s, e))
  {
    hide Invariant, Served, FailClosed, Respawn, PopTurn, OnConnect, OnInitializeArrives, OnBootstrapIssued, OnTurnStarts, OnTurnSends,
         OnInitializeTimesOut, OnMessageArrives, OnForwardResumes, OnExecutorResponds, OnBootstrapCompleted, OnSendSettles, OnClientCloses;
    match e
    case Connect => ConnectServes(s);
    case InitializeArrives(i, id, u, carried, setup) => InitializeServes(s, i, id, u, carried, setup);
    case BootstrapIssued(u, challenge) => BootstrapIssuedServes(s, u, challenge);
    case TurnStarts(g) => TurnStartsServes(s, g);
    case TurnSends(g, ok) => TurnSendsServes(s, g, ok);
    case TurnEnds(g) => PopServes(s, g);
    case InitializeTimesOut(g) => TimesOutServes(s, g);
    case MessageArrives(i, m) => ArrivesServes(s, i, m);
    case ForwardResumes(k, u, ok) => ForwardResumesServes(s, k, u, ok);
    case ExecutorResponds(g, u, response) => RespondsServes(s, g, u, response);
    case BootstrapCompleted(u, ok) => CompletedServes(s, u, ok);
    case SendSettles(u, ok) => SettlesServes(s, u, ok);
    case ExecutorRequests(g) => FaultServes(s, g);
    case ClientCloses(i) => ClientClosesServes(s, i);
    case ExecutorCloses(g) =>
      FaultServes(s, g);
      RespawnServes(FailClosed(s, g));
    case ForwardFaults => OtherFaultsServe(s, s.faults - 1, true);
    case ShutsDown => OtherFaultsServe(s, 0, true);
  }

  lemma {:induction false} RunServes(s: State, es: seq<Event>)
    requires IsRun(s, es)
    requires Invariant(s) && Served(s)
    ensures Served(After(s, es))
    decreases |es|
  {
    hide Invariant, Served, Step, Enabled;
    if es != [] {
      StepKeeps(s, es[0]);
      StepServes(s, es[0]);
      RunServes(Step(s, es[0]), es[1..]);
    }
  }

  /**
   After any run without an unhandled fault, whatever an open session called is queued, on the wire,
   suspended in a handler, or has been replied to.  If its `initializePromise` is unresolved, its
   initialize is still in hand, so no message waits on it for ever; and once its initialize has been
   answered and the handler is done, the session may speak to the executor.
   */
  lemma NoCallIsSwallowed(s: State, u: Uid)
    requires Reachable(s) && s.faults == 0 && OpenCall(s, u)
    ensures InHand(s, u) || Delivered(s.deliveries, u)
    ensures s.issued[u].initialize && s.sessions[s.issued[u].session].promise.Unsettled? ==> InHand(s, u)
    ensures s.issued[u].initialize && Answered(s.deliveries, u) && u !in s.inflight ==> s.sessions[s.issued[u].session].upstreamInitialized
  {
    hide Invariant;
    var managedDc, es :| IsRun(Initial(managedDc), es) && s == After(Initial(managedDc), es);
    InitialInvariant(managedDc);
    RunServes(Initial(managedDc), es);
  }
}
