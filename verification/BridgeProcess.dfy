/**
 The multiplexer as the process runs it: one object whose tables are updated in place by the event
 handlers.  Each handler may be called whenever its event is enabled, takes exactly the step
 `BridgeState` gives that event, and keeps the invariant; `Drive` runs any sequence of events on the
 object and reaches the state the transition system reaches.

 Line numbers refer to apps/dc-mcp-gateway/bridge.js.
 */
module BridgeProcess {
  import opened Basics
  import opened BridgeState
  import BridgeInvariant
  import BridgeSafety

  class Bridge {
    const managedDc: bool
    var current: nat
    var stopping: bool
    var sessions: seq<Session>
    var routes: map<Uid, Route>
    var expired: seq<seq<Uid>>
    var turns: map<Uid, Turn>
    var chains: seq<seq<Uid>>
    var inflight: map<Uid, Job>
    var waiting: seq<Waiting>
    var faults: nat
    // Effects and history; no handler reads them.
    ghost var issued: map<Uid, Ticket>
    ghost var initOf: map<Sid, Initialize>
    ghost var received: set<(Sid, RpcId)>
    ghost var responses: map<Uid, Response>
    ghost var deliveries: seq<Delivery>
    ghost var sends: seq<Sent>
    ghost var accepted: map<Sid, Handshake>
    ghost var reports: multiset<Uid>
    ghost var lost: set<Uid>

    ghost function View(): State
      reads this
    {
      State(managedDc, current, stopping, sessions, routes, expired, turns, chains, inflight, waiting, faults,
            issued, initOf, received, responses, deliveries, sends, accepted, reports, lost)
    }

    ghost predicate Valid()
      reads this
    {
      BridgeInvariant.Invariant(View())
    }

    constructor (managedDc: bool)
      ensures View() == Initial(managedDc) && Valid()
    {
      this.managedDc := managedDc;
      current, stopping, faults := 0, false, 0;
      sessions, waiting, deliveries, sends := [], [], [], [];
      routes, turns, inflight, issued, initOf, responses, accepted := map[], map[], map[], map[], map[], map[], map[];
      expired, chains := [[]], [[]];
      received, lost, reports := {}, {}, multiset{};
      new;
      BridgeInvariant.InitialInvariant(managedDc);
    }

    /** Lines 442-444: every governed call routed to executor `g` is reported as failed. */
    method ReportRouted(g: nat)
      modifies `reports
      ensures reports == old(reports) + multiset(GovernedOf(routes, g))
    {
      var todo := routes.Keys;
      while todo != {}
        invariant todo <= routes.Keys
        invariant reports == old(reports) + multiset(GovernedOf(routes, g) - todo)
        decreases todo
      {
        ghost var some := SomeElement(todo);
        var u :| u in todo;
        if routes[u].gen == g && routes[u].governed {
          reports := reports + multiset{u};
          assert GovernedOf(routes, g) - (todo - {u}) == (GovernedOf(routes, g) - todo) + {u};
        } else {
          assert GovernedOf(routes, g) - (todo - {u}) == GovernedOf(routes, g) - todo;
        }
        todo := todo - {u};
      }
      assert GovernedOf(routes, g) - {} == GovernedOf(routes, g);
    }

    /** Lines 445-450. */
    method CloseSessions(g: nat)
      modifies `sessions
      ensures sessions == FaultedSessions(old(sessions), g)
    {
      var i := 0;
      while i < |sessions|
        invariant i <= |sessions| == |old(sessions)|
        invariant forall j :: i <= j < |sessions| ==> sessions[j] == old(sessions)[j]
        invariant forall j :: 0 <= j < i ==> sessions[j] == FaultedSessions(old(sessions), g)[j]
      {
        if sessions[i].listed && sessions[i].gen == g {
          sessions := sessions[i := CloseSession(sessions[i])];
        }
        i := i + 1;
      }
    }

    /** Lines 439-452. */
    method FailClosed(g: nat)
      modifies `sessions, `routes, `reports
      ensures View() == BridgeState.FailClosed(old(View()), g)
    {
      hide FaultedSessions, GovernedOf, RoutesElsewhere;
      ReportRouted(g);
      CloseSessions(g);
      routes := RoutesElsewhere(routes, g);
    }

    /** The ids, pending under `keys` in session `i`, that are routed. */
    static function RoutedUnder(x: Session, keys: set<RpcId>, routes: map<Uid, Route>): (r: set<Uid>)
      ensures r <= routes.Keys
    {
      set k | k in keys && k in x.pending && x.pending[k] in routes :: x.pending[k]
    }

    static function Governed(us: set<Uid>, routes: map<Uid, Route>): (r: set<Uid>)
      requires us <= routes.Keys
      ensures r <= us
    {
      set u | u in us && routes[u].governed
    }

    static lemma Nothing(x: Session, routes: map<Uid, Route>)
      ensures RoutedUnder(x, {}, routes) == {} && Governed({}, routes) == {}
    {
    }

    static lemma OneMore(x: Session, done: set<RpcId>, k: RpcId, routes: map<Uid, Route>)
      requires k in x.pending
      ensures var u := x.pending[k];
        var before, after := RoutedUnder(x, done, routes), RoutedUnder(x, done + {k}, routes);
        if u !in routes || u in before then after == before
        else after == before + {u} &&
             Governed(after, routes) == Governed(before, routes) + if routes[u].governed then {u} else {}
    {
    }

    /** `routes` and `reports` after the ids pending under `done` were dropped from `from`. */
    ghost predicate Dropped(x: Session, done: set<RpcId>, from: map<Uid, Route>, reported: multiset<Uid>)
      reads `routes, `reports
    {
      && routes == from - RoutedUnder(x, done, from)
      && reports == reported + multiset(Governed(RoutedUnder(x, done, from), from))
    }

    lemma NothingDropped(x: Session)
      ensures Dropped(x, {}, routes, reports)
    {
      Nothing(x, routes);
    }

    /** Lines 817-819. */
    method DropOne(x: Session, k: RpcId, ghost done: set<RpcId>, ghost from: map<Uid, Route>, ghost reported: multiset<Uid>)
      requires k in x.pending && k !in done && Dropped(x, done, from, reported)
      modifies `routes, `reports
      ensures Dropped(x, done + {k}, from, reported)
    {
      hide RoutedUnder, Governed;
      var u := x.pending[k];
      OneMore(x, done, k, from);
      if u in routes {
        if routes[u].governed {
          reports := reports + multiset{u};
        }
        routes := routes - {u};
      }
    }

    /** Lines 816-820. */
    method DropPending(i: Sid)
      requires i < |sessions|
      modifies `routes, `reports
      ensures Dropped(sessions[i], sessions[i].pending.Keys, old(routes), old(reports))
    {
      hide Dropped;
      var x := sessions[i];
      var todo, done := x.pending.Keys, {};
      NothingDropped(x);
      while todo != {}
        invariant done + todo == x.pending.Keys && done !! todo
        invariant Dropped(x, done, old(routes), old(reports))
        decreases todo
      {
        ghost var some := SomeElement(todo);
        var k :| k in todo;
        DropOne(x, k, done, old(routes), old(reports));
        todo, done := todo - {k}, done + {k};
      }
      assert done == x.pending.Keys;
    }

    // ---- Single table operations ---------------------------------------------------------------

    method InstallRoute(u: Uid, r: Route)
      requires r.session < |sessions|
      modifies `routes, `sessions
      ensures View() == BridgeState.InstallRoute(old(View()), u, r)
    {
      routes := routes[u := r];
      sessions := sessions[r.session := sessions[r.session].(pending := sessions[r.session].pending[r.downstreamId := u])];
    }

    method DropRoute(u: Uid, r: Route)
      requires r.session < |sessions|
      modifies `routes, `sessions
      ensures View() == BridgeState.DropRoute(old(View()), u, r)
    {
      routes := routes - {u};
      sessions := sessions[r.session := sessions[r.session].(pending := sessions[r.session].pending - {r.downstreamId})];
    }

    method Settle(i: Sid)
      requires i < |sessions|
      modifies `sessions
      ensures View() == ResolveIn(old(View()), i, false)
    {
      if sessions[i].promise.Unsettled? {
        sessions := sessions[i := sessions[i].(promise := Settled(false))];
      }
    }

    method Suspend(u: Uid, r: Route, task: Task)
      modifies `inflight
      ensures View() == StartJob(old(View()), u, r, task)
    {
      inflight := inflight[u := Job(r, task)];
    }

    method Reply(u: Uid, r: Route, reply: Reply)
      modifies `deliveries
      ensures View() == Deliver(old(View()), u, r, reply)
    {
      deliveries := deliveries + [Delivery(r.session, r.downstreamId, u, reply)];
    }

    method Send(x: Sent)
      modifies `sends
      ensures View() == AddSend(old(View()), x)
    {
      sends := sends + [x];
    }

    method CountFault()
      modifies `faults
      ensures View() == Fault(old(View()))
    {
      faults := faults + 1;
    }

    method SetStage(u: Uid, stage: Stage)
      requires u in turns
      modifies `turns
      ensures View() == BridgeState.SetStage(old(View()), u, stage)
    {
      turns := turns[u := turns[u].(stage := stage)];
    }

    method PopTurn(g: nat)
      requires g < |chains| && |chains[g]| > 0
      modifies `turns, `chains
      ensures View() == BridgeState.PopTurn(old(View()), g)
    {
      turns := turns - {chains[g][0]};
      chains := chains[g := chains[g][1..]];
    }

    /** Lines 562-567. */
    static method Trim(xs: seq<Uid>, u: Uid) returns (ids: seq<Uid>)
      ensures ids == AddExpired(xs, u)
    {
      var all := if u in xs then xs else xs + [u];
      ids := all;
      while |ids| > MAX_EXPIRED
        invariant |ids| <= |all| && ids == all[|all| - |ids|..]
        invariant |all| > MAX_EXPIRED ==> |ids| >= MAX_EXPIRED
        invariant |all| <= MAX_EXPIRED ==> ids == all
        decreases |ids|
      {
        ids := ids[1..];
      }
    }

    method Expire(g: nat, u: Uid)
      requires g < |expired|
      modifies `expired
      ensures View() == BridgeState.Expire(old(View()), g, u)
    {
      hide AddExpired;
      var ids := Trim(expired[g], u);
      expired := expired[g := ids];
    }

    method Remember(u: Uid, r: Route)
      modifies `initOf, `received
      ensures View() == old(View()).(initOf := old(initOf)[r.session := Initialize(u, r.challenge)],
                                     received := old(received) + {(r.session, r.downstreamId)})
    {
      initOf, received := initOf[r.session := Initialize(u, r.challenge)], received + {(r.session, r.downstreamId)};
    }

    method OpenPromise(i: Sid)
      requires i < |sessions|
      modifies `sessions
      ensures View() == old(View()).(sessions := old(sessions)[i := old(sessions)[i].(promise := Unsettled)])
    {
      sessions := sessions[i := sessions[i].(promise := Unsettled)];
    }

    /** Lines 470-477. */
    method Admit(u: Uid, r: Route)
      requires r.session < |sessions|
      modifies `sessions, `issued, `initOf, `received
      ensures View() == BridgeState.Admit(old(View()), u, r)
    {
      hide TicketOf;
      Note(u, r);
      Remember(u, r);
      OpenPromise(r.session);
    }

    method Enqueue(u: Uid, r: Route)
      requires r.gen < |chains|
      modifies `turns, `chains
      ensures View() == BridgeState.Enqueue(old(View()), u, r)
    {
      turns := turns[u := Turn(r, Queued)];
      chains := chains[r.gen := chains[r.gen] + [u]];
    }

    method Note(u: Uid, r: Route)
      modifies `issued
      ensures View() == IssueRequest(old(View()), u, r)
    {
      issued := issued[u := TicketOf(r)];
    }

    method ReportCall(u: Uid, r: Route)
      modifies `reports
      ensures View() == Report(old(View()), u, r)
    {
      if r.governed { reports := reports + multiset{u}; }
    }

    method NoteResponse(u: Uid, response: Response)
      modifies `responses
      ensures View() == AddResponse(old(View()), u, response)
    {
      responses := responses[u := response];
    }

    /** A suspended handler resumes and is done with its route. */
    method Wake(u: Uid)
      modifies `inflight
      ensures View() == EndJob(old(View()), u)
    {
      inflight := inflight - {u};
    }

    /** Lines 687-688: the route leaves both tables and its handler goes on. */
    method TakeRoute(u: Uid, r: Route, task: Task)
      requires r.session < |sessions|
      modifies `routes, `sessions, `inflight
      ensures View() == BridgeState.TakeRoute(old(View()), u, r, task)
    {
      hide BridgeState.DropRoute, StartJob;
      DropRoute(u, r);
      Suspend(u, r, task);
    }

    method CatchFault()
      requires faults > 0
      modifies `faults
      ensures View() == old(View()).(faults := old(faults) - 1)
    {
      faults := faults - 1;
    }

    method NoteChallenge(u: Uid, i: Sid, challenge: Option<Challenge>)
      modifies `initOf
      ensures View() == old(View()).(initOf := old(initOf)[i := Initialize(u, challenge)])
    {
      initOf := initOf[i := Initialize(u, challenge)];
    }

    /** Lines 816-820, as one change of the two tables. */
    method DropRoutesOf(i: Sid)
      requires i < |sessions|
      modifies `routes, `reports
      ensures var dropped := PendingRoutes(old(View()), i);
        View() == old(View()).(routes := old(routes) - dropped,
                               reports := old(reports) + multiset(set u | u in dropped && old(routes)[u].governed))
    {
      DropPending(i);
      assert RoutedUnder(sessions[i], sessions[i].pending.Keys, old(routes)) == PendingRoutes(old(View()), i);
    }

    method EmptySession(i: Sid)
      requires i < |sessions|
      modifies `sessions
      ensures View() == old(View()).(sessions := old(sessions)[i := CloseSession(old(sessions)[i]).(pending := map[])])
    {
      sessions := sessions[i := CloseSession(sessions[i]).(pending := map[])];
    }

    /** The handler of a governed call is done: reported, or never to be. */
    method FinishCall(u: Uid, r: Route, reported: bool)
      modifies `inflight, `reports, `lost
      ensures View() == FinishJob(old(View()), u, if reported && r.governed then old(reports) + multiset{u} else old(reports),
                                  if !reported && r.governed then old(lost) + {u} else old(lost))
    {
      inflight := inflight - {u};
      if r.governed {
        if reported { reports := reports + multiset{u}; } else { lost := lost + {u}; }
      }
    }

    /** Lines 744-746: no answer, so no report, and a waiting initialize is refused. */
    static ghost function Unanswered(s: State, u: Uid, r: Route): (t: State)
      requires r.session < |s.sessions|
      ensures OnUndeliverable(s, u, r) == BridgeState.FailClosed(t, r.gen)
    {
      var t := FinishJob(s, u, s.reports, if r.governed then s.lost + {u} else s.lost);
      if r.initialize then ResolveIn(t, r.session, false) else t
    }

    method GiveUp(u: Uid, r: Route)
      requires r.session < |sessions|
      modifies `sessions, `inflight, `reports, `lost
      ensures View() == Unanswered(old(View()), u, r)
    {
      hide ResolveIn, FinishJob;
      FinishCall(u, r, false);
      if r.initialize { Settle(r.session); }
    }

    method StopServing()
      modifies `stopping
      ensures View() == old(View()).(stopping := true)
    {
      stopping := true;
    }

    /** Lines 577-579: the session is unlisted and closed. */
    method CloseExpired(i: Sid)
      requires i < |sessions|
      modifies `sessions
      ensures View() == CloseIn(old(View()), i)
    {
      sessions := sessions[i := CloseSession(sessions[i])];
    }

    /** Lines 748-751. */
    method Accept(u: Uid, r: Route, response: Response)
      requires r.session < |sessions|
      modifies `sessions, `inflight, `accepted
      ensures View() == BridgeState.Accept(old(View()), u, r, response)
    {
      hide Resolve;
      inflight := inflight - {u};
      var x := sessions[r.session];
      sessions := sessions[r.session := Resolve(x.(upstreamInitialized := true), true)];
      accepted := accepted[r.session := Handshake(u, r.challenge, response.proof)];
    }

    /** Line 766: the next executor generation, with empty tables. */
    method StartOver()
      modifies `current, `expired, `chains
      ensures View() == Respawn(old(View()))
    {
      current, expired, chains := current + 1, expired + [[]], chains + [[]];
    }

    /** Lines 627-655; the route is installed before the send and withdrawn if it fails. */
    method RouteRequest(u: Uid, r: Route, ok: bool)
      requires r.session < |sessions| && r.downstreamId !in sessions[r.session].pending && u !in routes && !r.initialize
      modifies `sessions, `routes, `reports, `issued, `sends, `faults
      ensures View() == ForwardRequest(old(View()), u, r, ok)
    {
      hide AddSend, Fault, Report, BridgeState.InstallRoute, BridgeState.DropRoute;
      Note(u, r);
      ghost var noted := View();
      InstallRoute(u, r);
      if ok {
        Send(Sent(r.gen, r.session, false, Some(u)));
      } else {
        Undo(noted, u, r);
        DropRoute(u, r);
        ReportCall(u, r);
        CountFault();
      }
    }

    /** Installing a route that was absent and dropping it again changes nothing. */
    static lemma Undo(s: State, u: Uid, r: Route)
      requires r.session < |s.sessions| && r.downstreamId !in s.sessions[r.session].pending && u !in s.routes
      ensures BridgeState.DropRoute(BridgeState.InstallRoute(s, u, r), u, r) == s
    {
      var x := s.sessions[r.session];
      assert s.routes[u := r] - {u} == s.routes;
      assert x.pending[r.downstreamId := u] - {r.downstreamId} == x.pending;
    }

    // ---- Handlers --------------------------------------------------------------------------------

    /** `onsessioninitialized` (804-811): a session of the current executor is listed. */
    method OnSessionOpened()
      requires Valid()
      modifies `sessions
      ensures View() == Step(old(View()), Connect) && Valid()
    {
      hide BridgeInvariant.Invariant;
      BridgeSafety.StepKeeps(View(), Connect);
      sessions := sessions + [Session(current, true, false, map[], false, Absent)];
    }

    /** Lines 461-521 and 591-592. */
    method ForwardInitialize(i: Sid, id: RpcId, u: Uid, carried: Option<Challenge>, setup: Setup)
      requires Valid() && Enabled(View(), InitializeArrives(i, id, u, carried, setup))
      modifies `sessions, `routes, `reports, `issued, `initOf, `received, `inflight, `deliveries, `turns, `chains
      ensures View() == Step(old(View()), InitializeArrives(i, id, u, carried, setup)) && Valid()
    {
      hide BridgeInvariant.Invariant, BridgeState.FailClosed, BridgeState.Admit, StartJob, Deliver, BridgeState.Enqueue;
      BridgeSafety.StepKeeps(View(), InitializeArrives(i, id, u, carried, setup));
      var x := sessions[i];
      var r := Route(x.gen, i, id, true, false, carried, false);
      if x.closed || x.gen != current {
      } else if id in x.pending {
        FailClosed(current);
      } else {
        Admit(u, r);
        if managedDc && carried.None? {
          if setup.CanIssue? {
            Suspend(u, r, Issuing);
          } else {
            Suspend(u, r, RefusingSetup);
            Reply(u, r, SetupError);
          }
        } else {
          Enqueue(u, r);
        }
      }
    }

    /** Lines 505-520: ACS answered the bridge's own request for a challenge. */
    method BootstrapArrives(u: Uid, challenge: Option<Challenge>)
      requires Valid() && Enabled(View(), BootstrapIssued(u, challenge))
      modifies `inflight, `deliveries, `initOf, `turns, `chains
      ensures View() == Step(old(View()), BootstrapIssued(u, challenge)) && Valid()
    {
      hide BridgeInvariant.Invariant, Deliver, StartJob, BridgeState.Enqueue, EndJob;
      BridgeSafety.StepKeeps(View(), BootstrapIssued(u, challenge));
      var r := inflight[u].route;
      if challenge.None? {
        Suspend(u, r, RefusingSetup);
        Reply(u, r, SetupError);
      } else {
        Wake(u);
        NoteChallenge(u, r.session, challenge);
        Enqueue(u, r.(challenge := challenge, bootstrap := true));
      }
    }

    /** Lines 523-537. */
    method StartTurn(g: nat)
      requires Valid() && Enabled(View(), TurnStarts(g))
      modifies `sessions, `routes, `turns, `chains
      ensures View() == Step(old(View()), TurnStarts(g)) && Valid()
    {
      hide BridgeInvariant.Invariant, BridgeState.InstallRoute, ResolveIn, BridgeState.SetStage, BridgeState.PopTurn;
      BridgeSafety.StepKeeps(View(), TurnStarts(g));
      var u := chains[g][0];
      var r := turns[u].route;
      var x := sessions[r.session];
      if x.closed || g != current || x.gen != g {
        PopTurn(g);
        Settle(r.session);
      } else {
        InstallRoute(u, r);
        SetStage(u, Starting);
      }
    }

    /** Lines 538-552. */
    method SendTurn(g: nat, ok: bool)
      requires Valid() && Enabled(View(), TurnSends(g, ok))
      modifies `sessions, `routes, `turns, `chains, `sends, `faults
      ensures View() == Step(old(View()), TurnSends(g, ok)) && Valid()
    {
      hide BridgeInvariant.Invariant, BridgeState.DropRoute, ResolveIn, BridgeState.SetStage, BridgeState.PopTurn, AddSend, Fault;
      BridgeSafety.StepKeeps(View(), TurnSends(g, ok));
      var u := chains[g][0];
      var r := turns[u].route;
      var x := sessions[r.session];
      var live := !x.closed && g == current && x.gen == g;
      if live && ok {
        SetStage(u, Racing);
        Send(Sent(g, r.session, true, Some(u)));
      } else {
        DropRoute(u, r);
        PopTurn(g);
        Settle(r.session);
        if live { CountFault(); }
      }
    }

    /** Lines 584-592: the race is decided and the next turn of the chain may start. */
    method EndTurn(g: nat)
      requires Valid() && Enabled(View(), TurnEnds(g))
      modifies `turns, `chains
      ensures View() == Step(old(View()), TurnEnds(g)) && Valid()
    {
      hide BridgeInvariant.Invariant, BridgeState.PopTurn;
      BridgeSafety.StepKeeps(View(), TurnEnds(g));
      PopTurn(g);
    }

    /** Lines 556-573. */
    method TimeOutInitialize(g: nat)
      requires Valid() && Enabled(View(), InitializeTimesOut(g))
      modifies `sessions, `routes, `turns, `chains, `inflight, `expired, `deliveries
      ensures View() == Step(old(View()), InitializeTimesOut(g)) && Valid()
    {
      hide BridgeInvariant.Invariant, BridgeState.PopTurn, BridgeState.LoseRace;
      BridgeSafety.StepKeeps(View(), InitializeTimesOut(g));
      var u := chains[g][0];
      var r := turns[u].route;
      if u !in routes {
        PopTurn(g);
      } else {
        LoseRace(g, u, r);
      }
    }

    /** Lines 557-576. */
    method LoseRace(g: nat, u: Uid, r: Route)
      requires r.session < |sessions| && g < |expired| && u in turns
      modifies `sessions, `routes, `turns, `inflight, `expired, `deliveries
      ensures View() == BridgeState.LoseRace(old(View()), g, u, r)
    {
      hide BridgeState.TakeRoute, BridgeState.SetStage, BridgeState.Expire, Deliver;
      TakeRoute(u, r, Expiring);
      SetStage(u, TimedOut);
      Expire(g, u);
      Reply(u, r, TimeoutError);
    }

    /** Lines 596-615: a message other than initialize, up to the await of `initializePromise`. */
    method Arrive(i: Sid, m: Message)
      requires Valid() && Enabled(View(), MessageArrives(i, m))
      modifies `sessions, `routes, `reports, `waiting, `received
      ensures View() == Step(old(View()), MessageArrives(i, m)) && Valid()
    {
      hide BridgeInvariant.Invariant, BridgeState.FailClosed;
      BridgeSafety.StepKeeps(View(), MessageArrives(i, m));
      var x := sessions[i];
      if x.closed || x.gen != current { return; }
      if m.ClientResponse? || m.Malformed? {
        FailClosed(x.gen);
        return;
      }
      waiting := waiting + [Waiting(i, m)];
      if m.Request? { received := received + {(i, m.id)}; }
    }

    /** Lines 616-655. */
    method ResumeForward(k: nat, u: Uid, ok: bool)
      requires Valid() && Enabled(View(), ForwardResumes(k, u, ok))
      modifies `sessions, `routes, `reports, `issued, `sends, `faults, `waiting
      ensures View() == Step(old(View()), ForwardResumes(k, u, ok)) && Valid()
    {
      hide BridgeInvariant.Invariant, BridgeState.FailClosed, AddSend, Fault, ForwardRequest;
      BridgeSafety.StepKeeps(View(), ForwardResumes(k, u, ok));
      BridgeInvariant.FreshIsNowhere(View(), u);
      var Waiting(i, m) := waiting[k];
      waiting := waiting[..k] + waiting[k + 1..];
      var x := sessions[i];
      if !x.upstreamInitialized || x.closed || x.gen != current {
      } else if !m.Request? {
        if ok { Send(Sent(current, i, false, None)); } else { CountFault(); }
      } else {
        ForwardCall(u, Route(current, i, m.id, false, m.governed, None, false), ok);
      }
    }

    /** Lines 622-655. */
    method ForwardCall(u: Uid, r: Route, ok: bool)
      requires r.session < |sessions| && u !in routes && !r.initialize
      modifies `sessions, `routes, `reports, `issued, `sends, `faults
      ensures View() == ForwardRequest(old(View()), u, r, ok)
    {
      hide BridgeState.FailClosed, AddSend, Fault, Report, BridgeState.InstallRoute, IssueRequest;
      if r.downstreamId in sessions[r.session].pending {
        FailClosed(r.gen);
      } else {
        RouteRequest(u, r, ok);
      }
    }

    /** Lines 681-742.  A routed session is open, so lines 689-692 never run. */
    method OnMessage(g: nat, u: Uid, response: Response)
      requires Valid() && Enabled(View(), ExecutorResponds(g, u, response))
      modifies `sessions, `routes, `reports, `responses, `expired, `inflight, `deliveries
      ensures View() == Step(old(View()), ExecutorResponds(g, u, response)) && Valid()
    {
      hide BridgeInvariant.Invariant, BridgeState.FailClosed, Without, BridgeState.TakeRoute, BridgeState.DropRoute, Deliver,
           ResolveIn, AddResponse;
      BridgeSafety.StepKeeps(View(), ExecutorResponds(g, u, response));
      if u in expired[g] {
        expired := expired[g := Without(expired[g], u)];
        return;
      }
      if u !in routes || routes[u].gen != g {
        FailClosed(g);
        return;
      }
      BridgeSafety.RouteFacts(View(), u);
      var r := routes[u];
      if sessions[r.session].closed { assert false; }
      NoteResponse(u, response);
      if r.initialize && r.challenge.Some? && response.proof != r.challenge {
        TakeRoute(u, r, Rejecting);
        Reply(u, r, IdentityError);
      } else if r.initialize && r.bootstrap {
        TakeRoute(u, r, Completing(response));
      } else {
        TakeRoute(u, r, Answering(response));
        Reply(u, r, Answer(response));
      }
    }

    /** Lines 713-742: ACS settled the completion of a bridge-issued bootstrap. */
    method BootstrapSettles(u: Uid, ok: bool)
      requires Valid() && Enabled(View(), BootstrapCompleted(u, ok))
      modifies `inflight, `deliveries
      ensures View() == Step(old(View()), BootstrapCompleted(u, ok)) && Valid()
    {
      hide BridgeInvariant.Invariant, Deliver, StartJob;
      BridgeSafety.StepKeeps(View(), BootstrapCompleted(u, ok));
      var Job(r, task) := inflight[u];
      if ok {
        Suspend(u, r, Answering(task.response));
        Reply(u, r, Answer(task.response));
      } else {
        Suspend(u, r, Rejecting);
        Reply(u, r, BootstrapError);
      }
    }

    /** Lines 748-754. */
    method Delivered(u: Uid)
      requires Valid() && Enabled(View(), SendSettles(u, true)) && inflight[u].task.Answering?
      modifies `sessions, `reports, `inflight, `accepted, `lost
      ensures View() == Step(old(View()), SendSettles(u, true)) && Valid()
    {
      hide BridgeInvariant.Invariant, BridgeState.Accept, FinishJob;
      BridgeSafety.StepKeeps(View(), SendSettles(u, true));
      var Job(r, task) := inflight[u];
      if r.initialize && !sessions[r.session].closed {
        Accept(u, r, task.response);
      } else {
        FinishCall(u, r, true);
      }
    }

    /** Lines 743-746. */
    method Undeliverable(u: Uid)
      requires Valid() && Enabled(View(), SendSettles(u, false)) && inflight[u].task.Answering?
      modifies `sessions, `routes, `reports, `inflight, `lost
      ensures View() == Step(old(View()), SendSettles(u, false)) && Valid()
    {
      hide BridgeInvariant.Invariant, BridgeState.FailClosed, Unanswered;
      BridgeSafety.StepKeeps(View(), SendSettles(u, false));
      var r := inflight[u].route;
      GiveUp(u, r);
      FailClosed(r.gen);
    }

    /** What follows the delivery of an error to an initialize (486-519, 577-579, 707-710, 731-734). */
    method ErrorSettles(u: Uid, ok: bool)
      requires Valid() && Enabled(View(), SendSettles(u, ok)) && !inflight[u].task.Answering?
      modifies `sessions, `routes, `reports, `inflight, `faults
      ensures View() == Step(old(View()), SendSettles(u, ok)) && Valid()
    {
      hide BridgeInvariant.Invariant, BridgeState.FailClosed, ResolveIn, EndJob, Fault, CloseIn;
      BridgeSafety.StepKeeps(View(), SendSettles(u, ok));
      var Job(r, task) := inflight[u];
      Wake(u);
      if task.Expiring? {
        CloseExpired(r.session);
      } else if ok {
        Settle(r.session);
      } else if task.RefusingSetup? {
        CountFault();
      } else {
        FailClosed(r.gen);
        Settle(r.session);
      }
    }

    /** Lines 757-758: the executor asks something of its own. */
    method OnServerRequest(g: nat)
      requires Valid() && Enabled(View(), ExecutorRequests(g))
      modifies `sessions, `routes, `reports
      ensures View() == Step(old(View()), ExecutorRequests(g)) && Valid()
    {
      hide BridgeInvariant.Invariant, BridgeState.FailClosed;
      BridgeSafety.StepKeeps(View(), ExecutorRequests(g));
      FailClosed(g);
    }

    /** Lines 812-822. */
    method OnSessionClosed(i: Sid)
      requires Valid() && Enabled(View(), ClientCloses(i))
      modifies `sessions, `routes, `reports
      ensures View() == Step(old(View()), ClientCloses(i)) && Valid()
    {
      hide BridgeInvariant.Invariant, CloseSession, PendingRoutes;
      BridgeSafety.StepKeeps(View(), ClientCloses(i));
      DropRoutesOf(i);
      EmptySession(i);
    }

    /** Lines 762-768: no session of the lost executor stays open. */
    method OnUpstreamClosed(g: nat)
      requires Valid() && Enabled(View(), ExecutorCloses(g))
      modifies `sessions, `routes, `reports, `current, `expired, `chains
      ensures View() == Step(old(View()), ExecutorCloses(g)) && Valid()
      ensures forall i :: 0 <= i < |sessions| && sessions[i].gen == g ==> sessions[i].closed
    {
      hide BridgeInvariant.Invariant, BridgeState.FailClosed, Respawn;
      BridgeSafety.StepKeeps(View(), ExecutorCloses(g));
      BridgeSafety.NoneLeftOpen(View(), g);
      if g == current {
        FailClosed(g);
        if !stopping { StartOver(); }
      }
    }

    /** Lines 829-832: a forward that failed is caught. */
    method OnForwardFailed()
      requires Valid() && Enabled(View(), ForwardFaults)
      modifies `sessions, `routes, `reports, `faults
      ensures View() == Step(old(View()), ForwardFaults) && Valid()
    {
      hide BridgeInvariant.Invariant, BridgeState.FailClosed;
      BridgeSafety.StepKeeps(View(), ForwardFaults);
      CatchFault();
      FailClosed(current);
    }

    /** Lines 1290-1298. */
    method Shutdown()
      requires Valid() && Enabled(View(), ShutsDown)
      modifies `sessions, `routes, `reports, `stopping
      ensures View() == Step(old(View()), ShutsDown) && Valid()
    {
      hide BridgeInvariant.Invariant, BridgeState.FailClosed;
      BridgeSafety.StepKeeps(View(), ShutsDown);
      StopServing();
      FailClosed(current);
    }

    // ---- Runs ------------------------------------------------------------------------------------

    /** One turn of the event loop. */
    method Handle(e: Event)
      requires Valid() && Enabled(View(), e)
      modifies this
      ensures View() == Step(old(View()), e) && Valid()
    {
      hide BridgeInvariant.Invariant, Step;
      match e
      case Connect => OnSessionOpened();
      case InitializeArrives(i, id, u, carried, setup) => ForwardInitialize(i, id, u, carried, setup);
      case BootstrapIssued(u, challenge) => BootstrapArrives(u, challenge);
      case TurnStarts(g) => StartTurn(g);
      case TurnSends(g, ok) => SendTurn(g, ok);
      case TurnEnds(g) => EndTurn(g);
      case InitializeTimesOut(g) => TimeOutInitialize(g);
      case MessageArrives(i, m) => Arrive(i, m);
      case ForwardResumes(k, u, ok) => ResumeForward(k, u, ok);
      case ExecutorResponds(g, u, response) => OnMessage(g, u, response);
      case BootstrapCompleted(u, ok) => BootstrapSettles(u, ok);
      case SendSettles(u, ok) =>
        if !inflight[u].task.Answering? {
          ErrorSettles(u, ok);
        } else if ok {
          Delivered(u);
        } else {
          Undeliverable(u);
        }
      case ExecutorRequests(g) => OnServerRequest(g);
      case ClientCloses(i) => OnSessionClosed(i);
      case ExecutorCloses(g) => OnUpstreamClosed(g);
      case ForwardFaults => OnForwardFailed();
      case ShutsDown => Shutdown();
    }

    /** Any run of the transition system is a run of the object, and ends in the same state. */
    method Drive(es: seq<Event>)
      requires Valid() && IsRun(View(), es)
      modifies this
      ensures View() == After(old(View()), es) && Valid()
    {
      hide BridgeInvariant.Invariant, Step, Enabled;
      for k := 0 to |es|
        invariant Valid() && IsRun(View(), es[k..]) && After(View(), es[k..]) == After(old(View()), es)
      {
        assert es[k..][0] == es[k] && es[k..][1..] == es[k + 1..];
        Handle(es[k]);
      }
    }
  }

  /** The object, started afresh and driven through any run, is in a reachable state: all guarantees hold of it. */
  method Serve(managedDc: bool, es: seq<Event>) returns (bridge: Bridge)
    requires IsRun(Initial(managedDc), es)
    ensures fresh(bridge) && bridge.View() == After(Initial(managedDc), es) && BridgeSafety.Reachable(bridge.View())
  {
    bridge := new Bridge(managedDc);
    bridge.Drive(es);
  }
}
