/**
 The state of the stdio-to-HTTP MCP multiplexer and the effect of each event on it.

 JavaScript runs every handler to completion between two awaits, so one event here is one such
 segment.  Continuations that wait on a promise are kept in the state: `turns` (the `initTail`
 chain), `inflight` (a handler suspended in a send or in an ACS exchange) and `waiting` (a forward
 suspended on the session's `initializePromise`).

 The tables of all executor generations are kept together: a route carries the generation of the
 table that holds it, and a session is `listed` when it is in its own pair's session table.

 Line numbers refer to apps/dc-mcp-gateway/bridge.js.
 */
module BridgeState {
  import opened Basics

  // Only equality of these identifiers matters, so a number stands for the text or JSON value.
  type Sid = nat
  type Uid = int
  type RpcId = int
  type Challenge = int

  const MAX_EXPIRED := 256

  /** `initializePromise`: not created, unresolved, or resolved (only the first resolve counts). */
  datatype InitPromise = Absent | Unsettled | Settled(accepted: bool)

  datatype Session = Session(
    gen: nat,
    listed: bool,
    closed: bool,
    pending: map<RpcId, Uid>,
    upstreamInitialized: bool,
    promise: InitPromise
  )

  datatype Route = Route(
    gen: nat,
    session: Sid,
    downstreamId: RpcId,
    initialize: bool,
    governed: bool,
    challenge: Option<Challenge>,
    bootstrap: bool
  )

  /** One link of the `initTail` chain of a pair; only the head of a chain runs. */
  datatype Stage = Queued | Starting | Racing | TimedOut
  datatype Turn = Turn(route: Route, stage: Stage)

  datatype Response = Response(proof: Option<Challenge>, body: int)

  datatype Task =
    | Issuing
    | RefusingSetup
    | Completing(response: Response)
    | Answering(response: Response)
    | Rejecting
    | Expiring
  datatype Job = Job(route: Route, task: Task)

  datatype Message = Notification | Request(id: RpcId, governed: bool) | ClientResponse | Malformed
  datatype Waiting = Waiting(session: Sid, message: Message)

  // History, never read by a handler.
  datatype Ticket = Ticket(gen: nat, session: Sid, downstreamId: RpcId, initialize: bool, governed: bool)
  datatype Initialize = Initialize(uid: Uid, challenge: Option<Challenge>)
  datatype Reply = Answer(response: Response) | TimeoutError | IdentityError | BootstrapError | SetupError
  datatype Delivery = Delivery(session: Sid, downstreamId: RpcId, uid: Uid, reply: Reply)
  datatype Sent = Sent(gen: nat, session: Sid, initialize: bool, uid: Option<Uid>)
  datatype Handshake = Handshake(uid: Uid, expected: Option<Challenge>, proof: Option<Challenge>)

  datatype State = State(
    managedDc: bool,
    current: nat,
    stopping: bool,
    sessions: seq<Session>,
    routes: map<Uid, Route>,
    expired: seq<seq<Uid>>,
    turns: map<Uid, Turn>,
    chains: seq<seq<Uid>>,
    inflight: map<Uid, Job>,
    waiting: seq<Waiting>,
    faults: nat,
    issued: map<Uid, Ticket>,
    initOf: map<Sid, Initialize>,
    received: set<(Sid, RpcId)>,
    responses: map<Uid, Response>,
    deliveries: seq<Delivery>,
    sends: seq<Sent>,
    accepted: map<Sid, Handshake>,
    reports: multiset<Uid>,
    lost: set<Uid>
  )

  function Initial(managedDc: bool): State {
    State(managedDc, 0, false, [], map[], [[]], map[], [[]], map[], [], 0, map[], map[], {}, map[], [], [], map[], multiset{}, {})
  }

  /** Whether an initialize lacking a challenge can obtain one from ACS (lines 484-503). */
  datatype Setup = NoRuntime | NoIdentity | CanIssue

  datatype Event =
    | Connect
    | InitializeArrives(session: Sid, id: RpcId, uid: Uid, carried: Option<Challenge>, setup: Setup)
    | BootstrapIssued(uid: Uid, challenge: Option<Challenge>)
    | TurnStarts(gen: nat)
    | TurnSends(gen: nat, ok: bool)
    | TurnEnds(gen: nat)
    | InitializeTimesOut(gen: nat)
    | MessageArrives(session: Sid, message: Message)
    | ForwardResumes(index: nat, uid: Uid, ok: bool)
    | ExecutorResponds(gen: nat, uid: Uid, response: Response)
    | BootstrapCompleted(uid: Uid, ok: bool)
    | SendSettles(uid: Uid, ok: bool)
    | ExecutorRequests(gen: nat)
    | ClientCloses(session: Sid)
    | ExecutorCloses(gen: nat)
    | ForwardFaults
    | ShutsDown

  // ---- Building blocks -----------------------------------------------------------------------

  function TicketOf(r: Route): Ticket {
    Ticket(r.gen, r.session, r.downstreamId, r.initialize, r.governed)
  }

  function Resolve(x: Session, v: bool): Session {
    if x.promise.Unsettled? then x.(promise := Settled(v)) else x
  }

  function CloseSession(x: Session): Session {
    Resolve(x, false).(closed := true, listed := false)
  }

  /** Lines 445-450: the sessions of pair `g` after a fault. */
  function FaultedSessions(sessions: seq<Session>, g: nat): (r: seq<Session>)
    ensures |r| == |sessions|
    ensures forall i | 0 <= i < |sessions| ::
              r[i] == if sessions[i].listed && sessions[i].gen == g then CloseSession(sessions[i]) else sessions[i]
  {
    seq(|sessions|, i requires 0 <= i < |sessions| =>
      if sessions[i].listed && sessions[i].gen == g then CloseSession(sessions[i]) else sessions[i])
  }

  function GovernedOf(routes: map<Uid, Route>, g: nat): set<Uid> {
    set u | u in routes && routes[u].gen == g && routes[u].governed
  }

  function RoutesElsewhere(routes: map<Uid, Route>, g: nat): map<Uid, Route> {
    map u | u in routes && routes[u].gen != g :: routes[u]
  }

  function FailClosed(s: State, g: nat): (t: State)
    ensures t.lost == s.lost && |t.sessions| == |s.sessions|
  {
    s.(sessions := FaultedSessions(s.sessions, g),
       routes := RoutesElsewhere(s.routes, g),
       reports := s.reports + multiset(GovernedOf(s.routes, g)))
  }

  function ResolveIn(s: State, i: Sid, v: bool): (t: State)
    requires i < |s.sessions|
    ensures t.lost == s.lost && |t.sessions| == |s.sessions|
  {
    s.(sessions := s.sessions[i := Resolve(s.sessions[i], v)])
  }

  /** `routes.delete(u)` together with `pending.delete(key)`. */
  function DropRoute(s: State, u: Uid, r: Route): (t: State)
    requires r.session < |s.sessions|
    ensures t.lost == s.lost && |t.sessions| == |s.sessions|
  {
    var x := s.sessions[r.session];
    s.(routes := s.routes - {u},
       sessions := s.sessions[r.session := x.(pending := x.pending - {r.downstreamId})])
  }

  function InstallRoute(s: State, u: Uid, r: Route): (t: State)
    requires r.session < |s.sessions|
    ensures t.lost == s.lost && |t.sessions| == |s.sessions|
  {
    var x := s.sessions[r.session];
    s.(routes := s.routes[u := r],
       sessions := s.sessions[r.session := x.(pending := x.pending[r.downstreamId := u])])
  }

  function Deliver(s: State, u: Uid, r: Route, reply: Reply): (t: State)
    ensures t.lost == s.lost && |t.sessions| == |s.sessions|
  {
    s.(deliveries := s.deliveries + [Delivery(r.session, r.downstreamId, u, reply)])
  }

  function StartJob(s: State, u: Uid, r: Route, task: Task): (t: State)
    ensures t.lost == s.lost && |t.sessions| == |s.sessions|
  {
    s.(inflight := s.inflight[u := Job(r, task)])
  }

  /** The route leaves the table and its handler is suspended in `task`. */
  function TakeRoute(s: State, u: Uid, r: Route, task: Task): (t: State)
    requires r.session < |s.sessions|
    ensures t.lost == s.lost && |t.sessions| == |s.sessions|
  {
    StartJob(DropRoute(s, u, r), u, r, task)
  }

  function EndJob(s: State, u: Uid): (t: State)
    ensures t.lost == s.lost && |t.sessions| == |s.sessions|
  {
    s.(inflight := s.inflight - {u})
  }

  /** A handler for a governed call finishes: reported to ACS, or never to be. */
  function FinishJob(s: State, u: Uid, reports: multiset<Uid>, lost: set<Uid>): (t: State)
    ensures |t.sessions| == |s.sessions|
  {
    s.(inflight := s.inflight - {u}, reports := reports, lost := lost)
  }

  function Report(s: State, u: Uid, r: Route): (t: State)
    ensures t.lost == s.lost && |t.sessions| == |s.sessions|
  {
    if r.governed then s.(reports := s.reports + multiset{u}) else s
  }

  function Fault(s: State): (t: State)
    ensures t.lost == s.lost && |t.sessions| == |s.sessions|
  {
    s.(faults := s.faults + 1)
  }

  function AddSend(s: State, x: Sent): (t: State)
    ensures t.lost == s.lost && |t.sessions| == |s.sessions|
  {
    s.(sends := s.sends + [x])
  }

  function AddResponse(s: State, u: Uid, response: Response): (t: State)
    ensures t.lost == s.lost && |t.sessions| == |s.sessions|
  {
    s.(responses := s.responses[u := response])
  }

  function Expire(s: State, g: nat, u: Uid): (t: State)
    requires g < |s.expired|
    ensures t.lost == s.lost && |t.sessions| == |s.sessions|
  {
    s.(expired := s.expired[g := AddExpired(s.expired[g], u)])
  }

  function Unexpire(s: State, g: nat, u: Uid): (t: State)
    requires g < |s.expired|
    ensures t.lost == s.lost && |t.sessions| == |s.sessions|
  {
    s.(expired := s.expired[g := Without(s.expired[g], u)])
  }

  function Enqueue(s: State, u: Uid, r: Route): (t: State)
    requires r.gen < |s.chains|
    ensures t.lost == s.lost && |t.sessions| == |s.sessions|
  {
    s.(turns := s.turns[u := Turn(r, Queued)], chains := s.chains[r.gen := s.chains[r.gen] + [u]])
  }

  ghost predicate HasTurn(s: State, g: nat) {
    && g < |s.chains| == |s.expired| && |s.chains[g]| > 0
    && s.chains[g][0] in s.turns && s.turns[s.chains[g][0]].route.session < |s.sessions|
  }

  function PopTurn(s: State, g: nat): (t: State)
    requires g < |s.chains| && |s.chains[g]| > 0
    ensures t.lost == s.lost && |t.sessions| == |s.sessions|
  {
    s.(turns := s.turns - {s.chains[g][0]}, chains := s.chains[g := s.chains[g][1..]])
  }

  function SetStage(s: State, u: Uid, stage: Stage): (t: State)
    requires u in s.turns
    ensures t.lost == s.lost && |t.sessions| == |s.sessions|
  {
    s.(turns := s.turns[u := s.turns[u].(stage := stage)])
  }

  /** Insertion into the bounded set of expired ids, oldest dropped first (lines 562-567). */
  function AddExpired(xs: seq<Uid>, u: Uid): seq<Uid> {
    var ys := if u in xs then xs else xs + [u];
    if |ys| <= MAX_EXPIRED then ys else ys[|ys| - MAX_EXPIRED..]
  }

  predicate Distinct(xs: seq<Uid>) {
    forall i, j | 0 <= i < j < |xs| :: xs[i] != xs[j]
  }

  /** Set removal, keeping insertion order. */
  function Without(xs: seq<Uid>, u: Uid): (r: seq<Uid>)
    ensures |r| <= |xs|
    ensures forall v :: v in r <==> v in xs && v != u
    ensures Distinct(xs) ==> Distinct(r)
  {
    if xs == [] then []
    else
      assert xs == [xs[0]] + xs[1..];
      assert Distinct(xs) ==> Distinct(xs[1..]) && xs[0] !in xs[1..];
      if xs[0] == u then Without(xs[1..], u) else [xs[0]] + Without(xs[1..], u)
  }

  predicate Live(s: State, i: Sid, g: nat)
    requires i < |s.sessions|
  {
    !s.sessions[i].closed && g == s.current && s.sessions[i].gen == g
  }

  // ---- Handlers ------------------------------------------------------------------------------

  function OnConnect(s: State): State {
    s.(sessions := s.sessions + [Session(s.current, true, false, map[], false, Absent)])
  }

  /** The id and the promise of an admitted initialize (lines 470-477). */
  function Admit(s: State, u: Uid, r: Route): (t: State)
    requires r.session < |s.sessions|
    ensures t.lost == s.lost && |t.sessions| == |s.sessions|
  {
    s.(issued := s.issued[u := TicketOf(r)],
       initOf := s.initOf[r.session := Initialize(u, r.challenge)],
       received := s.received + {(r.session, r.downstreamId)},
       sessions := s.sessions[r.session := s.sessions[r.session].(promise := Unsettled)])
  }

  /** Lines 461-521 and 591-592: up to the first await of `forwardInitialize`. */
  function OnInitializeArrives(s: State, i: Sid, id: RpcId, u: Uid, carried: Option<Challenge>, setup: Setup): State
    requires i < |s.sessions| && s.sessions[i].gen < |s.chains|
  {
    var r := Route(s.sessions[i].gen, i, id, true, false, carried, false);
    if !Live(s, i, s.current) then s
    else if id in s.sessions[i].pending then FailClosed(s, s.current)
    else
      var s0 := Admit(s, u, r);
      if s.managedDc && carried.None? then
        if setup.CanIssue? then StartJob(s0, u, r, Issuing)
        else Deliver(StartJob(s0, u, r, RefusingSetup), u, r, SetupError)
      else Enqueue(s0, u, r)
  }

  /** Lines 505-520: ACS answered the bridge's own request for a challenge. */
  function OnBootstrapIssued(s: State, u: Uid, challenge: Option<Challenge>): State
    requires u in s.inflight && s.inflight[u].route.gen < |s.chains|
  {
    var r := s.inflight[u].route;
    match challenge
    case None => Deliver(StartJob(s, u, r, RefusingSetup), u, r, SetupError)
    case Some(_) =>
      var s0 := EndJob(s, u).(initOf := s.initOf[r.session := Initialize(u, challenge)]);
      Enqueue(s0, u, r.(challenge := challenge, bootstrap := true))
  }

  /** Lines 523-537: the first segment of `run`. */
  function OnTurnStarts(s: State, g: nat): State
    requires g < |s.chains| && |s.chains[g]| > 0
    requires s.chains[g][0] in s.turns && s.turns[s.chains[g][0]].route.session < |s.sessions|
  {
    var u := s.chains[g][0];
    var r := s.turns[u].route;
    if !Live(s, r.session, g) then ResolveIn(PopTurn(s, g), r.session, false)
    else SetStage(InstallRoute(s, u, r), u, Starting)
  }

  /** Lines 538-552: `run` after the executor started; `ok` is the outcome of `upstream.send`. */
  function OnTurnSends(s: State, g: nat, ok: bool): State
    requires g < |s.chains| && |s.chains[g]| > 0
    requires s.chains[g][0] in s.turns && s.turns[s.chains[g][0]].route.session < |s.sessions|
  {
    var u := s.chains[g][0];
    var r := s.turns[u].route;
    if Live(s, r.session, g) && ok then
      AddSend(SetStage(s, u, Racing), Sent(g, r.session, true, Some(u)))
    else
      var s0 := ResolveIn(PopTurn(DropRoute(s, u, r), g), r.session, false);
      if Live(s, r.session, g) then Fault(s0) else s0
  }

  /** Lines 556-576: the timer fires while the race is undecided. */
  function OnInitializeTimesOut(s: State, g: nat): State
    requires g < |s.chains| == |s.expired| && |s.chains[g]| > 0
    requires s.chains[g][0] in s.turns && s.turns[s.chains[g][0]].route.session < |s.sessions|
  {
    var u := s.chains[g][0];
    var r := s.turns[u].route;
    if u !in s.routes then PopTurn(s, g) else LoseRace(s, g, u, r)
  }

  /** Lines 557-576: the route is withdrawn, its id remembered and the client told. */
  function LoseRace(s: State, g: nat, u: Uid, r: Route): State
    requires r.session < |s.sessions| && g < |s.expired| && u in s.turns
  {
    var s0 := SetStage(TakeRoute(s, u, r, Expiring), u, TimedOut);
    Deliver(Expire(s0, g, u), u, r, TimeoutError)
  }

  /** Lines 596-615: a message other than initialize, up to the await of `initializePromise`. */
  function OnMessageArrives(s: State, i: Sid, m: Message): State
    requires i < |s.sessions|
  {
    if !Live(s, i, s.current) then s
    else match m
      case ClientResponse => FailClosed(s, s.sessions[i].gen)
      case Malformed => FailClosed(s, s.sessions[i].gen)
      case Notification => s.(waiting := s.waiting + [Waiting(i, m)])
      case Request(id, _) => s.(waiting := s.waiting + [Waiting(i, m)], received := s.received + {(i, id)})
  }

  function Dequeue(s: State, k: nat): (t: State)
    requires k < |s.waiting|
    ensures t.lost == s.lost && |t.sessions| == |s.sessions|
  {
    s.(waiting := s.waiting[..k] + s.waiting[k + 1..])
  }

  function IssueRequest(s: State, u: Uid, r: Route): (t: State)
    ensures t.lost == s.lost && |t.sessions| == |s.sessions|
  {
    s.(issued := s.issued[u := TicketOf(r)])
  }

  /** Lines 622-655: a request is routed and sent; `ok` is the outcome of `upstream.send`. */
  function ForwardRequest(s: State, u: Uid, r: Route, ok: bool): State
    requires r.session < |s.sessions|
  {
    if r.downstreamId in s.sessions[r.session].pending then FailClosed(s, r.gen)
    else if ok then
      AddSend(InstallRoute(IssueRequest(s, u, r), u, r), Sent(r.gen, r.session, false, Some(u)))
    else Fault(Report(IssueRequest(s, u, r), u, r))
  }

  /** Lines 616-655: the rest of `forward`. */
  function OnForwardResumes(s: State, k: nat, u: Uid, ok: bool): State
    requires k < |s.waiting| && s.waiting[k].session < |s.sessions|
  {
    var Waiting(i, m) := s.waiting[k];
    var s0 := Dequeue(s, k);
    if !s.sessions[i].upstreamInitialized || !Live(s, i, s.current) then s0
    else if m.Request? then ForwardRequest(s0, u, Route(s.current, i, m.id, false, m.governed, None, false), ok)
    else if ok then AddSend(s0, Sent(s.current, i, false, None))
    else Fault(s0)
  }

  /** Lines 681-742: an executor response, up to its first await. */
  function OnExecutorResponds(s: State, g: nat, u: Uid, response: Response): State
    requires g < |s.expired|
    requires u in s.routes ==> s.routes[u].session < |s.sessions|
  {
    if u in s.expired[g] then Unexpire(s, g, u)
    else if u !in s.routes || s.routes[u].gen != g then FailClosed(s, g)
    else AnswerRoute(s, u, s.routes[u], response)
  }

  /** Lines 687-742: the answer to a routed request. */
  function AnswerRoute(s: State, u: Uid, r: Route, response: Response): State
    requires r.session < |s.sessions|
  {
    var s0 := AddResponse(s, u, response);
    if s.sessions[r.session].closed then
      var s1 := DropRoute(s0, u, r);
      if r.initialize then ResolveIn(s1, r.session, false) else s1
    else if r.initialize && r.challenge.Some? && response.proof != r.challenge then
      Deliver(TakeRoute(s0, u, r, Rejecting), u, r, IdentityError)
    else if r.initialize && r.bootstrap then TakeRoute(s0, u, r, Completing(response))
    else Deliver(TakeRoute(s0, u, r, Answering(response)), u, r, Answer(response))
  }

  /** Lines 713-742: ACS settled `completeRuntimeBootstrap`. */
  function OnBootstrapCompleted(s: State, u: Uid, ok: bool): State
    requires u in s.inflight && s.inflight[u].task.Completing?
  {
    var Job(r, task) := s.inflight[u];
    if ok then Deliver(StartJob(s, u, r, Answering(task.response)), u, r, Answer(task.response))
    else Deliver(StartJob(s, u, r, Rejecting), u, r, BootstrapError)
  }

  /** Lines 748-751: the session's initialize has been answered. */
  function Accept(s: State, u: Uid, r: Route, response: Response): (t: State)
    requires r.session < |s.sessions|
    ensures t.lost == s.lost && |t.sessions| == |s.sessions|
  {
    var x := s.sessions[r.session];
    EndJob(s, u).(
      sessions := s.sessions[r.session := Resolve(x.(upstreamInitialized := true), true)],
      accepted := s.accepted[r.session := Handshake(u, r.challenge, response.proof)])
  }

  function CloseIn(s: State, i: Sid): (t: State)
    requires i < |s.sessions|
    ensures t.lost == s.lost && |t.sessions| == |s.sessions|
  {
    s.(sessions := s.sessions[i := CloseSession(s.sessions[i])])
  }

  /** Lines 748-754: the executor's response was delivered. */
  function OnDelivered(s: State, u: Uid, r: Route, response: Response): State
    requires r.session < |s.sessions|
  {
    if r.initialize && !s.sessions[r.session].closed then Accept(s, u, r, response)
    else FinishJob(s, u, if r.governed then s.reports + multiset{u} else s.reports, s.lost)
  }

  /** Lines 743-746: the executor's response could not be delivered. */
  function OnUndeliverable(s: State, u: Uid, r: Route): State
    requires r.session < |s.sessions|
  {
    var t := FinishJob(s, u, s.reports, if r.governed then s.lost + {u} else s.lost);
    FailClosed(if r.initialize then ResolveIn(t, r.session, false) else t, r.gen)
  }

  /** What follows `await session.transport.send(...)` in each handler that performs one. */
  function OnSendSettles(s: State, u: Uid, ok: bool): State
    requires u in s.inflight && s.inflight[u].route.session < |s.sessions|
  {
    var Job(r, task) := s.inflight[u];
    match task
    case RefusingSetup => if ok then ResolveIn(EndJob(s, u), r.session, false) else Fault(EndJob(s, u))
    case Rejecting =>
      if ok then ResolveIn(EndJob(s, u), r.session, false)
      else ResolveIn(FailClosed(EndJob(s, u), r.gen), r.session, false)
    case Expiring => CloseIn(EndJob(s, u), r.session)
    case Answering(response) => if ok then OnDelivered(s, u, r, response) else OnUndeliverable(s, u, r)
    case _ => s
  }

  function PendingRoutes(s: State, i: Sid): set<Uid>
    requires i < |s.sessions|
  {
    set k | k in s.sessions[i].pending && s.sessions[i].pending[k] in s.routes :: s.sessions[i].pending[k]
  }

  /** Lines 812-822. */
  function OnClientCloses(s: State, i: Sid): State
    requires i < |s.sessions|
  {
    var dropped := PendingRoutes(s, i);
    s.(sessions := s.sessions[i := CloseSession(s.sessions[i]).(pending := map[])],
       routes := s.routes - dropped,
       reports := s.reports + multiset(set u | u in dropped && s.routes[u].governed))
  }

  function Respawn(s: State): (t: State)
    ensures t.lost == s.lost && |t.sessions| == |s.sessions|
  {
    s.(current := s.current + 1, expired := s.expired + [[]], chains := s.chains + [[]])
  }

  /** Lines 762-768. */
  function OnExecutorCloses(s: State, g: nat): State {
    if g != s.current then s
    else if s.stopping then FailClosed(s, g)
    else Respawn(FailClosed(s, g))
  }

  // ---- The transition system -----------------------------------------------------------------

  ghost predicate SentTo(s: State, g: nat, u: Uid) {
    exists k :: 0 <= k < |s.sends| && s.sends[k].gen == g && s.sends[k].uid == Some(u)
  }

  ghost predicate HasJob(s: State, u: Uid) {
    u in s.inflight && s.inflight[u].route.session < |s.sessions| && s.inflight[u].route.gen < |s.chains|
  }

  ghost function HeadTurn(s: State, g: nat): Turn
    requires HasTurn(s, g)
  {
    s.turns[s.chains[g][0]]
  }

  /**
   When an event can happen.  Random ids are fresh; the SDK admits one initialize per session; an
   executor cannot name an id it has not been sent, though it may answer twice or invent ids.
   */
  ghost predicate Enabled(s: State, e: Event) {
    match e
    case Connect => true
    case InitializeArrives(i, _, u, _, _) =>
      i < |s.sessions| && s.sessions[i].gen < |s.chains| && s.sessions[i].promise.Absent? && u !in s.issued
    case BootstrapIssued(u, _) => HasJob(s, u) && s.inflight[u].task.Issuing?
    case TurnStarts(g) => HasTurn(s, g) && HeadTurn(s, g).stage.Queued?
    case TurnSends(g, _) => HasTurn(s, g) && HeadTurn(s, g).stage.Starting?
    case TurnEnds(g) =>
      && HasTurn(s, g) && !s.sessions[HeadTurn(s, g).route.session].promise.Unsettled?
      && (HeadTurn(s, g).stage.Racing? || HeadTurn(s, g).stage.TimedOut?)
    case InitializeTimesOut(g) =>
      && HasTurn(s, g) && s.sessions[HeadTurn(s, g).route.session].promise.Unsettled?
      && HeadTurn(s, g).stage.Racing?
    case MessageArrives(i, _) => i < |s.sessions|
    case ForwardResumes(k, u, _) =>
      && k < |s.waiting| && s.waiting[k].session < |s.sessions| && u !in s.issued
      && !s.sessions[s.waiting[k].session].promise.Unsettled?
    case ExecutorResponds(g, u, _) =>
      && g < |s.expired| && (u in s.routes ==> s.routes[u].session < |s.sessions|)
      && (u in s.issued ==> SentTo(s, g, u))
    case BootstrapCompleted(u, _) => u in s.inflight && s.inflight[u].task.Completing?
    case SendSettles(u, _) => HasJob(s, u) && !s.inflight[u].task.Issuing? && !s.inflight[u].task.Completing?
    case ExecutorRequests(g) => g <= s.current
    case ClientCloses(i) => i < |s.sessions|
    case ExecutorCloses(g) => g <= s.current
    case ForwardFaults => s.faults > 0
    case ShutsDown => !s.stopping
  }

  ghost function Step(s: State, e: Event): State
    requires Enabled(s, e)
  {
    match e
    case Connect => OnConnect(s)
    case InitializeArrives(i, id, u, carried, setup) => OnInitializeArrives(s, i, id, u, carried, setup)
    case BootstrapIssued(u, challenge) => OnBootstrapIssued(s, u, challenge)
    case TurnStarts(g) => OnTurnStarts(s, g)
    case TurnSends(g, ok) => OnTurnSends(s, g, ok)
    case TurnEnds(g) => PopTurn(s, g)
    case InitializeTimesOut(g) => OnInitializeTimesOut(s, g)
    case MessageArrives(i, m) => OnMessageArrives(s, i, m)
    case ForwardResumes(k, u, ok) => OnForwardResumes(s, k, u, ok)
    case ExecutorResponds(g, u, response) => OnExecutorResponds(s, g, u, response)
    case BootstrapCompleted(u, ok) => OnBootstrapCompleted(s, u, ok)
    case SendSettles(u, ok) => OnSendSettles(s, u, ok)
    case ExecutorRequests(g) => FailClosed(s, g)
    case ClientCloses(i) => OnClientCloses(s, i)
    case ExecutorCloses(g) => OnExecutorCloses(s, g)
    case ForwardFaults => FailClosed(s.(faults := s.faults - 1), s.current)
    case ShutsDown => FailClosed(s.(stopping := true), s.current)
  }

  ghost predicate IsRun(s: State, es: seq<Event>)
    decreases |es|
  {
    es == [] || (Enabled(s, es[0]) && IsRun(Step(s, es[0]), es[1..]))
  }

  ghost function After(s: State, es: seq<Event>): State
    requires IsRun(s, es)
    decreases |es|
  {
    if es == [] then s else After(Step(s, es[0]), es[1..])
  }
}
