/**
 The inductive invariant of the multiplexer.  Each conjunct is a predicate over just the tables it
 speaks about, so an operation that leaves those tables alone keeps it.
 */
module BridgeInvariant {
  import opened Basics
  import opened BridgeState

  type Routes = map<Uid, Route>
  type Jobs = map<Uid, Job>
  type Tickets = map<Uid, Ticket>
  type Inits = map<Sid, Initialize>

  ghost predicate Shape(current: nat, expired: seq<seq<Uid>>, chains: seq<seq<Uid>>) {
    |expired| == |chains| == current + 1
  }

  /** Open sessions are exactly the listed ones, and all belong to the current executor. */
  ghost predicate SessionsOk(current: nat, sessions: seq<Session>) {
    forall i :: 0 <= i < |sessions| ==>
      && sessions[i].gen <= current
      && (sessions[i].listed <==> !sessions[i].closed)
      && (!sessions[i].closed ==> sessions[i].gen == current)
  }

  ghost predicate TicketsOk(sessions: seq<Session>, issued: Tickets, received: set<(Sid, RpcId)>, initOf: Inits) {
    && (forall u :: u in issued ==>
      && issued[u].session < |sessions|
      && issued[u].gen == sessions[issued[u].session].gen
      && (issued[u].session, issued[u].downstreamId) in received
      && (issued[u].initialize ==> !issued[u].governed && issued[u].session in initOf && initOf[issued[u].session].uid == u))
    && (forall i :: i in initOf ==>
      initOf[i].uid in issued && issued[initOf[i].uid].session == i && issued[initOf[i].uid].initialize)
  }

  ghost predicate AwaitsChallenge(inflight: Jobs, u: Uid) {
    u in inflight && inflight[u].task.Issuing?
  }

  ghost predicate PromisesOk(sessions: seq<Session>, routes: Routes, inflight: Jobs, initOf: Inits, accepted: map<Sid, Handshake>) {
    && (forall i :: 0 <= i < |sessions| ==>
      && (sessions[i].promise.Absent? <==> i !in initOf)
      && (sessions[i].promise.Settled? ==> initOf[i].uid !in routes)
      && (sessions[i].upstreamInitialized ==> sessions[i].promise.Settled? && initOf[i].uid !in inflight)
      && (sessions[i].upstreamInitialized <==> i in accepted))
    && (forall i :: i in accepted ==> i < |sessions|)
    && (forall i :: 0 <= i < |sessions| && i in initOf && AwaitsChallenge(inflight, initOf[i].uid) && !sessions[i].closed ==>
      sessions[i].promise.Unsettled?)
  }

  ghost predicate Names(issued: Tickets, u: Uid, r: Route) {
    u in issued && issued[u] == TicketOf(r)
  }

  /** An initialize past its challenge exchange carries the challenge of its own session. */
  ghost predicate Armed(managedDc: bool, initOf: Inits, r: Route) {
    r.initialize ==>
      r.session in initOf && r.challenge == initOf[r.session].challenge && (managedDc ==> r.challenge.Some?)
  }

  ghost predicate RoutesOk(managedDc: bool, routes: Routes, issued: Tickets, initOf: Inits) {
    forall u :: u in routes ==> Names(issued, u, routes[u]) && Armed(managedDc, initOf, routes[u])
  }

  ghost predicate Owned(sessions: seq<Session>, u: Uid, r: Route) {
    && r.session < |sessions|
    && !sessions[r.session].closed
    && r.downstreamId in sessions[r.session].pending
    && sessions[r.session].pending[r.downstreamId] == u
    && (!r.initialize ==> sessions[r.session].upstreamInitialized)
  }

  /** Every route is pending in an open session. */
  ghost predicate OwnersOk(sessions: seq<Session>, routes: Routes) {
    forall u :: u in routes ==> Owned(sessions, u, routes[u])
  }

  ghost predicate Routed(routes: Routes, i: Sid, k: RpcId, u: Uid) {
    u in routes && routes[u].session == i && routes[u].downstreamId == k
  }

  /** Everything pending in an open session is routed back to it; nothing of a closed session is routed. */
  ghost predicate PendingOk(sessions: seq<Session>, routes: Routes) {
    forall i, k :: 0 <= i < |sessions| && k in sessions[i].pending ==>
      if sessions[i].closed then sessions[i].pending[k] !in routes else Routed(routes, i, k, sessions[i].pending[k])
  }

  ghost predicate PendingNamed(sessions: seq<Session>, issued: Tickets) {
    forall i, k :: 0 <= i < |sessions| && k in sessions[i].pending ==>
      sessions[i].pending[k] in issued && issued[sessions[i].pending[k]].session == i
  }

  ghost predicate ExpiredOk(expired: seq<seq<Uid>>, issued: Tickets, routes: Routes) {
    && (forall g :: 0 <= g < |expired| ==> |expired[g]| <= MAX_EXPIRED && Distinct(expired[g]))
    && (forall g, u :: 0 <= g < |expired| && u in expired[g] ==> u in issued && u !in routes)
  }

  ghost predicate TurnsOk(managedDc: bool, turns: map<Uid, Turn>, issued: Tickets, initOf: Inits) {
    forall u :: u in turns ==>
      turns[u].route.initialize && Names(issued, u, turns[u].route) && Armed(managedDc, initOf, turns[u].route)
  }

  ghost predicate StagesOk(sessions: seq<Session>, turns: map<Uid, Turn>, routes: Routes, inflight: Jobs) {
    forall u :: u in turns && turns[u].route.session < |sessions| ==>
      && (turns[u].stage.Queued? ==>
        && u !in routes && u !in inflight
        && !sessions[turns[u].route.session].upstreamInitialized
        && (!sessions[turns[u].route.session].closed ==> sessions[turns[u].route.session].promise.Unsettled?))
      && (turns[u].stage.Starting? && !sessions[turns[u].route.session].closed ==> u in routes)
  }

  ghost predicate ChainsOk(chains: seq<seq<Uid>>, turns: map<Uid, Turn>) {
    && (forall g :: 0 <= g < |chains| ==> Distinct(chains[g]))
    && (forall g, k :: 0 <= g < |chains| && 0 <= k < |chains[g]| ==>
      chains[g][k] in turns && turns[chains[g][k]].route.gen == g && (k > 0 ==> turns[chains[g][k]].stage.Queued?))
  }

  ghost predicate Running(current: nat, chains: seq<seq<Uid>>, turns: map<Uid, Turn>, u: Uid) {
    && current < |chains| && |chains[current]| > 0 && chains[current][0] == u
    && u in turns && (turns[u].stage.Starting? || turns[u].stage.Racing?)
  }

  /** Only the initialize at the head of the current chain has a route. */
  ghost predicate HeadOk(current: nat, chains: seq<seq<Uid>>, turns: map<Uid, Turn>, routes: Routes) {
    forall u :: u in routes && routes[u].initialize ==> Running(current, chains, turns, u)
  }

  ghost predicate JobOk(managedDc: bool, u: Uid, job: Job, issued: Tickets, initOf: Inits, responses: map<Uid, Response>) {
    && Names(issued, u, job.route)
    && (!job.task.Answering? ==> job.route.initialize)
    && (!job.task.Issuing? && !job.task.RefusingSetup? ==> Armed(managedDc, initOf, job.route))
    && (job.task.Completing? || job.task.Answering? ==>
      && u in responses && responses[u] == job.task.response
      && (job.route.initialize && job.route.challenge.Some? ==> job.task.response.proof == job.route.challenge))
  }

  ghost predicate JobsOk(managedDc: bool, inflight: Jobs, issued: Tickets, initOf: Inits, responses: map<Uid, Response>) {
    forall u :: u in inflight ==> JobOk(managedDc, u, inflight[u], issued, initOf, responses)
  }

  ghost predicate JobsApart(inflight: Jobs, routes: Routes, turns: map<Uid, Turn>) {
    forall u :: u in inflight ==> u !in routes && (inflight[u].task.Issuing? ==> u !in turns)
  }

  ghost predicate NeverSent(sends: seq<Sent>, u: Uid) {
    forall k :: 0 <= k < |sends| ==> sends[k].uid != Some(u)
  }

  ghost predicate Unseen(sends: seq<Sent>, expired: seq<seq<Uid>>, u: Uid) {
    NeverSent(sends, u) && (forall g :: 0 <= g < |expired| ==> u !in expired[g])
  }

  ghost predicate UnsentOk(sends: seq<Sent>, expired: seq<seq<Uid>>, turns: map<Uid, Turn>, inflight: Jobs) {
    && (forall u :: u in turns && (turns[u].stage.Queued? || turns[u].stage.Starting?) ==> Unseen(sends, expired, u))
    && (forall u :: u in inflight && inflight[u].task.Issuing? ==> Unseen(sends, expired, u))
  }

  ghost predicate NeverDelivered(deliveries: seq<Delivery>, u: Uid) {
    forall k :: 0 <= k < |deliveries| ==> deliveries[k].uid != u
  }

  ghost predicate UndeliveredOk(deliveries: seq<Delivery>, routes: Routes, turns: map<Uid, Turn>, inflight: Jobs) {
    && (forall u :: u in routes ==> NeverDelivered(deliveries, u))
    && (forall u :: u in turns && turns[u].stage.Queued? ==> NeverDelivered(deliveries, u))
    && (forall u :: u in inflight && (inflight[u].task.Issuing? || inflight[u].task.Completing?) ==>
      NeverDelivered(deliveries, u))
  }

  ghost predicate DeliveriesOk(deliveries: seq<Delivery>, issued: Tickets, responses: map<Uid, Response>) {
    && (forall k :: 0 <= k < |deliveries| ==>
      && deliveries[k].uid in issued
      && issued[deliveries[k].uid].session == deliveries[k].session
      && issued[deliveries[k].uid].downstreamId == deliveries[k].downstreamId
      && (deliveries[k].reply.Answer? ==>
        deliveries[k].uid in responses && responses[deliveries[k].uid] == deliveries[k].reply.response))
    && (forall a, b :: 0 <= a < b < |deliveries| ==> deliveries[a].uid != deliveries[b].uid)
  }

  function One(b: bool): nat { if b then 1 else 0 }

  /** A governed call is in exactly one place: routed, being answered, reported once, or undeliverable. */
  ghost predicate ReportsOk(issued: Tickets, routes: Routes, inflight: Jobs, reports: multiset<Uid>, lost: set<Uid>) {
    && (forall u :: u in issued && issued[u].governed ==>
      One(u in routes) + One(u in inflight) + reports[u] + One(u in lost) == 1)
    && (forall u :: u in reports || u in lost ==> u in issued && issued[u].governed)
  }

  ghost predicate SendsOk(sends: seq<Sent>, sessions: seq<Session>, issued: Tickets, accepted: map<Sid, Handshake>) {
    forall k :: 0 <= k < |sends| ==>
      && sends[k].session < |sessions| && sends[k].gen == sessions[sends[k].session].gen
      && (sends[k].uid.Some? ==> sends[k].uid.value in issued && issued[sends[k].uid.value].session == sends[k].session)
      && (!sends[k].initialize ==> sends[k].session in accepted)
  }

  ghost predicate AcceptedOk(managedDc: bool, accepted: map<Sid, Handshake>, initOf: Inits, responses: map<Uid, Response>) {
    forall i :: i in accepted ==>
      && i in initOf && initOf[i] == Initialize(accepted[i].uid, accepted[i].expected)
      && accepted[i].uid in responses && responses[accepted[i].uid].proof == accepted[i].proof
      && (accepted[i].expected.Some? ==> accepted[i].proof == accepted[i].expected)
      && (managedDc ==> accepted[i].expected.Some?)
  }

  ghost predicate WaitingOk(waiting: seq<Waiting>, sessions: seq<Session>, received: set<(Sid, RpcId)>) {
    forall k :: 0 <= k < |waiting| ==>
      && waiting[k].session < |sessions|
      && (waiting[k].message.Request? ==> (waiting[k].session, waiting[k].message.id) in received)
  }

  ghost predicate Invariant(s: State) {
    && Shape(s.current, s.expired, s.chains)
    && SessionsOk(s.current, s.sessions)
    && TicketsOk(s.sessions, s.issued, s.received, s.initOf)
    && PromisesOk(s.sessions, s.routes, s.inflight, s.initOf, s.accepted)
    && RoutesOk(s.managedDc, s.routes, s.issued, s.initOf)
    && OwnersOk(s.sessions, s.routes)
    && PendingOk(s.sessions, s.routes)
    && PendingNamed(s.sessions, s.issued)
    && ExpiredOk(s.expired, s.issued, s.routes)
    && TurnsOk(s.managedDc, s.turns, s.issued, s.initOf)
    && StagesOk(s.sessions, s.turns, s.routes, s.inflight)
    && ChainsOk(s.chains, s.turns)
    && HeadOk(s.current, s.chains, s.turns, s.routes)
    && JobsOk(s.managedDc, s.inflight, s.issued, s.initOf, s.responses)
    && JobsApart(s.inflight, s.routes, s.turns)
    && UnsentOk(s.sends, s.expired, s.turns, s.inflight)
    && UndeliveredOk(s.deliveries, s.routes, s.turns, s.inflight)
    && DeliveriesOk(s.deliveries, s.issued, s.responses)
    && ReportsOk(s.issued, s.routes, s.inflight, s.reports, s.lost)
    && SendsOk(s.sends, s.sessions, s.issued, s.accepted)
    && AcceptedOk(s.managedDc, s.accepted, s.initOf, s.responses)
    && WaitingOk(s.waiting, s.sessions, s.received)
  }

  lemma InitialInvariant(managedDc: bool)
    ensures Invariant(Initial(managedDc))
  {
  }

  // ---- Consequences used below ------------------------------------------------------------------

  lemma InitializeIsUnique(s: State, u: Uid, r: Route)
    requires Invariant(s) && Names(s.issued, u, r)
    ensures r.session < |s.sessions| && r.gen == s.sessions[r.session].gen
    ensures (r.session, r.downstreamId) in s.received
    ensures r.initialize ==> !r.governed && r.session in s.initOf && s.initOf[r.session].uid == u
  {
    hide Shape, SessionsOk, PromisesOk, RoutesOk, OwnersOk, PendingOk, PendingNamed, ExpiredOk, TurnsOk,
         StagesOk, ChainsOk, HeadOk, JobsOk, JobsApart, UnsentOk, UndeliveredOk, DeliveriesOk, ReportsOk,
         SendsOk, AcceptedOk, WaitingOk;
  }

  lemma TicketsAreUnique(s: State, u: Uid)
    requires Invariant(s) && u in s.issued && s.issued[u].initialize
    ensures forall v :: v in s.issued && s.issued[v].initialize && s.issued[v].session == s.issued[u].session ==> v == u
  {
    hide Shape, SessionsOk, PromisesOk, RoutesOk, OwnersOk, PendingOk, PendingNamed, ExpiredOk, TurnsOk,
         StagesOk, ChainsOk, HeadOk, JobsOk, JobsApart, UnsentOk, UndeliveredOk, DeliveriesOk, ReportsOk,
         SendsOk, AcceptedOk, WaitingOk;
  }

  lemma TurnsAreUnique(s: State, i: Sid)
    requires Invariant(s)
    ensures forall u :: u in s.turns && s.turns[u].route.session == i ==> i in s.initOf && s.initOf[i].uid == u
  {
    hide Shape, SessionsOk, PromisesOk, RoutesOk, OwnersOk, PendingOk, PendingNamed, ExpiredOk, StagesOk,
         ChainsOk, HeadOk, JobsOk, JobsApart, UnsentOk, UndeliveredOk, DeliveriesOk, ReportsOk, SendsOk,
         AcceptedOk, WaitingOk;
  }

  lemma TurnsHaveSessions(s: State)
    requires Invariant(s)
    ensures forall u :: u in s.turns ==> s.turns[u].route.session < |s.sessions|
  {
    hide Shape, SessionsOk, PromisesOk, RoutesOk, OwnersOk, PendingOk, PendingNamed, ExpiredOk, StagesOk,
         ChainsOk, HeadOk, JobsOk, JobsApart, UnsentOk, UndeliveredOk, DeliveriesOk, ReportsOk, SendsOk,
         AcceptedOk, WaitingOk;
  }

  lemma InitializeExists(s: State, i: Sid)
    requires Invariant(s) && i in s.initOf
    ensures i < |s.sessions| && s.initOf[i].uid in s.issued
    ensures s.issued[s.initOf[i].uid].session == i && s.issued[s.initOf[i].uid].initialize
  {
    hide Shape, SessionsOk, PromisesOk, RoutesOk, OwnersOk, PendingOk, PendingNamed, ExpiredOk, TurnsOk,
         StagesOk, ChainsOk, HeadOk, JobsOk, JobsApart, UnsentOk, UndeliveredOk, DeliveriesOk, ReportsOk,
         SendsOk, AcceptedOk, WaitingOk;
  }

  /** `y` is `x` with perhaps fewer pending requests. */
  ghost predicate Shrinks(x: Session, y: Session) {
    y.gen == x.gen && forall k :: k in y.pending ==> k in x.pending && x.pending[k] == y.pending[k]
  }

  /** Tickets, sends and waiting messages depend on sessions only through `gen`. */
  lemma GensSuffice(s: State, sessions: seq<Session>)
    requires Invariant(s)
    requires |s.sessions| <= |sessions|
    requires forall i :: 0 <= i < |s.sessions| ==> sessions[i].gen == s.sessions[i].gen
    ensures TicketsOk(sessions, s.issued, s.received, s.initOf)
    ensures SendsOk(s.sends, sessions, s.issued, s.accepted)
    ensures WaitingOk(s.waiting, sessions, s.received)
  {
    hide Shape, SessionsOk, PromisesOk, RoutesOk, OwnersOk, PendingOk, PendingNamed, ExpiredOk, TurnsOk,
         StagesOk, ChainsOk, HeadOk, JobsOk, JobsApart, UnsentOk, UndeliveredOk, DeliveriesOk, ReportsOk,
         AcceptedOk;
  }

  lemma ShrinkingSuffices(s: State, sessions: seq<Session>)
    requires Invariant(s)
    requires |s.sessions| <= |sessions|
    requires forall i :: 0 <= i < |s.sessions| ==> Shrinks(s.sessions[i], sessions[i])
    requires forall i :: |s.sessions| <= i < |sessions| ==> sessions[i].pending == map[]
    ensures TicketsOk(sessions, s.issued, s.received, s.initOf)
    ensures SendsOk(s.sends, sessions, s.issued, s.accepted)
    ensures WaitingOk(s.waiting, sessions, s.received)
    ensures PendingNamed(sessions, s.issued)
  {
    hide Shape, SessionsOk, TicketsOk, PromisesOk, RoutesOk, OwnersOk, PendingOk, ExpiredOk, TurnsOk,
         StagesOk, ChainsOk, HeadOk, JobsOk, JobsApart, UnsentOk, UndeliveredOk, DeliveriesOk, ReportsOk,
         SendsOk, AcceptedOk, WaitingOk;
    GensSuffice(s, sessions);
  }

  // ---- Sessions ---------------------------------------------------------------------------------

  lemma ConnectSessions(s: State)
    requires Invariant(s)
    ensures var t := OnConnect(s);
      && SessionsOk(t.current, t.sessions)
      && PromisesOk(t.sessions, t.routes, t.inflight, t.initOf, t.accepted)
  {
    hide Shape, TicketsOk, RoutesOk, OwnersOk, PendingOk, PendingNamed, ExpiredOk, TurnsOk, StagesOk,
         ChainsOk, HeadOk, JobsOk, JobsApart, UnsentOk, UndeliveredOk, DeliveriesOk, ReportsOk, SendsOk,
         AcceptedOk, WaitingOk;
    if |s.sessions| in s.initOf { InitializeExists(s, |s.sessions|); }
  }

  lemma ConnectTables(s: State)
    requires Invariant(s)
    ensures var t := OnConnect(s);
      && OwnersOk(t.sessions, t.routes)
      && PendingOk(t.sessions, t.routes)
      && StagesOk(t.sessions, t.turns, t.routes, t.inflight)
  {
    hide Shape, SessionsOk, TicketsOk, PromisesOk, RoutesOk, PendingNamed, ExpiredOk, TurnsOk, ChainsOk,
         HeadOk, JobsOk, JobsApart, UnsentOk, UndeliveredOk, DeliveriesOk, ReportsOk, SendsOk, AcceptedOk,
         WaitingOk;
    TurnsHaveSessions(s);
  }

  lemma ConnectKeeps(s: State)
    requires Invariant(s)
    ensures Invariant(OnConnect(s))
  {
    hide Shape, SessionsOk, TicketsOk, PromisesOk, RoutesOk, OwnersOk, PendingOk, PendingNamed, ExpiredOk,
         TurnsOk, StagesOk, ChainsOk, HeadOk, JobsOk, JobsApart, UnsentOk, UndeliveredOk, DeliveriesOk,
         ReportsOk, SendsOk, AcceptedOk, WaitingOk;
    ShrinkingSuffices(s, OnConnect(s).sessions);
    ConnectSessions(s);
    ConnectTables(s);
  }

  lemma FaultUnroutes(s: State, g: nat)
    requires Invariant(s)
    ensures forall i :: i in s.initOf && s.initOf[i].uid in FailClosed(s, g).routes ==>
      i < |s.sessions| && s.sessions[i].gen != g
  {
    hide Shape, SessionsOk, TicketsOk, PromisesOk, OwnersOk, PendingOk, PendingNamed, ExpiredOk, TurnsOk,
         StagesOk, ChainsOk, HeadOk, JobsOk, JobsApart, UnsentOk, UndeliveredOk, DeliveriesOk, ReportsOk,
         SendsOk, AcceptedOk, WaitingOk;
    forall i | i in s.initOf && s.initOf[i].uid in FailClosed(s, g).routes
      ensures i < |s.sessions| && s.sessions[i].gen != g
    {
      InitializeExists(s, i);
      InitializeIsUnique(s, s.initOf[i].uid, s.routes[s.initOf[i].uid]);
    }
  }

  lemma FaultPromises(s: State, g: nat)
    requires Invariant(s)
    ensures var t := FailClosed(s, g);
      PromisesOk(t.sessions, t.routes, t.inflight, t.initOf, t.accepted)
  {
    hide Shape, SessionsOk, TicketsOk, RoutesOk, OwnersOk, PendingOk, PendingNamed, ExpiredOk, TurnsOk,
         StagesOk, ChainsOk, HeadOk, JobsOk, JobsApart, UnsentOk, UndeliveredOk, DeliveriesOk, ReportsOk,
         SendsOk, AcceptedOk, WaitingOk;
    FaultUnroutes(s, g);
  }

  lemma FaultSessions(s: State, g: nat)
    requires Invariant(s)
    ensures SessionsOk(s.current, FailClosed(s, g).sessions)
  {
    hide Shape, TicketsOk, PromisesOk, RoutesOk, OwnersOk, PendingOk, PendingNamed, ExpiredOk, TurnsOk,
         StagesOk, ChainsOk, HeadOk, JobsOk, JobsApart, UnsentOk, UndeliveredOk, DeliveriesOk, ReportsOk,
         SendsOk, AcceptedOk, WaitingOk;
  }

  lemma FaultTables(s: State, g: nat)
    requires Invariant(s)
    ensures var t := FailClosed(s, g);
      && OwnersOk(t.sessions, t.routes)
      && PendingOk(t.sessions, t.routes)
  {
    hide Shape, TicketsOk, PromisesOk, PendingNamed, ExpiredOk, TurnsOk, StagesOk, ChainsOk, HeadOk, JobsOk,
         JobsApart, UnsentOk, UndeliveredOk, DeliveriesOk, ReportsOk, SendsOk, AcceptedOk, WaitingOk;
    forall u | u in s.routes ensures s.routes[u].session < |s.sessions| && s.routes[u].gen == s.sessions[s.routes[u].session].gen {
      InitializeIsUnique(s, u, s.routes[u]);
    }
  }

  lemma FaultTurns(s: State, g: nat)
    requires Invariant(s)
    ensures var t := FailClosed(s, g);
      && StagesOk(t.sessions, t.turns, t.routes, t.inflight)
      && HeadOk(t.current, t.chains, t.turns, t.routes)
      && ExpiredOk(t.expired, t.issued, t.routes)
      && JobsApart(t.inflight, t.routes, t.turns)
  {
    hide Shape, PromisesOk, OwnersOk, PendingOk, PendingNamed, ChainsOk, JobsOk, UnsentOk, UndeliveredOk,
         DeliveriesOk, ReportsOk, SendsOk, AcceptedOk, WaitingOk;
  }

  lemma FaultHistory(s: State, g: nat)
    requires Invariant(s)
    ensures var t := FailClosed(s, g);
      && RoutesOk(t.managedDc, t.routes, t.issued, t.initOf)
      && UndeliveredOk(t.deliveries, t.routes, t.turns, t.inflight)
      && ReportsOk(t.issued, t.routes, t.inflight, t.reports, t.lost)
  {
    hide Shape, SessionsOk, TicketsOk, PromisesOk, OwnersOk, PendingOk, PendingNamed, ExpiredOk, TurnsOk,
         StagesOk, ChainsOk, HeadOk, JobsOk, JobsApart, UnsentOk, DeliveriesOk, SendsOk, AcceptedOk,
         WaitingOk;
  }

  lemma FailClosedKeeps(s: State, g: nat)
    requires Invariant(s)
    ensures Invariant(FailClosed(s, g))
  {
    hide Shape, SessionsOk, TicketsOk, PromisesOk, RoutesOk, OwnersOk, PendingOk, PendingNamed, ExpiredOk,
         TurnsOk, StagesOk, ChainsOk, HeadOk, JobsOk, JobsApart, UnsentOk, UndeliveredOk, DeliveriesOk,
         ReportsOk, SendsOk, AcceptedOk, WaitingOk;
    FaultHistory(s, g);
    ShrinkingSuffices(s, FailClosed(s, g).sessions);
    FaultSessions(s, g);
    FaultPromises(s, g);
    FaultTables(s, g);
    FaultTurns(s, g);
  }

  /** The promise of session `i` may be settled: its initialize is neither routed nor about to be. */
  ghost predicate MaySettle(s: State, i: Sid) {
    && i < |s.sessions| && i in s.initOf && s.initOf[i].uid !in s.routes
    && (s.initOf[i].uid in s.turns && s.turns[s.initOf[i].uid].stage.Queued? ==> s.sessions[i].closed)
    && (AwaitsChallenge(s.inflight, s.initOf[i].uid) ==> s.sessions[i].closed)
  }

  /** Session `i` as it is after its promise settled and, if `close`, after it was closed. */
  function Finished(s: State, i: Sid, close: bool): seq<Session>
    requires i < |s.sessions|
  {
    if close then CloseIn(s, i).sessions else ResolveIn(s, i, false).sessions
  }

  lemma FinishSessions(s: State, i: Sid, close: bool)
    requires Invariant(s) && MaySettle(s, i)
    ensures SessionsOk(s.current, Finished(s, i, close))
    ensures PromisesOk(Finished(s, i, close), s.routes, s.inflight, s.initOf, s.accepted)
  {
    hide Shape, TicketsOk, RoutesOk, OwnersOk, PendingOk, PendingNamed, ExpiredOk, TurnsOk, StagesOk,
         ChainsOk, HeadOk, JobsOk, JobsApart, UnsentOk, UndeliveredOk, DeliveriesOk, ReportsOk, SendsOk,
         AcceptedOk, WaitingOk;
  }

  lemma FinishTables(s: State, i: Sid, close: bool)
    requires Invariant(s) && MaySettle(s, i)
    requires close ==> forall u :: u in s.routes ==> s.routes[u].session != i
    ensures OwnersOk(Finished(s, i, close), s.routes)
    ensures PendingOk(Finished(s, i, close), s.routes)
  {
    hide Shape, SessionsOk, TicketsOk, PromisesOk, RoutesOk, PendingNamed, ExpiredOk, TurnsOk, StagesOk,
         ChainsOk, HeadOk, JobsOk, JobsApart, UnsentOk, UndeliveredOk, DeliveriesOk, ReportsOk, SendsOk,
         AcceptedOk, WaitingOk;
  }

  lemma FinishTurns(s: State, i: Sid, close: bool)
    requires Invariant(s) && MaySettle(s, i)
    ensures StagesOk(Finished(s, i, close), s.turns, s.routes, s.inflight)
  {
    hide Shape, SessionsOk, TicketsOk, PromisesOk, RoutesOk, OwnersOk, PendingOk, PendingNamed, ExpiredOk,
         TurnsOk, ChainsOk, HeadOk, JobsOk, JobsApart, UnsentOk, UndeliveredOk, DeliveriesOk, ReportsOk,
         SendsOk, AcceptedOk, WaitingOk;
    TurnsAreUnique(s, i);
  }

  lemma ResolveKeeps(s: State, i: Sid)
    requires Invariant(s) && MaySettle(s, i)
    ensures Invariant(ResolveIn(s, i, false))
  {
    hide Shape, SessionsOk, TicketsOk, PromisesOk, RoutesOk, OwnersOk, PendingOk, PendingNamed, ExpiredOk,
         TurnsOk, StagesOk, ChainsOk, HeadOk, JobsOk, JobsApart, UnsentOk, UndeliveredOk, DeliveriesOk,
         ReportsOk, SendsOk, AcceptedOk, WaitingOk;
    ShrinkingSuffices(s, Finished(s, i, false));
    FinishSessions(s, i, false);
    FinishTables(s, i, false);
    FinishTurns(s, i, false);
  }

  lemma CloseKeeps(s: State, i: Sid)
    requires Invariant(s) && MaySettle(s, i)
    requires forall u :: u in s.routes ==> s.routes[u].session != i
    ensures Invariant(CloseIn(s, i))
  {
    hide Shape, SessionsOk, TicketsOk, PromisesOk, RoutesOk, OwnersOk, PendingOk, PendingNamed, ExpiredOk,
         TurnsOk, StagesOk, ChainsOk, HeadOk, JobsOk, JobsApart, UnsentOk, UndeliveredOk, DeliveriesOk,
         ReportsOk, SendsOk, AcceptedOk, WaitingOk;
    ShrinkingSuffices(s, Finished(s, i, true));
    FinishSessions(s, i, true);
    FinishTables(s, i, true);
    FinishTurns(s, i, true);
  }

  lemma ClientClosesSessions(s: State, i: Sid)
    requires Invariant(s) && i < |s.sessions|
    ensures var t := OnClientCloses(s, i);
      && SessionsOk(t.current, t.sessions)
      && PromisesOk(t.sessions, t.routes, t.inflight, t.initOf, t.accepted)
  {
    hide Shape, TicketsOk, RoutesOk, OwnersOk, PendingOk, PendingNamed, ExpiredOk, TurnsOk, StagesOk,
         ChainsOk, HeadOk, JobsOk, JobsApart, UnsentOk, UndeliveredOk, DeliveriesOk, ReportsOk, SendsOk,
         AcceptedOk, WaitingOk;
    if i in s.initOf { RoutesArePending(s, i); }
  }

  lemma RoutesArePending(s: State, i: Sid)
    requires Invariant(s) && i < |s.sessions| && i in s.initOf
    ensures s.initOf[i].uid in s.routes ==> s.initOf[i].uid in PendingRoutes(s, i)
  {
    hide Shape, SessionsOk, TicketsOk, PromisesOk, PendingOk, PendingNamed, ExpiredOk, TurnsOk, StagesOk,
         ChainsOk, HeadOk, JobsOk, JobsApart, UnsentOk, UndeliveredOk, DeliveriesOk, ReportsOk, SendsOk,
         AcceptedOk, WaitingOk;
    InitializeExists(s, i);
  }

  lemma ClientClosesTables(s: State, i: Sid)
    requires Invariant(s) && i < |s.sessions|
    ensures var t := OnClientCloses(s, i);
      && OwnersOk(t.sessions, t.routes)
      && PendingOk(t.sessions, t.routes)
  {
    hide Shape, SessionsOk, TicketsOk, PromisesOk, RoutesOk, PendingNamed, ExpiredOk, TurnsOk, StagesOk,
         ChainsOk, HeadOk, JobsOk, JobsApart, UnsentOk, UndeliveredOk, DeliveriesOk, ReportsOk, SendsOk,
         AcceptedOk, WaitingOk;
  }

  lemma ClientClosesTurns(s: State, i: Sid)
    requires Invariant(s) && i < |s.sessions|
    ensures var t := OnClientCloses(s, i);
      && StagesOk(t.sessions, t.turns, t.routes, t.inflight)
      && HeadOk(t.current, t.chains, t.turns, t.routes)
      && JobsApart(t.inflight, t.routes, t.turns)
  {
    hide Shape, SessionsOk, TicketsOk, PromisesOk, OwnersOk, PendingNamed, ExpiredOk, ChainsOk, JobsOk,
         UnsentOk, UndeliveredOk, DeliveriesOk, ReportsOk, SendsOk, AcceptedOk, WaitingOk;
    TurnsAreUnique(s, i);
    forall u | u in s.turns && u in PendingRoutes(s, i) && !s.sessions[i].closed ensures s.turns[u].route.session == i {
      InitializeIsUnique(s, u, s.routes[u]);
      InitializeIsUnique(s, u, s.turns[u].route);
    }
  }

  lemma ClientClosesHistory(s: State, i: Sid)
    requires Invariant(s) && i < |s.sessions|
    ensures var t := OnClientCloses(s, i);
      && RoutesOk(t.managedDc, t.routes, t.issued, t.initOf)
      && ExpiredOk(t.expired, t.issued, t.routes)
      && UndeliveredOk(t.deliveries, t.routes, t.turns, t.inflight)
  {
    hide Shape, SessionsOk, TicketsOk, PromisesOk, OwnersOk, PendingOk, PendingNamed, TurnsOk, StagesOk,
         ChainsOk, HeadOk, JobsOk, JobsApart, UnsentOk, DeliveriesOk, ReportsOk, SendsOk, AcceptedOk,
         WaitingOk;
  }

  lemma ClientClosesReports(s: State, i: Sid)
    requires Invariant(s) && i < |s.sessions|
    ensures var t := OnClientCloses(s, i); ReportsOk(t.issued, t.routes, t.inflight, t.reports, t.lost)
  {
    hide Shape, SessionsOk, TicketsOk, PromisesOk, OwnersOk, PendingOk, PendingNamed, ExpiredOk, TurnsOk,
         StagesOk, ChainsOk, HeadOk, JobsOk, JobsApart, UnsentOk, UndeliveredOk, DeliveriesOk, SendsOk,
         AcceptedOk, WaitingOk;
  }

  lemma ClientClosesKeeps(s: State, i: Sid)
    requires Invariant(s) && i < |s.sessions|
    ensures Invariant(OnClientCloses(s, i))
  {
    hide Shape, SessionsOk, TicketsOk, PromisesOk, RoutesOk, OwnersOk, PendingOk, PendingNamed, ExpiredOk,
         TurnsOk, StagesOk, ChainsOk, HeadOk, JobsOk, JobsApart, UnsentOk, UndeliveredOk, DeliveriesOk,
         ReportsOk, SendsOk, AcceptedOk, WaitingOk;
    ShrinkingSuffices(s, OnClientCloses(s, i).sessions);
    ClientClosesSessions(s, i);
    ClientClosesTables(s, i);
    ClientClosesTurns(s, i);
    ClientClosesHistory(s, i);
    ClientClosesReports(s, i);
  }

  lemma RespawnKeeps(s: State)
    requires Invariant(s)
    requires forall i :: 0 <= i < |s.sessions| ==> s.sessions[i].closed
    ensures Invariant(Respawn(s))
  {
    hide TicketsOk, PromisesOk, RoutesOk, PendingOk, PendingNamed, TurnsOk, StagesOk, JobsOk, JobsApart,
         UndeliveredOk, DeliveriesOk, ReportsOk, SendsOk, AcceptedOk, WaitingOk;
  }

  // ---- Admission --------------------------------------------------------------------------------

  ghost predicate MayAdmit(s: State, u: Uid, r: Route) {
    && r.session < |s.sessions| && u !in s.issued && r.initialize && !r.governed
    && r.gen == s.sessions[r.session].gen && s.sessions[r.session].promise.Absent?
  }

  lemma AbsentHasNoInitialize(s: State, i: Sid)
    requires Invariant(s) && i < |s.sessions| && s.sessions[i].promise.Absent?
    ensures i !in s.initOf && i !in s.accepted && !s.sessions[i].upstreamInitialized
  {
    hide Shape, SessionsOk, TicketsOk, RoutesOk, OwnersOk, PendingOk, PendingNamed, ExpiredOk, TurnsOk,
         StagesOk, ChainsOk, HeadOk, JobsOk, JobsApart, UnsentOk, UndeliveredOk, DeliveriesOk, ReportsOk,
         SendsOk, AcceptedOk, WaitingOk;
  }

  lemma AdmitTickets(s: State, u: Uid, r: Route)
    requires Invariant(s) && MayAdmit(s, u, r)
    ensures var t := Admit(s, u, r); TicketsOk(t.sessions, t.issued, t.received, t.initOf)
  {
    hide Shape, SessionsOk, PromisesOk, RoutesOk, OwnersOk, PendingOk, PendingNamed, ExpiredOk, TurnsOk,
         StagesOk, ChainsOk, HeadOk, JobsOk, JobsApart, UnsentOk, UndeliveredOk, DeliveriesOk, ReportsOk,
         SendsOk, AcceptedOk, WaitingOk;
    AbsentHasNoInitialize(s, r.session);
  }

  lemma AdmitTraffic(s: State, u: Uid, r: Route)
    requires Invariant(s) && MayAdmit(s, u, r)
    ensures var t := Admit(s, u, r);
      && SendsOk(t.sends, t.sessions, t.issued, t.accepted)
      && WaitingOk(t.waiting, t.sessions, t.received)
      && PendingNamed(t.sessions, t.issued)
  {
    hide Shape, SessionsOk, TicketsOk, PromisesOk, RoutesOk, OwnersOk, PendingOk, ExpiredOk, TurnsOk,
         StagesOk, ChainsOk, HeadOk, JobsOk, JobsApart, UnsentOk, UndeliveredOk, DeliveriesOk, ReportsOk,
         AcceptedOk;
  }

  lemma AdmitSessions(s: State, u: Uid, r: Route)
    requires Invariant(s) && MayAdmit(s, u, r)
    ensures var t := Admit(s, u, r);
      && SessionsOk(t.current, t.sessions)
      && OwnersOk(t.sessions, t.routes)
      && PendingOk(t.sessions, t.routes)
      && StagesOk(t.sessions, t.turns, t.routes, t.inflight)
  {
    hide Shape, TicketsOk, PromisesOk, RoutesOk, PendingNamed, ExpiredOk, TurnsOk, ChainsOk, HeadOk, JobsOk,
         JobsApart, UnsentOk, UndeliveredOk, DeliveriesOk, ReportsOk, SendsOk, AcceptedOk, WaitingOk;
    AbsentHasNoInitialize(s, r.session);
    TurnsAreUnique(s, r.session);
  }

  lemma AdmitPromises(s: State, u: Uid, r: Route)
    requires Invariant(s) && MayAdmit(s, u, r)
    ensures var t := Admit(s, u, r); PromisesOk(t.sessions, t.routes, t.inflight, t.initOf, t.accepted)
  {
    hide Shape, SessionsOk, TicketsOk, RoutesOk, OwnersOk, PendingOk, PendingNamed, ExpiredOk, TurnsOk,
         StagesOk, ChainsOk, HeadOk, JobsOk, JobsApart, UnsentOk, UndeliveredOk, DeliveriesOk, ReportsOk,
         SendsOk, AcceptedOk, WaitingOk;
  }

  lemma AdmitAccepted(s: State, u: Uid, r: Route)
    requires Invariant(s) && MayAdmit(s, u, r)
    ensures var t := Admit(s, u, r); AcceptedOk(t.managedDc, t.accepted, t.initOf, t.responses)
  {
    hide Shape, SessionsOk, TicketsOk, RoutesOk, OwnersOk, PendingOk, PendingNamed, ExpiredOk, TurnsOk,
         StagesOk, ChainsOk, HeadOk, JobsOk, JobsApart, UnsentOk, UndeliveredOk, DeliveriesOk, ReportsOk,
         SendsOk, WaitingOk;
  }

  lemma AdmitRecords(s: State, u: Uid, r: Route)
    requires Invariant(s) && MayAdmit(s, u, r)
    ensures var t := Admit(s, u, r);
      && RoutesOk(t.managedDc, t.routes, t.issued, t.initOf)
      && TurnsOk(t.managedDc, t.turns, t.issued, t.initOf)
      && JobsOk(t.managedDc, t.inflight, t.issued, t.initOf, t.responses)
  {
    hide Shape, SessionsOk, TicketsOk, PromisesOk, OwnersOk, PendingOk, PendingNamed, ExpiredOk, StagesOk,
         ChainsOk, HeadOk, JobsApart, UnsentOk, UndeliveredOk, DeliveriesOk, ReportsOk, SendsOk, AcceptedOk,
         WaitingOk;
    AbsentHasNoInitialize(s, r.session);
  }

  lemma AdmitHistory(s: State, u: Uid, r: Route)
    requires Invariant(s) && MayAdmit(s, u, r)
    ensures var t := Admit(s, u, r);
      && ExpiredOk(t.expired, t.issued, t.routes)
      && DeliveriesOk(t.deliveries, t.issued, t.responses)
  {
    hide Shape, SessionsOk, TicketsOk, PromisesOk, OwnersOk, PendingOk, PendingNamed, TurnsOk, StagesOk,
         ChainsOk, HeadOk, JobsOk, JobsApart, UnsentOk, UndeliveredOk, ReportsOk, SendsOk, AcceptedOk,
         WaitingOk;
  }

  lemma AdmitReports(s: State, u: Uid, r: Route)
    requires Invariant(s) && MayAdmit(s, u, r)
    ensures var t := Admit(s, u, r); ReportsOk(t.issued, t.routes, t.inflight, t.reports, t.lost)
  {
    hide Shape, SessionsOk, TicketsOk, PromisesOk, OwnersOk, PendingOk, PendingNamed, ExpiredOk, TurnsOk,
         StagesOk, ChainsOk, HeadOk, JobsApart, UnsentOk, UndeliveredOk, DeliveriesOk, SendsOk, AcceptedOk,
         WaitingOk;
  }

  lemma AdmitKeeps(s: State, u: Uid, r: Route)
    requires Invariant(s) && MayAdmit(s, u, r)
    ensures Invariant(Admit(s, u, r))
  {
    hide Shape, SessionsOk, TicketsOk, PromisesOk, RoutesOk, OwnersOk, PendingOk, PendingNamed, ExpiredOk,
         TurnsOk, StagesOk, ChainsOk, HeadOk, JobsOk, JobsApart, UnsentOk, UndeliveredOk, DeliveriesOk,
         ReportsOk, SendsOk, AcceptedOk, WaitingOk;
    AdmitTickets(s, u, r);
    AdmitTraffic(s, u, r);
    AdmitSessions(s, u, r);
    AdmitPromises(s, u, r);
    AdmitAccepted(s, u, r);
    AdmitRecords(s, u, r);
    AdmitHistory(s, u, r);
    AdmitReports(s, u, r);
  }

  /** A fresh id is held nowhere. */
  lemma FreshIsNowhere(s: State, u: Uid)
    requires Invariant(s) && u !in s.issued
    ensures u !in s.routes && u !in s.turns && u !in s.inflight && u !in s.lost && u !in s.reports
    ensures Unseen(s.sends, s.expired, u) && NeverDelivered(s.deliveries, u)
    ensures forall g :: 0 <= g < |s.expired| ==> u !in s.expired[g]
  {
    hide Shape, SessionsOk, TicketsOk, PromisesOk, OwnersOk, PendingOk, PendingNamed, StagesOk, ChainsOk,
         HeadOk, JobsApart, UnsentOk, UndeliveredOk, AcceptedOk, WaitingOk;
  }

  // ---- Suspended handlers -----------------------------------------------------------------------

  ghost predicate MayStart(s: State, u: Uid, r: Route, task: Task) {
    && u !in s.routes && JobOk(s.managedDc, u, Job(r, task), s.issued, s.initOf, s.responses)
    && r.initialize && r.session !in s.accepted
    && (u in s.turns ==> !s.turns[u].stage.Queued? && !task.Issuing?)
    && (task.Issuing? ==> Unseen(s.sends, s.expired, u))
    && (task.Issuing? ==> r.session < |s.sessions| && s.sessions[r.session].promise.Unsettled?)
    && (task.Issuing? || task.Completing? ==> NeverDelivered(s.deliveries, u))
  }

  lemma StartJobPromises(s: State, u: Uid, r: Route, task: Task)
    requires Invariant(s) && MayStart(s, u, r, task)
    ensures var t := StartJob(s, u, r, task);
      PromisesOk(t.sessions, t.routes, t.inflight, t.initOf, t.accepted)
  {
    hide Shape, SessionsOk, TicketsOk, RoutesOk, OwnersOk, PendingOk, PendingNamed, ExpiredOk, TurnsOk,
         StagesOk, ChainsOk, HeadOk, JobsOk, JobsApart, UnsentOk, UndeliveredOk, DeliveriesOk, ReportsOk,
         SendsOk, AcceptedOk, WaitingOk;
    OnlyInitializer(s, u, r);
  }

  lemma OnlyInitializer(s: State, u: Uid, r: Route)
    requires Invariant(s) && Names(s.issued, u, r)
    ensures forall i :: i in s.initOf && s.initOf[i].uid == u ==> i == r.session
  {
    hide Shape, SessionsOk, PromisesOk, RoutesOk, OwnersOk, PendingOk, PendingNamed, ExpiredOk, TurnsOk,
         StagesOk, ChainsOk, HeadOk, JobsOk, JobsApart, UnsentOk, UndeliveredOk, DeliveriesOk, ReportsOk,
         SendsOk, AcceptedOk, WaitingOk;
  }

  lemma StartJobReports(s: State, u: Uid, r: Route, task: Task)
    requires Invariant(s) && MayStart(s, u, r, task)
    ensures var t := StartJob(s, u, r, task);
      ReportsOk(t.issued, t.routes, t.inflight, t.reports, t.lost)
  {
    hide Shape, SessionsOk, TicketsOk, PromisesOk, RoutesOk, OwnersOk, PendingOk, PendingNamed, ExpiredOk,
         TurnsOk, StagesOk, ChainsOk, HeadOk, JobsOk, JobsApart, UnsentOk, UndeliveredOk, DeliveriesOk,
         SendsOk, AcceptedOk, WaitingOk;
    InitializeIsUnique(s, u, r);
  }

  lemma StartJobKeeps(s: State, u: Uid, r: Route, task: Task)
    requires Invariant(s) && MayStart(s, u, r, task)
    ensures Invariant(StartJob(s, u, r, task))
  {
    hide Shape, SessionsOk, TicketsOk, PromisesOk, RoutesOk, OwnersOk, PendingOk, PendingNamed, ExpiredOk,
         TurnsOk, ChainsOk, HeadOk, DeliveriesOk, ReportsOk, SendsOk, AcceptedOk, WaitingOk;
    StartJobPromises(s, u, r, task);
    StartJobReports(s, u, r, task);
  }

  lemma DeliverKeeps(s: State, u: Uid, r: Route, reply: Reply)
    requires Invariant(s) && Names(s.issued, u, r) && NeverDelivered(s.deliveries, u)
    requires u !in s.routes && (u in s.turns ==> !s.turns[u].stage.Queued?)
    requires u in s.inflight ==> !s.inflight[u].task.Issuing? && !s.inflight[u].task.Completing?
    requires reply.Answer? ==> u in s.responses && s.responses[u] == reply.response
    ensures Invariant(Deliver(s, u, r, reply))
  {
    hide Shape, SessionsOk, TicketsOk, PromisesOk, RoutesOk, OwnersOk, PendingOk, PendingNamed, ExpiredOk,
         TurnsOk, StagesOk, ChainsOk, HeadOk, JobsOk, JobsApart, UnsentOk, ReportsOk, SendsOk, AcceptedOk,
         WaitingOk;
  }

  /** A handler finishes; a governed call must be reported or declared undeliverable as it does. */
  ghost predicate Finishes(s: State, u: Uid, reports: multiset<Uid>, lost: set<Uid>) {
    && u in s.inflight
    && if s.inflight[u].route.governed then
         (reports == s.reports + multiset{u} && lost == s.lost) || (reports == s.reports && lost == s.lost + {u})
       else reports == s.reports && lost == s.lost
  }

  lemma EndJobReports(s: State, u: Uid, reports: multiset<Uid>, lost: set<Uid>)
    requires Invariant(s) && Finishes(s, u, reports, lost)
    ensures ReportsOk(s.issued, s.routes, s.inflight - {u}, reports, lost)
  {
    hide Shape, SessionsOk, TicketsOk, PromisesOk, RoutesOk, OwnersOk, PendingOk, PendingNamed, ExpiredOk,
         TurnsOk, StagesOk, ChainsOk, HeadOk, UnsentOk, UndeliveredOk, DeliveriesOk, SendsOk, AcceptedOk,
         WaitingOk;
  }

  lemma EndJobTables(s: State, u: Uid)
    requires Invariant(s)
    ensures PromisesOk(s.sessions, s.routes, s.inflight - {u}, s.initOf, s.accepted)
    ensures StagesOk(s.sessions, s.turns, s.routes, s.inflight - {u})
    ensures JobsOk(s.managedDc, s.inflight - {u}, s.issued, s.initOf, s.responses)
  {
    hide Shape, SessionsOk, TicketsOk, RoutesOk, OwnersOk, PendingOk, PendingNamed, ExpiredOk, TurnsOk,
         ChainsOk, HeadOk, JobsApart, UnsentOk, UndeliveredOk, DeliveriesOk, ReportsOk, SendsOk, AcceptedOk,
         WaitingOk;
  }

  lemma EndJobHistory(s: State, u: Uid)
    requires Invariant(s)
    ensures JobsApart(s.inflight - {u}, s.routes, s.turns)
    ensures UnsentOk(s.sends, s.expired, s.turns, s.inflight - {u})
    ensures UndeliveredOk(s.deliveries, s.routes, s.turns, s.inflight - {u})
  {
    hide Shape, SessionsOk, TicketsOk, PromisesOk, RoutesOk, OwnersOk, PendingOk, PendingNamed, ExpiredOk,
         TurnsOk, StagesOk, ChainsOk, HeadOk, JobsOk, DeliveriesOk, ReportsOk, SendsOk, AcceptedOk, WaitingOk;
  }

  lemma EndJobKeeps(s: State, u: Uid, reports: multiset<Uid>, lost: set<Uid>)
    requires Invariant(s) && Finishes(s, u, reports, lost)
    ensures Invariant(FinishJob(s, u, reports, lost))
  {
    hide Shape, SessionsOk, TicketsOk, PromisesOk, RoutesOk, OwnersOk, PendingOk, PendingNamed, ExpiredOk,
         TurnsOk, StagesOk, ChainsOk, HeadOk, JobsOk, JobsApart, UnsentOk, UndeliveredOk, DeliveriesOk,
         ReportsOk, SendsOk, AcceptedOk, WaitingOk;
    EndJobReports(s, u, reports, lost);
    EndJobTables(s, u);
    EndJobHistory(s, u);
  }

  lemma RechallengeKeeps(s: State, u: Uid, challenge: Option<Challenge>)
    requires Invariant(s) && u in s.issued && s.issued[u].initialize
    requires u !in s.routes && u !in s.turns && u !in s.inflight && s.issued[u].session !in s.accepted
    ensures Invariant(s.(initOf := s.initOf[s.issued[u].session := Initialize(u, challenge)]))
  {
    hide Shape, SessionsOk, TicketsOk, PromisesOk, RoutesOk, OwnersOk, PendingOk, PendingNamed, ExpiredOk,
         TurnsOk, StagesOk, ChainsOk, HeadOk, JobsOk, JobsApart, UnsentOk, UndeliveredOk, DeliveriesOk,
         ReportsOk, SendsOk, AcceptedOk, WaitingOk;
    RechallengeRecords(s, u, challenge);
    RechallengeSessions(s, u, challenge);
    RechallengeTickets(s, u, challenge);
  }

  lemma RechallengeRecords(s: State, u: Uid, challenge: Option<Challenge>)
    requires Invariant(s) && u in s.issued && s.issued[u].initialize
    requires u !in s.routes && u !in s.turns && u !in s.inflight && s.issued[u].session !in s.accepted
    ensures var initOf := s.initOf[s.issued[u].session := Initialize(u, challenge)];
      && RoutesOk(s.managedDc, s.routes, s.issued, initOf)
      && TurnsOk(s.managedDc, s.turns, s.issued, initOf)
      && JobsOk(s.managedDc, s.inflight, s.issued, initOf, s.responses)
  {
    hide Shape, SessionsOk, TicketsOk, PromisesOk, OwnersOk, PendingOk, PendingNamed, ExpiredOk, StagesOk,
         ChainsOk, HeadOk, JobsApart, UnsentOk, UndeliveredOk, DeliveriesOk, ReportsOk, SendsOk, AcceptedOk,
         WaitingOk;
    TicketsAreUnique(s, u);
  }

  lemma RechallengeSessions(s: State, u: Uid, challenge: Option<Challenge>)
    requires Invariant(s) && u in s.issued && s.issued[u].initialize && s.issued[u].session !in s.accepted
    ensures var initOf := s.initOf[s.issued[u].session := Initialize(u, challenge)];
      && PromisesOk(s.sessions, s.routes, s.inflight, initOf, s.accepted)
      && AcceptedOk(s.managedDc, s.accepted, initOf, s.responses)
  {
    hide Shape, SessionsOk, TicketsOk, RoutesOk, OwnersOk, PendingOk, PendingNamed, ExpiredOk, TurnsOk,
         StagesOk, ChainsOk, HeadOk, JobsOk, JobsApart, UnsentOk, UndeliveredOk, DeliveriesOk, ReportsOk,
         SendsOk, WaitingOk;
    TicketsAreUnique(s, u);
    RechallengeTickets(s, u, challenge);
  }

  lemma RechallengeTickets(s: State, u: Uid, challenge: Option<Challenge>)
    requires Invariant(s) && u in s.issued && s.issued[u].initialize
    ensures TicketsOk(s.sessions, s.issued, s.received, s.initOf[s.issued[u].session := Initialize(u, challenge)])
    ensures s.issued[u].session in s.initOf && s.initOf[s.issued[u].session].uid == u
  {
    hide Shape, SessionsOk, PromisesOk, RoutesOk, OwnersOk, PendingOk, PendingNamed, ExpiredOk, TurnsOk,
         StagesOk, ChainsOk, HeadOk, JobsOk, JobsApart, UnsentOk, UndeliveredOk, DeliveriesOk, ReportsOk,
         SendsOk, AcceptedOk, WaitingOk;
  }

  // ---- The initialize chain ---------------------------------------------------------------------

  ghost predicate MayEnqueue(s: State, u: Uid, r: Route) {
    && r.initialize && Names(s.issued, u, r) && Armed(s.managedDc, s.initOf, r) && r.gen < |s.chains|
    && u !in s.turns && u !in s.routes && u !in s.inflight
    && Unseen(s.sends, s.expired, u) && NeverDelivered(s.deliveries, u)
    && r.session < |s.sessions| && !s.sessions[r.session].upstreamInitialized
    && (!s.sessions[r.session].closed ==> s.sessions[r.session].promise.Unsettled?)
  }

  lemma EnqueueChains(s: State, u: Uid, r: Route)
    requires Invariant(s) && MayEnqueue(s, u, r)
    ensures var t := Enqueue(s, u, r);
      && ChainsOk(t.chains, t.turns)
      && HeadOk(t.current, t.chains, t.turns, t.routes)
      && Shape(t.current, t.expired, t.chains)
  {
    hide SessionsOk, TicketsOk, PromisesOk, RoutesOk, OwnersOk, PendingOk, PendingNamed, ExpiredOk, TurnsOk,
         StagesOk, JobsOk, JobsApart, UnsentOk, UndeliveredOk, DeliveriesOk, ReportsOk, SendsOk, AcceptedOk,
         WaitingOk;
  }

  lemma EnqueueTurns(s: State, u: Uid, r: Route)
    requires Invariant(s) && MayEnqueue(s, u, r)
    ensures var t := Enqueue(s, u, r);
      && TurnsOk(t.managedDc, t.turns, t.issued, t.initOf)
      && StagesOk(t.sessions, t.turns, t.routes, t.inflight)
  {
    hide Shape, SessionsOk, TicketsOk, PromisesOk, RoutesOk, OwnersOk, PendingOk, PendingNamed, ExpiredOk,
         ChainsOk, HeadOk, JobsOk, JobsApart, UnsentOk, UndeliveredOk, DeliveriesOk, ReportsOk, SendsOk,
         AcceptedOk, WaitingOk;
  }

  lemma EnqueueHistory(s: State, u: Uid, r: Route)
    requires Invariant(s) && MayEnqueue(s, u, r)
    ensures var t := Enqueue(s, u, r);
      && JobsApart(t.inflight, t.routes, t.turns)
      && UnsentOk(t.sends, t.expired, t.turns, t.inflight)
      && UndeliveredOk(t.deliveries, t.routes, t.turns, t.inflight)
  {
    hide Shape, SessionsOk, TicketsOk, PromisesOk, RoutesOk, OwnersOk, PendingOk, PendingNamed, ExpiredOk,
         TurnsOk, StagesOk, ChainsOk, HeadOk, JobsOk, DeliveriesOk, ReportsOk, SendsOk, AcceptedOk,
         WaitingOk;
  }

  lemma EnqueueKeeps(s: State, u: Uid, r: Route)
    requires Invariant(s) && MayEnqueue(s, u, r)
    ensures Invariant(Enqueue(s, u, r))
  {
    hide Shape, SessionsOk, TicketsOk, PromisesOk, RoutesOk, OwnersOk, PendingOk, PendingNamed, ExpiredOk,
         TurnsOk, StagesOk, ChainsOk, HeadOk, JobsOk, JobsApart, UnsentOk, UndeliveredOk, DeliveriesOk,
         ReportsOk, SendsOk, AcceptedOk, WaitingOk;
    EnqueueChains(s, u, r);
    EnqueueTurns(s, u, r);
    EnqueueHistory(s, u, r);
  }

  lemma PopChains(s: State, g: nat)
    requires Invariant(s) && HasTurn(s, g) && s.chains[g][0] !in s.routes
    ensures var t := PopTurn(s, g);
      && ChainsOk(t.chains, t.turns)
      && Shape(t.current, t.expired, t.chains)
  {
    hide SessionsOk, TicketsOk, PromisesOk, RoutesOk, OwnersOk, PendingOk, PendingNamed, ExpiredOk, TurnsOk,
         StagesOk, HeadOk, JobsOk, JobsApart, UnsentOk, UndeliveredOk, DeliveriesOk, ReportsOk, SendsOk,
         AcceptedOk, WaitingOk;
  }

  lemma PopHead(s: State, g: nat)
    requires Invariant(s) && HasTurn(s, g) && s.chains[g][0] !in s.routes
    ensures var t := PopTurn(s, g); HeadOk(t.current, t.chains, t.turns, t.routes)
  {
    hide Shape, SessionsOk, TicketsOk, PromisesOk, RoutesOk, OwnersOk, PendingOk, PendingNamed, ExpiredOk,
         TurnsOk, StagesOk, JobsOk, JobsApart, UnsentOk, UndeliveredOk, DeliveriesOk, ReportsOk, SendsOk,
         AcceptedOk, WaitingOk;
  }

  lemma PopKeeps(s: State, g: nat)
    requires Invariant(s) && HasTurn(s, g) && s.chains[g][0] !in s.routes
    ensures Invariant(PopTurn(s, g))
  {
    hide Shape, SessionsOk, TicketsOk, PromisesOk, RoutesOk, OwnersOk, PendingOk, PendingNamed, ExpiredOk,
         ChainsOk, HeadOk, JobsOk, DeliveriesOk, ReportsOk, SendsOk, AcceptedOk, WaitingOk;
    PopChains(s, g);
    PopHead(s, g);
  }

  ghost predicate MayBegin(s: State, g: nat) {
    HasTurn(s, g) && HeadTurn(s, g).stage.Queued? && Live(s, HeadTurn(s, g).route.session, g)
  }

  function Begin(s: State, u: Uid, r: Route): State
    requires r.session < |s.sessions| && u in s.turns
  {
    SetStage(InstallRoute(s, u, r), u, Starting)
  }

  /** A session whose initialize is still queued has nothing pending. */
  lemma QueuedIsIdle(s: State, u: Uid)
    requires Invariant(s) && u in s.turns && s.turns[u].stage.Queued?
    ensures var i := s.turns[u].route.session;
      i < |s.sessions| && u !in s.routes && (!s.sessions[i].closed ==> s.sessions[i].pending == map[])
  {
    hide Shape, SessionsOk, TicketsOk, PromisesOk, PendingNamed, ExpiredOk, ChainsOk, HeadOk, JobsOk,
         JobsApart, UnsentOk, UndeliveredOk, DeliveriesOk, ReportsOk, SendsOk, AcceptedOk, WaitingOk;
    TurnsHaveSessions(s);
    var i := s.turns[u].route.session;
    forall k | k in s.sessions[i].pending && !s.sessions[i].closed ensures false {
      var v := s.sessions[i].pending[k];
      assert Routed(s.routes, i, k, v) && Owned(s.sessions, v, s.routes[v]);
      InitializeIsUnique(s, v, s.routes[v]);
      TurnsAreUnique(s, i);
    }
  }

  lemma NotPending(s: State, u: Uid)
    requires Invariant(s) && u in s.turns
    ensures forall i, k :: 0 <= i < |s.sessions| && i != s.turns[u].route.session && k in s.sessions[i].pending ==>
      s.sessions[i].pending[k] != u
  {
    hide Shape, SessionsOk, TicketsOk, PromisesOk, RoutesOk, OwnersOk, PendingOk, ExpiredOk, StagesOk,
         ChainsOk, HeadOk, JobsOk, JobsApart, UnsentOk, UndeliveredOk, DeliveriesOk, ReportsOk, SendsOk,
         AcceptedOk, WaitingOk;
  }

  lemma BeginSessions(s: State, g: nat)
    requires Invariant(s) && MayBegin(s, g)
    ensures var t := Begin(s, s.chains[g][0], HeadTurn(s, g).route);
      && SessionsOk(t.current, t.sessions)
      && OwnersOk(t.sessions, t.routes)
      && PendingOk(t.sessions, t.routes)
  {
    hide Shape, TicketsOk, PromisesOk, RoutesOk, PendingNamed, ExpiredOk, StagesOk, ChainsOk, HeadOk, JobsOk,
         JobsApart, UnsentOk, UndeliveredOk, DeliveriesOk, ReportsOk, SendsOk, AcceptedOk, WaitingOk;
    QueuedIsIdle(s, s.chains[g][0]);
    NotPending(s, s.chains[g][0]);
  }

  lemma BeginPromises(s: State, g: nat)
    requires Invariant(s) && MayBegin(s, g)
    ensures var t := Begin(s, s.chains[g][0], HeadTurn(s, g).route);
      PromisesOk(t.sessions, t.routes, t.inflight, t.initOf, t.accepted)
  {
    hide Shape, SessionsOk, TicketsOk, RoutesOk, OwnersOk, PendingOk, PendingNamed, ExpiredOk, TurnsOk,
         ChainsOk, HeadOk, JobsOk, JobsApart, UnsentOk, UndeliveredOk, DeliveriesOk, ReportsOk, SendsOk,
         AcceptedOk, WaitingOk;
    OnlySession(s, s.chains[g][0]);
  }

  lemma BeginStages(s: State, g: nat)
    requires Invariant(s) && MayBegin(s, g)
    ensures var t := Begin(s, s.chains[g][0], HeadTurn(s, g).route);
      StagesOk(t.sessions, t.turns, t.routes, t.inflight)
  {
    hide Shape, SessionsOk, TicketsOk, PromisesOk, RoutesOk, OwnersOk, PendingOk, PendingNamed, ExpiredOk,
         TurnsOk, ChainsOk, HeadOk, JobsOk, JobsApart, UnsentOk, UndeliveredOk, DeliveriesOk, ReportsOk,
         SendsOk, AcceptedOk, WaitingOk;
  }

  lemma OnlySession(s: State, u: Uid)
    requires Invariant(s) && u in s.turns
    ensures forall i :: i in s.initOf && s.initOf[i].uid == u ==> i == s.turns[u].route.session
  {
    hide Shape, SessionsOk, PromisesOk, RoutesOk, OwnersOk, PendingOk, PendingNamed, ExpiredOk, StagesOk,
         ChainsOk, HeadOk, JobsOk, JobsApart, UnsentOk, UndeliveredOk, DeliveriesOk, ReportsOk, SendsOk,
         AcceptedOk, WaitingOk;
  }

  lemma BeginChains(s: State, g: nat)
    requires Invariant(s) && MayBegin(s, g)
    ensures var t := Begin(s, s.chains[g][0], HeadTurn(s, g).route);
      && ChainsOk(t.chains, t.turns)
      && HeadOk(t.current, t.chains, t.turns, t.routes)
      && TurnsOk(t.managedDc, t.turns, t.issued, t.initOf)
      && RoutesOk(t.managedDc, t.routes, t.issued, t.initOf)
  {
    hide Shape, SessionsOk, TicketsOk, PromisesOk, OwnersOk, PendingOk, PendingNamed, ExpiredOk, StagesOk,
         JobsOk, JobsApart, UnsentOk, UndeliveredOk, DeliveriesOk, ReportsOk, SendsOk, AcceptedOk, WaitingOk;
    var u := s.chains[g][0];
    forall v | v in s.routes && s.routes[v].initialize ensures v == u {
      assert Running(s.current, s.chains, s.turns, v);
    }
  }

  lemma BeginHistory(s: State, g: nat)
    requires Invariant(s) && MayBegin(s, g)
    ensures var t := Begin(s, s.chains[g][0], HeadTurn(s, g).route);
      && ExpiredOk(t.expired, t.issued, t.routes)
      && JobsApart(t.inflight, t.routes, t.turns)
      && UnsentOk(t.sends, t.expired, t.turns, t.inflight)
      && UndeliveredOk(t.deliveries, t.routes, t.turns, t.inflight)
  {
    hide Shape, SessionsOk, TicketsOk, PromisesOk, RoutesOk, OwnersOk, PendingOk, PendingNamed, TurnsOk,
         ChainsOk, HeadOk, JobsOk, DeliveriesOk, ReportsOk, SendsOk, AcceptedOk, WaitingOk;
  }

  lemma BeginKeeps(s: State, g: nat)
    requires Invariant(s) && MayBegin(s, g)
    ensures Invariant(Begin(s, s.chains[g][0], HeadTurn(s, g).route))
  {
    hide Shape, SessionsOk, TicketsOk, PromisesOk, RoutesOk, OwnersOk, PendingOk, ExpiredOk, StagesOk,
         ChainsOk, HeadOk, JobsOk, JobsApart, UnsentOk, UndeliveredOk, DeliveriesOk, ReportsOk, SendsOk,
         AcceptedOk, WaitingOk;
    var u := s.chains[g][0];
    GensSuffice(s, Begin(s, u, s.turns[u].route).sessions);
    BeginSessions(s, g);
    BeginPromises(s, g);
    BeginStages(s, g);
    BeginChains(s, g);
    BeginHistory(s, g);
    BeginReports(s, g);
  }

  lemma BeginReports(s: State, g: nat)
    requires Invariant(s) && MayBegin(s, g)
    ensures var t := Begin(s, s.chains[g][0], HeadTurn(s, g).route);
      ReportsOk(t.issued, t.routes, t.inflight, t.reports, t.lost)
  {
    hide Shape, SessionsOk, TicketsOk, PromisesOk, RoutesOk, OwnersOk, PendingOk, PendingNamed, ExpiredOk,
         StagesOk, ChainsOk, HeadOk, JobsOk, JobsApart, UnsentOk, UndeliveredOk, DeliveriesOk, SendsOk,
         AcceptedOk, WaitingOk;
    InitializeIsUnique(s, s.chains[g][0], HeadTurn(s, g).route);
  }

  lemma SendTurnKeeps(s: State, g: nat)
    requires Invariant(s) && HasTurn(s, g) && HeadTurn(s, g).stage.Starting?
    ensures Invariant(SetStage(s, s.chains[g][0], Racing).(
                        sends := s.sends + [Sent(g, HeadTurn(s, g).route.session, true, Some(s.chains[g][0]))]))
  {
    hide Shape, SessionsOk, TicketsOk, PromisesOk, RoutesOk, OwnersOk, PendingOk, PendingNamed, ExpiredOk,
         TurnsOk, ChainsOk, HeadOk, JobsOk, UnsentOk, DeliveriesOk, ReportsOk, SendsOk, AcceptedOk, WaitingOk;
    SendTurnChains(s, g);
    SendTurnSends(s, g);
  }

  lemma SendTurnChains(s: State, g: nat)
    requires Invariant(s) && HasTurn(s, g) && HeadTurn(s, g).stage.Starting?
    ensures var t := SetStage(s, s.chains[g][0], Racing);
      && TurnsOk(t.managedDc, t.turns, t.issued, t.initOf)
      && ChainsOk(t.chains, t.turns)
      && HeadOk(t.current, t.chains, t.turns, t.routes)
  {
    hide Shape, SessionsOk, TicketsOk, PromisesOk, RoutesOk, OwnersOk, PendingOk, PendingNamed, ExpiredOk,
         StagesOk, JobsOk, JobsApart, UnsentOk, UndeliveredOk, DeliveriesOk, ReportsOk, SendsOk, AcceptedOk,
         WaitingOk;
  }

  lemma SendTurnSends(s: State, g: nat)
    requires Invariant(s) && HasTurn(s, g) && HeadTurn(s, g).stage.Starting?
    ensures var u := s.chains[g][0];
            var t := SetStage(s, u, Racing);
            var sends := s.sends + [Sent(g, HeadTurn(s, g).route.session, true, Some(u))];
            && SendsOk(sends, s.sessions, s.issued, s.accepted)
            && UnsentOk(sends, t.expired, t.turns, t.inflight)
  {
    hide Shape, SessionsOk, TicketsOk, PromisesOk, RoutesOk, OwnersOk, PendingOk, PendingNamed, ExpiredOk,
         StagesOk, HeadOk, JobsApart, UndeliveredOk, DeliveriesOk, ReportsOk, AcceptedOk, WaitingOk;
    InitializeIsUnique(s, s.chains[g][0], HeadTurn(s, g).route);
    JobsAreNotStarting(s, s.chains[g][0]);
  }

  /** An initialize in the chain is not awaiting its challenge. */
  lemma JobsAreNotStarting(s: State, u: Uid)
    requires Invariant(s) && u in s.turns
    ensures u in s.inflight ==> !s.inflight[u].task.Issuing?
  {
    hide Shape, SessionsOk, TicketsOk, PromisesOk, RoutesOk, OwnersOk, PendingOk, PendingNamed, ExpiredOk,
         TurnsOk, StagesOk, ChainsOk, HeadOk, JobsOk, UnsentOk, UndeliveredOk, DeliveriesOk, ReportsOk,
         SendsOk, AcceptedOk, WaitingOk;
  }

  lemma TimedOutKeeps(s: State, g: nat)
    requires Invariant(s) && HasTurn(s, g) && s.chains[g][0] !in s.routes && !HeadTurn(s, g).stage.Queued?
    ensures Invariant(SetStage(s, s.chains[g][0], TimedOut))
  {
    hide Shape, SessionsOk, TicketsOk, PromisesOk, RoutesOk, OwnersOk, PendingOk, PendingNamed, ExpiredOk,
         ChainsOk, HeadOk, JobsOk, DeliveriesOk, ReportsOk, SendsOk, AcceptedOk, WaitingOk;
    TimedOutChains(s, g);
  }

  lemma TimedOutChains(s: State, g: nat)
    requires Invariant(s) && HasTurn(s, g) && s.chains[g][0] !in s.routes && !HeadTurn(s, g).stage.Queued?
    ensures var t := SetStage(s, s.chains[g][0], TimedOut);
      && ChainsOk(t.chains, t.turns)
      && HeadOk(t.current, t.chains, t.turns, t.routes)
  {
    hide Shape, SessionsOk, TicketsOk, PromisesOk, RoutesOk, OwnersOk, PendingOk, PendingNamed, ExpiredOk,
         TurnsOk, StagesOk, JobsOk, JobsApart, UnsentOk, UndeliveredOk, DeliveriesOk, ReportsOk, SendsOk,
         AcceptedOk, WaitingOk;
  }

  // ---- Routes leaving the table -----------------------------------------------------------------

  ghost predicate MayDrop(s: State, u: Uid, r: Route) {
    u in s.routes && s.routes[u].session == r.session < |s.sessions| && s.routes[u].downstreamId == r.downstreamId
  }

  lemma DropSessions(s: State, u: Uid, r: Route)
    requires Invariant(s) && MayDrop(s, u, r)
    ensures var t := DropRoute(s, u, r);
      && SessionsOk(t.current, t.sessions)
      && PromisesOk(t.sessions, t.routes, t.inflight, t.initOf, t.accepted)
  {
    hide Shape, TicketsOk, RoutesOk, OwnersOk, PendingOk, PendingNamed, ExpiredOk, TurnsOk, StagesOk,
         ChainsOk, HeadOk, JobsOk, JobsApart, UnsentOk, UndeliveredOk, DeliveriesOk, ReportsOk, SendsOk,
         AcceptedOk, WaitingOk;
  }

  lemma DropTables(s: State, u: Uid, r: Route)
    requires Invariant(s) && MayDrop(s, u, r)
    ensures var t := DropRoute(s, u, r);
      && OwnersOk(t.sessions, t.routes)
      && PendingOk(t.sessions, t.routes)
  {
    hide Shape, SessionsOk, TicketsOk, PromisesOk, RoutesOk, PendingNamed, ExpiredOk, TurnsOk, StagesOk,
         ChainsOk, HeadOk, JobsOk, JobsApart, UnsentOk, UndeliveredOk, DeliveriesOk, ReportsOk, SendsOk,
         AcceptedOk, WaitingOk;
  }

  lemma DropRecords(s: State, u: Uid)
    requires Invariant(s)
    ensures var routes := s.routes - {u};
      && RoutesOk(s.managedDc, routes, s.issued, s.initOf)
      && ExpiredOk(s.expired, s.issued, routes)
      && HeadOk(s.current, s.chains, s.turns, routes)
      && JobsApart(s.inflight, routes, s.turns)
      && UndeliveredOk(s.deliveries, routes, s.turns, s.inflight)
  {
    hide Shape, SessionsOk, TicketsOk, PromisesOk, OwnersOk, PendingOk, PendingNamed, TurnsOk, StagesOk,
         ChainsOk, JobsOk, UnsentOk, DeliveriesOk, ReportsOk, SendsOk, AcceptedOk, WaitingOk;
  }

  /** Everything but stages and reports survives dropping a route. */
  lemma DropSurvives(s: State, u: Uid, r: Route)
    requires Invariant(s) && MayDrop(s, u, r)
    ensures var t := DropRoute(s, u, r);
      && SessionsOk(t.current, t.sessions)
      && TicketsOk(t.sessions, t.issued, t.received, t.initOf)
      && PromisesOk(t.sessions, t.routes, t.inflight, t.initOf, t.accepted)
      && RoutesOk(t.managedDc, t.routes, t.issued, t.initOf)
      && OwnersOk(t.sessions, t.routes)
      && PendingOk(t.sessions, t.routes)
      && PendingNamed(t.sessions, t.issued)
      && ExpiredOk(t.expired, t.issued, t.routes)
      && HeadOk(t.current, t.chains, t.turns, t.routes)
      && SendsOk(t.sends, t.sessions, t.issued, t.accepted)
      && WaitingOk(t.waiting, t.sessions, t.received)
  {
    hide Shape, SessionsOk, TicketsOk, PromisesOk, RoutesOk, OwnersOk, PendingOk, PendingNamed, ExpiredOk,
         TurnsOk, StagesOk, ChainsOk, HeadOk, JobsOk, JobsApart, UnsentOk, UndeliveredOk, DeliveriesOk,
         ReportsOk, SendsOk, AcceptedOk, WaitingOk;
    ShrinkingSuffices(s, DropRoute(s, u, r).sessions);
    DropSessions(s, u, r);
    DropTables(s, u, r);
    DropRecords(s, u);
  }

  /** `pending.delete` on a closed session, whose route is already gone. */
  lemma ForgetKeeps(s: State, u: Uid, r: Route)
    requires Invariant(s) && u !in s.routes && r.session < |s.sessions| && s.sessions[r.session].closed
    ensures Invariant(DropRoute(s, u, r))
  {
    hide Shape, TicketsOk, RoutesOk, OwnersOk, PendingOk, PendingNamed, ExpiredOk, TurnsOk, StagesOk,
         ChainsOk, HeadOk, JobsOk, JobsApart, UnsentOk, UndeliveredOk, DeliveriesOk, ReportsOk, SendsOk,
         AcceptedOk, WaitingOk;
    assert s.routes - {u} == s.routes;
    ShrinkingSuffices(s, DropRoute(s, u, r).sessions);
    ForgetTables(s, r);
  }

  lemma ForgetTables(s: State, r: Route)
    requires Invariant(s) && r.session < |s.sessions| && s.sessions[r.session].closed
    ensures var x := s.sessions[r.session];
      var sessions := s.sessions[r.session := x.(pending := x.pending - {r.downstreamId})];
      && OwnersOk(sessions, s.routes)
      && PendingOk(sessions, s.routes)
      && StagesOk(sessions, s.turns, s.routes, s.inflight)
  {
    hide Shape, SessionsOk, TicketsOk, PromisesOk, RoutesOk, PendingNamed, ExpiredOk, TurnsOk, ChainsOk,
         HeadOk, JobsOk, JobsApart, UnsentOk, UndeliveredOk, DeliveriesOk, ReportsOk, SendsOk, AcceptedOk,
         WaitingOk;
  }

  ghost predicate MayTake(s: State, u: Uid, r: Route, task: Task) {
    && MayDrop(s, u, r)
    && JobOk(s.managedDc, u, Job(r, task), s.issued, s.initOf, s.responses)
    && !task.Issuing? && (u in s.turns ==> !s.turns[u].stage.Starting?)
  }

  lemma TakePromises(s: State, u: Uid, r: Route, task: Task)
    requires Invariant(s) && MayTake(s, u, r, task)
    ensures var t := TakeRoute(s, u, r, task);
      PromisesOk(t.sessions, t.routes, t.inflight, t.initOf, t.accepted)
  {
    hide Shape, SessionsOk, TicketsOk, RoutesOk, OwnersOk, PendingOk, PendingNamed, ExpiredOk, TurnsOk,
         StagesOk, ChainsOk, HeadOk, JobsOk, JobsApart, UnsentOk, UndeliveredOk, DeliveriesOk, ReportsOk,
         SendsOk, AcceptedOk, WaitingOk;
    DropSessions(s, u, r);
  }

  lemma TakeStages(s: State, u: Uid, r: Route, task: Task)
    requires Invariant(s) && MayTake(s, u, r, task)
    ensures var t := TakeRoute(s, u, r, task);
      && StagesOk(t.sessions, t.turns, t.routes, t.inflight)
      && JobsApart(t.inflight, t.routes, t.turns)
  {
    hide Shape, SessionsOk, TicketsOk, PromisesOk, RoutesOk, OwnersOk, PendingOk, PendingNamed, ExpiredOk,
         TurnsOk, ChainsOk, HeadOk, JobsOk, UnsentOk, UndeliveredOk, DeliveriesOk, ReportsOk, SendsOk,
         AcceptedOk, WaitingOk;
  }

  lemma TakeHistory(s: State, u: Uid, r: Route, task: Task)
    requires Invariant(s) && MayTake(s, u, r, task)
    ensures var t := TakeRoute(s, u, r, task);
      && JobsOk(t.managedDc, t.inflight, t.issued, t.initOf, t.responses)
      && UnsentOk(t.sends, t.expired, t.turns, t.inflight)
      && UndeliveredOk(t.deliveries, t.routes, t.turns, t.inflight)
  {
    hide Shape, SessionsOk, TicketsOk, PromisesOk, RoutesOk, OwnersOk, PendingOk, PendingNamed, ExpiredOk,
         TurnsOk, StagesOk, ChainsOk, HeadOk, JobsApart, DeliveriesOk, ReportsOk, SendsOk, AcceptedOk,
         WaitingOk;
  }

  lemma TakeReports(s: State, u: Uid, r: Route, task: Task)
    requires Invariant(s) && MayTake(s, u, r, task)
    ensures var t := TakeRoute(s, u, r, task);
      ReportsOk(t.issued, t.routes, t.inflight, t.reports, t.lost)
  {
    hide Shape, SessionsOk, TicketsOk, PromisesOk, RoutesOk, OwnersOk, PendingOk, PendingNamed, ExpiredOk,
         TurnsOk, StagesOk, ChainsOk, HeadOk, JobsOk, UnsentOk, UndeliveredOk, DeliveriesOk, SendsOk,
         AcceptedOk, WaitingOk;
  }

  lemma TakeKeeps(s: State, u: Uid, r: Route, task: Task)
    requires Invariant(s) && MayTake(s, u, r, task)
    ensures Invariant(TakeRoute(s, u, r, task))
  {
    hide Shape, SessionsOk, TicketsOk, PromisesOk, RoutesOk, OwnersOk, PendingOk, PendingNamed, ExpiredOk,
         TurnsOk, StagesOk, ChainsOk, HeadOk, JobsOk, JobsApart, UnsentOk, UndeliveredOk, DeliveriesOk,
         ReportsOk, SendsOk, AcceptedOk, WaitingOk;
    DropSurvives(s, u, r);
    TakePromises(s, u, r, task);
    TakeStages(s, u, r, task);
    TakeHistory(s, u, r, task);
    TakeReports(s, u, r, task);
  }

  ghost predicate MayAbort(s: State, g: nat) {
    HasTurn(s, g) && s.chains[g][0] in s.routes && HeadTurn(s, g).stage.Starting?
  }

  function Abort(s: State, g: nat): State
    requires g < |s.chains| && |s.chains[g]| > 0
    requires s.chains[g][0] in s.turns && s.turns[s.chains[g][0]].route.session < |s.sessions|
  {
    PopTurn(DropRoute(s, s.chains[g][0], s.turns[s.chains[g][0]].route), g)
  }

  lemma TurnMatchesRoute(s: State, u: Uid)
    requires Invariant(s) && u in s.routes && u in s.turns
    ensures MayDrop(s, u, s.turns[u].route) && TicketOf(s.routes[u]) == TicketOf(s.turns[u].route)
    ensures s.routes[u].challenge == s.turns[u].route.challenge
  {
    hide Shape, SessionsOk, TicketsOk, PromisesOk, OwnersOk, PendingOk, PendingNamed, ExpiredOk, StagesOk,
         ChainsOk, HeadOk, JobsOk, JobsApart, UnsentOk, UndeliveredOk, DeliveriesOk, ReportsOk, SendsOk,
         AcceptedOk, WaitingOk;
    InitializeIsUnique(s, u, s.routes[u]);
  }

  lemma AbortChains(s: State, g: nat)
    requires Invariant(s) && MayAbort(s, g)
    ensures var t := Abort(s, g);
      && Shape(t.current, t.expired, t.chains)
      && ChainsOk(t.chains, t.turns)
      && TurnsOk(t.managedDc, t.turns, t.issued, t.initOf)
      && StagesOk(t.sessions, t.turns, t.routes, t.inflight)
  {
    hide SessionsOk, TicketsOk, PromisesOk, RoutesOk, OwnersOk, PendingOk, PendingNamed, ExpiredOk, HeadOk,
         JobsOk, JobsApart, UnsentOk, UndeliveredOk, DeliveriesOk, ReportsOk, SendsOk, AcceptedOk, WaitingOk;
  }

  lemma AbortHead(s: State, g: nat)
    requires Invariant(s) && MayAbort(s, g)
    ensures var t := Abort(s, g); HeadOk(t.current, t.chains, t.turns, t.routes)
  {
    hide Shape, SessionsOk, TicketsOk, PromisesOk, RoutesOk, OwnersOk, PendingOk, PendingNamed, ExpiredOk,
         TurnsOk, StagesOk, JobsOk, JobsApart, UnsentOk, UndeliveredOk, DeliveriesOk, ReportsOk, SendsOk,
         AcceptedOk, WaitingOk;
  }

  lemma AbortHistory(s: State, g: nat)
    requires Invariant(s) && MayAbort(s, g)
    ensures var t := Abort(s, g);
      && JobsApart(t.inflight, t.routes, t.turns)
      && UnsentOk(t.sends, t.expired, t.turns, t.inflight)
      && UndeliveredOk(t.deliveries, t.routes, t.turns, t.inflight)
      && ReportsOk(t.issued, t.routes, t.inflight, t.reports, t.lost)
  {
    hide Shape, SessionsOk, TicketsOk, PromisesOk, RoutesOk, OwnersOk, PendingOk, PendingNamed, ExpiredOk,
         TurnsOk, StagesOk, ChainsOk, HeadOk, JobsOk, DeliveriesOk, SendsOk, AcceptedOk, WaitingOk;
    TurnMatchesRoute(s, s.chains[g][0]);
    NotGoverned(s, s.chains[g][0]);
  }

  lemma NotGoverned(s: State, u: Uid)
    requires Invariant(s) && u in s.turns
    ensures u in s.issued && !s.issued[u].governed && s.issued[u].initialize
  {
    hide Shape, SessionsOk, TicketsOk, PromisesOk, RoutesOk, OwnersOk, PendingOk, PendingNamed, ExpiredOk,
         StagesOk, ChainsOk, HeadOk, JobsOk, JobsApart, UnsentOk, UndeliveredOk, DeliveriesOk, ReportsOk,
         SendsOk, AcceptedOk, WaitingOk;
    InitializeIsUnique(s, u, s.turns[u].route);
  }

  lemma AbortKeeps(s: State, g: nat)
    requires Invariant(s) && MayAbort(s, g)
    ensures Invariant(Abort(s, g))
  {
    hide Shape, SessionsOk, TicketsOk, PromisesOk, RoutesOk, OwnersOk, PendingOk, PendingNamed, ExpiredOk,
         TurnsOk, StagesOk, ChainsOk, HeadOk, JobsOk, JobsApart, UnsentOk, UndeliveredOk, DeliveriesOk,
         ReportsOk, SendsOk, AcceptedOk, WaitingOk;
    TurnMatchesRoute(s, s.chains[g][0]);
    DropSurvives(s, s.chains[g][0], HeadTurn(s, g).route);
    AbortChains(s, g);
    AbortHead(s, g);
    AbortHistory(s, g);
  }

  lemma ExpireKeeps(s: State, g: nat, u: Uid)
    requires Invariant(s) && g < |s.expired| && u in s.issued && u !in s.routes
    requires u in s.turns ==> s.turns[u].stage.TimedOut?
    requires u in s.inflight ==> !s.inflight[u].task.Issuing?
    ensures Invariant(s.(expired := s.expired[g := AddExpired(s.expired[g], u)]))
  {
    hide SessionsOk, TicketsOk, PromisesOk, RoutesOk, OwnersOk, PendingOk, PendingNamed, TurnsOk, StagesOk,
         ChainsOk, HeadOk, JobsOk, JobsApart, UndeliveredOk, DeliveriesOk, ReportsOk, SendsOk, AcceptedOk,
         WaitingOk;
  }

  lemma UnexpireKeeps(s: State, g: nat, u: Uid)
    requires Invariant(s) && g < |s.expired|
    ensures Invariant(s.(expired := s.expired[g := Without(s.expired[g], u)]))
  {
    hide SessionsOk, TicketsOk, PromisesOk, RoutesOk, OwnersOk, PendingOk, PendingNamed, TurnsOk, StagesOk,
         ChainsOk, HeadOk, JobsOk, JobsApart, UndeliveredOk, DeliveriesOk, ReportsOk, SendsOk, AcceptedOk,
         WaitingOk;
  }

  lemma RespondKeeps(s: State, u: Uid, response: Response)
    requires Invariant(s) && u in s.routes
    ensures Invariant(s.(responses := s.responses[u := response]))
  {
    hide Shape, SessionsOk, TicketsOk, PromisesOk, RoutesOk, OwnersOk, PendingOk, PendingNamed, ExpiredOk,
         TurnsOk, StagesOk, ChainsOk, HeadOk, UnsentOk, ReportsOk, SendsOk, AcceptedOk, WaitingOk;
    RespondAccepted(s, u, response);
  }

  lemma RespondAccepted(s: State, u: Uid, response: Response)
    requires Invariant(s) && u in s.routes
    ensures AcceptedOk(s.managedDc, s.accepted, s.initOf, s.responses[u := response])
  {
    hide Shape, SessionsOk, TicketsOk, RoutesOk, OwnersOk, PendingOk, PendingNamed, ExpiredOk, TurnsOk,
         StagesOk, ChainsOk, HeadOk, JobsOk, JobsApart, UnsentOk, UndeliveredOk, DeliveriesOk, ReportsOk,
         SendsOk, WaitingOk;
  }

  // ---- Requests ---------------------------------------------------------------------------------

  ghost predicate MayRoute(s: State, u: Uid, r: Route) {
    && u !in s.issued && r.session < |s.sessions| && !r.initialize && r.gen == s.sessions[r.session].gen
    && !s.sessions[r.session].closed && s.sessions[r.session].upstreamInitialized
    && r.downstreamId !in s.sessions[r.session].pending && (r.session, r.downstreamId) in s.received
  }

  function RouteRequest(s: State, u: Uid, r: Route): State
    requires r.session < |s.sessions|
  {
    InstallRoute(IssueRequest(s, u, r), u, r).(sends := s.sends + [Sent(r.gen, r.session, false, Some(u))])
  }

  lemma IssueRecords(s: State, u: Uid, r: Route)
    requires Invariant(s) && MayRoute(s, u, r)
    ensures var issued := s.issued[u := TicketOf(r)];
      && TicketsOk(s.sessions, issued, s.received, s.initOf)
      && TurnsOk(s.managedDc, s.turns, issued, s.initOf)
      && JobsOk(s.managedDc, s.inflight, issued, s.initOf, s.responses)
      && DeliveriesOk(s.deliveries, issued, s.responses)
  {
    hide Shape, SessionsOk, PromisesOk, RoutesOk, OwnersOk, PendingOk, PendingNamed, ExpiredOk, StagesOk,
         ChainsOk, HeadOk, JobsApart, UnsentOk, UndeliveredOk, ReportsOk, SendsOk, AcceptedOk, WaitingOk;
  }

  lemma IssueTables(s: State, u: Uid, r: Route)
    requires Invariant(s) && MayRoute(s, u, r)
    ensures var issued := s.issued[u := TicketOf(r)];
      && RoutesOk(s.managedDc, s.routes, issued, s.initOf)
      && ExpiredOk(s.expired, issued, s.routes)
      && PendingNamed(s.sessions, issued)
      && SendsOk(s.sends, s.sessions, issued, s.accepted)
  {
    hide Shape, SessionsOk, TicketsOk, PromisesOk, OwnersOk, PendingOk, TurnsOk, StagesOk, ChainsOk, HeadOk,
         JobsOk, JobsApart, UnsentOk, UndeliveredOk, DeliveriesOk, ReportsOk, AcceptedOk, WaitingOk;
  }

  lemma ReportAtOnceKeeps(s: State, u: Uid, r: Route)
    requires Invariant(s) && MayRoute(s, u, r)
    ensures Invariant(Report(IssueRequest(s, u, r), u, r))
  {
    hide Shape, SessionsOk, TicketsOk, PromisesOk, RoutesOk, OwnersOk, PendingOk, PendingNamed, ExpiredOk,
         TurnsOk, StagesOk, ChainsOk, HeadOk, JobsOk, JobsApart, UnsentOk, UndeliveredOk, DeliveriesOk,
         SendsOk, AcceptedOk, WaitingOk;
    FreshIsNowhere(s, u);
    IssueRecords(s, u, r);
    IssueTables(s, u, r);
  }

  lemma RouteSessions(s: State, u: Uid, r: Route)
    requires Invariant(s) && MayRoute(s, u, r)
    ensures var t := RouteRequest(s, u, r); SessionsOk(t.current, t.sessions)
  {
    hide Shape, TicketsOk, PromisesOk, RoutesOk, OwnersOk, PendingOk, PendingNamed, ExpiredOk, TurnsOk,
         StagesOk, ChainsOk, HeadOk, JobsOk, JobsApart, UnsentOk, UndeliveredOk, DeliveriesOk, ReportsOk,
         SendsOk, AcceptedOk, WaitingOk;
  }

  lemma RouteOwners(s: State, u: Uid, r: Route)
    requires Invariant(s) && MayRoute(s, u, r)
    ensures var t := RouteRequest(s, u, r); OwnersOk(t.sessions, t.routes)
  {
    hide Shape, SessionsOk, TicketsOk, PromisesOk, RoutesOk, PendingOk, PendingNamed, ExpiredOk, TurnsOk,
         StagesOk, ChainsOk, HeadOk, JobsOk, JobsApart, UnsentOk, UndeliveredOk, DeliveriesOk, ReportsOk,
         SendsOk, AcceptedOk, WaitingOk;
  }

  lemma RoutePending(s: State, u: Uid, r: Route)
    requires Invariant(s) && MayRoute(s, u, r)
    ensures var t := RouteRequest(s, u, r); PendingOk(t.sessions, t.routes)
  {
    hide Shape, SessionsOk, TicketsOk, PromisesOk, RoutesOk, OwnersOk, ExpiredOk, TurnsOk, StagesOk,
         ChainsOk, HeadOk, JobsOk, JobsApart, UnsentOk, UndeliveredOk, DeliveriesOk, ReportsOk, SendsOk,
         AcceptedOk, WaitingOk;
  }

  lemma RoutePendingNamed(s: State, u: Uid, r: Route)
    requires Invariant(s) && MayRoute(s, u, r)
    ensures var t := RouteRequest(s, u, r); PendingNamed(t.sessions, t.issued)
  {
    hide Shape, SessionsOk, TicketsOk, PromisesOk, RoutesOk, OwnersOk, PendingOk, ExpiredOk, TurnsOk,
         StagesOk, ChainsOk, HeadOk, JobsOk, JobsApart, UnsentOk, UndeliveredOk, DeliveriesOk, ReportsOk,
         SendsOk, AcceptedOk, WaitingOk;
  }

  lemma RoutePromises(s: State, u: Uid, r: Route)
    requires Invariant(s) && MayRoute(s, u, r)
    ensures var t := RouteRequest(s, u, r); PromisesOk(t.sessions, t.routes, t.inflight, t.initOf, t.accepted)
  {
    hide Shape, SessionsOk, TicketsOk, RoutesOk, OwnersOk, PendingOk, PendingNamed, ExpiredOk, TurnsOk,
         StagesOk, ChainsOk, HeadOk, JobsOk, JobsApart, UnsentOk, UndeliveredOk, DeliveriesOk, ReportsOk,
         SendsOk, AcceptedOk, WaitingOk;
    FreshIsNowhere(s, u);
    InitsAreIssued(s);
  }

  lemma RouteStages(s: State, u: Uid, r: Route)
    requires Invariant(s) && MayRoute(s, u, r)
    ensures var t := RouteRequest(s, u, r); StagesOk(t.sessions, t.turns, t.routes, t.inflight)
  {
    hide Shape, SessionsOk, TicketsOk, PromisesOk, RoutesOk, OwnersOk, PendingOk, PendingNamed, ExpiredOk,
         TurnsOk, ChainsOk, HeadOk, JobsOk, JobsApart, UnsentOk, UndeliveredOk, DeliveriesOk, ReportsOk,
         SendsOk, AcceptedOk, WaitingOk;
    FreshIsNowhere(s, u);
  }

  lemma InitsAreIssued(s: State)
    requires Invariant(s)
    ensures forall i :: i in s.initOf ==> s.initOf[i].uid in s.issued
  {
    hide Shape, SessionsOk, PromisesOk, RoutesOk, OwnersOk, PendingOk, PendingNamed, ExpiredOk, TurnsOk,
         StagesOk, ChainsOk, HeadOk, JobsOk, JobsApart, UnsentOk, UndeliveredOk, DeliveriesOk, ReportsOk,
         SendsOk, AcceptedOk, WaitingOk;
  }

  lemma RouteRecords(s: State, u: Uid, r: Route)
    requires Invariant(s) && MayRoute(s, u, r)
    ensures var t := RouteRequest(s, u, r);
      && RoutesOk(t.managedDc, t.routes, t.issued, t.initOf)
      && ExpiredOk(t.expired, t.issued, t.routes)
      && HeadOk(t.current, t.chains, t.turns, t.routes)
      && JobsApart(t.inflight, t.routes, t.turns)
  {
    hide Shape, SessionsOk, TicketsOk, PromisesOk, OwnersOk, PendingOk, PendingNamed, TurnsOk, StagesOk,
         ChainsOk, JobsOk, UnsentOk, UndeliveredOk, DeliveriesOk, ReportsOk, SendsOk, AcceptedOk, WaitingOk;
    FreshIsNowhere(s, u);
  }

  lemma RouteHistory(s: State, u: Uid, r: Route)
    requires Invariant(s) && MayRoute(s, u, r)
    ensures var t := RouteRequest(s, u, r);
      && UnsentOk(t.sends, t.expired, t.turns, t.inflight)
      && UndeliveredOk(t.deliveries, t.routes, t.turns, t.inflight)
  {
    hide Shape, SessionsOk, TicketsOk, PromisesOk, RoutesOk, OwnersOk, PendingOk, PendingNamed, ExpiredOk,
         TurnsOk, StagesOk, ChainsOk, HeadOk, JobsOk, JobsApart, DeliveriesOk, ReportsOk, SendsOk,
         AcceptedOk, WaitingOk;
    FreshIsNowhere(s, u);
  }

  lemma RouteReports(s: State, u: Uid, r: Route)
    requires Invariant(s) && MayRoute(s, u, r)
    ensures var t := RouteRequest(s, u, r);
      ReportsOk(t.issued, t.routes, t.inflight, t.reports, t.lost)
  {
    hide Shape, SessionsOk, TicketsOk, PromisesOk, RoutesOk, OwnersOk, PendingOk, PendingNamed, ExpiredOk,
         TurnsOk, StagesOk, ChainsOk, HeadOk, JobsOk, JobsApart, UnsentOk, UndeliveredOk, DeliveriesOk,
         SendsOk, AcceptedOk, WaitingOk;
    FreshIsNowhere(s, u);
  }

  lemma RouteTickets(s: State, u: Uid, r: Route)
    requires Invariant(s) && MayRoute(s, u, r)
    ensures var t := RouteRequest(s, u, r); TicketsOk(t.sessions, t.issued, t.received, t.initOf)
  {
    hide Shape, SessionsOk, RoutesOk, OwnersOk, PendingOk, PendingNamed, ExpiredOk, TurnsOk, StagesOk,
         ChainsOk, HeadOk, JobsOk, JobsApart, UnsentOk, UndeliveredOk, DeliveriesOk, ReportsOk, AcceptedOk,
         SendsOk, PromisesOk, WaitingOk;
  }

  lemma RouteSends(s: State, u: Uid, r: Route)
    requires Invariant(s) && MayRoute(s, u, r)
    ensures var t := RouteRequest(s, u, r);
      && WaitingOk(t.waiting, t.sessions, t.received)
      && SendsOk(t.sends, t.sessions, t.issued, t.accepted)
  {
    hide Shape, SessionsOk, RoutesOk, OwnersOk, PendingOk, PendingNamed, ExpiredOk, TurnsOk, StagesOk,
         ChainsOk, HeadOk, JobsOk, JobsApart, UnsentOk, UndeliveredOk, DeliveriesOk, ReportsOk, AcceptedOk,
         TicketsOk;
  }

  lemma RouteKeeps(s: State, u: Uid, r: Route)
    requires Invariant(s) && MayRoute(s, u, r)
    ensures Invariant(RouteRequest(s, u, r))
  {
    hide Shape, SessionsOk, TicketsOk, PromisesOk, RoutesOk, OwnersOk, PendingOk, PendingNamed, ExpiredOk,
         TurnsOk, StagesOk, ChainsOk, HeadOk, JobsOk, JobsApart, UnsentOk, UndeliveredOk, DeliveriesOk,
         ReportsOk, SendsOk, AcceptedOk, WaitingOk;
    IssueRecords(s, u, r);
    RouteSessions(s, u, r);
    RouteOwners(s, u, r);
    RoutePending(s, u, r);
    RoutePendingNamed(s, u, r);
    RoutePromises(s, u, r);
    RouteStages(s, u, r);
    RouteRecords(s, u, r);
    RouteHistory(s, u, r);
    RouteReports(s, u, r);
    RouteTickets(s, u, r);
    RouteSends(s, u, r);
  }

  lemma NotifyKeeps(s: State, i: Sid)
    requires Invariant(s) && i < |s.sessions| && s.sessions[i].upstreamInitialized && s.sessions[i].gen == s.current
    ensures Invariant(s.(sends := s.sends + [Sent(s.current, i, false, None)]))
  {
    hide Shape, SessionsOk, TicketsOk, RoutesOk, OwnersOk, PendingOk, PendingNamed, ExpiredOk, TurnsOk,
         StagesOk, ChainsOk, HeadOk, JobsOk, JobsApart, UndeliveredOk, DeliveriesOk, ReportsOk, AcceptedOk,
         WaitingOk;
  }

  // ---- Acceptance -------------------------------------------------------------------------------

  ghost predicate MayAccept(s: State, u: Uid, r: Route, response: Response) {
    && u in s.inflight && s.inflight[u] == Job(r, Answering(response)) && r.initialize
    && r.session < |s.sessions| && !s.sessions[r.session].closed
  }

  lemma AcceptSessions(s: State, u: Uid, r: Route, response: Response)
    requires Invariant(s) && MayAccept(s, u, r, response)
    ensures var t := Accept(s, u, r, response); SessionsOk(t.current, t.sessions)
  {
    hide Shape, TicketsOk, PromisesOk, RoutesOk, OwnersOk, PendingOk, PendingNamed, ExpiredOk, TurnsOk,
         StagesOk, ChainsOk, HeadOk, JobsOk, JobsApart, UnsentOk, UndeliveredOk, DeliveriesOk, ReportsOk,
         SendsOk, AcceptedOk, WaitingOk;
  }

  lemma AcceptPromises(s: State, u: Uid, r: Route, response: Response)
    requires Invariant(s) && MayAccept(s, u, r, response)
    ensures var t := Accept(s, u, r, response); PromisesOk(t.sessions, t.routes, t.inflight, t.initOf, t.accepted)
  {
    hide Shape, SessionsOk, TicketsOk, RoutesOk, OwnersOk, PendingOk, PendingNamed, ExpiredOk, TurnsOk,
         StagesOk, ChainsOk, HeadOk, UnsentOk, UndeliveredOk, DeliveriesOk, ReportsOk, SendsOk, AcceptedOk,
         WaitingOk;
    InitializeIsUnique(s, u, r);
    OnlyInitializer(s, u, r);
  }

  lemma AcceptTables(s: State, u: Uid, r: Route, response: Response)
    requires Invariant(s) && MayAccept(s, u, r, response)
    ensures var t := Accept(s, u, r, response);
      && OwnersOk(t.sessions, t.routes)
      && PendingOk(t.sessions, t.routes)
  {
    hide Shape, SessionsOk, TicketsOk, PromisesOk, RoutesOk, PendingNamed, ExpiredOk, TurnsOk, StagesOk,
         ChainsOk, HeadOk, JobsOk, JobsApart, UnsentOk, UndeliveredOk, DeliveriesOk, ReportsOk, SendsOk,
         AcceptedOk, WaitingOk;
  }

  lemma AcceptTurns(s: State, u: Uid, r: Route, response: Response)
    requires Invariant(s) && MayAccept(s, u, r, response)
    ensures var t := Accept(s, u, r, response);
      StagesOk(t.sessions, t.turns, t.routes, t.inflight)
  {
    hide Shape, SessionsOk, TicketsOk, PromisesOk, RoutesOk, OwnersOk, PendingOk, PendingNamed, ExpiredOk,
         TurnsOk, ChainsOk, HeadOk, JobsApart, UnsentOk, UndeliveredOk, DeliveriesOk, ReportsOk, SendsOk,
         AcceptedOk, WaitingOk;
    InitializeIsUnique(s, u, r);
    TurnsAreUnique(s, r.session);
  }

  lemma AcceptHistory(s: State, u: Uid, r: Route, response: Response)
    requires Invariant(s) && MayAccept(s, u, r, response)
    ensures var t := Accept(s, u, r, response);
      && AcceptedOk(t.managedDc, t.accepted, t.initOf, t.responses)
      && SendsOk(t.sends, t.sessions, t.issued, t.accepted)
  {
    hide Shape, SessionsOk, TicketsOk, PromisesOk, RoutesOk, OwnersOk, PendingOk, PendingNamed, ExpiredOk,
         TurnsOk, StagesOk, ChainsOk, HeadOk, JobsApart, UnsentOk, UndeliveredOk, DeliveriesOk, ReportsOk,
         WaitingOk;
    InitializeIsUnique(s, u, r);
  }

  lemma AcceptKeeps(s: State, u: Uid, r: Route, response: Response)
    requires Invariant(s) && MayAccept(s, u, r, response)
    ensures Invariant(Accept(s, u, r, response))
  {
    hide Shape, SessionsOk, TicketsOk, PromisesOk, RoutesOk, OwnersOk, PendingOk, PendingNamed, ExpiredOk,
         TurnsOk, StagesOk, ChainsOk, HeadOk, JobsApart, UnsentOk, UndeliveredOk, DeliveriesOk, ReportsOk,
         SendsOk, AcceptedOk, WaitingOk;
    InitializeIsUnique(s, u, r);
    EndJobTables(s, u);
    EndJobReports(s, u, s.reports, s.lost);
    EndJobHistory(s, u);
    ShrinkingSuffices(s, Accept(s, u, r, response).sessions);
    AcceptSessions(s, u, r, response);
    AcceptPromises(s, u, r, response);
    AcceptTables(s, u, r, response);
    AcceptTurns(s, u, r, response);
    AcceptHistory(s, u, r, response);
  }
}
