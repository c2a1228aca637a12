/**
 What becomes of a client's messages, stated over the events of a run: which of them are called on the
 executor and under which id, what goes over the wire and in which order, which calls are reported,
 and what closes a session.

 Line numbers refer to apps/dc-mcp-gateway/bridge.js.
 */
module BridgeCalls {
  import opened Basics
  import opened BridgeState
  import opened BridgeInvariant
  import opened BridgeSafety

  // ---- What the table operations leave alone ------------------------------------------------------

  /** Neither the queue of messages, nor the ids in use, nor the wire, nor which executor is in use. */
  ghost predicate Quiet(s: State, t: State) {
    t.waiting == s.waiting && t.issued == s.issued && t.sends == s.sends && t.current == s.current && t.stopping == s.stopping
  }

  /** Nor the initialize chains. */
  ghost predicate Settles(s: State, t: State) {
    Quiet(s, t) && t.turns == s.turns && t.chains == s.chains && t.expired == s.expired
  }

  lemma FaultsAreQuiet()
    ensures forall s: State, g: nat :: Quiet(s, FailClosed(s, g))
    ensures forall s: State :: Quiet(s, Fault(s))
    ensures forall s: State :: Respawn(s).waiting == s.waiting && Respawn(s).issued == s.issued && Respawn(s).sends == s.sends
                            && Respawn(s).current == s.current + 1 && Respawn(s).stopping == s.stopping
    ensures forall s: State, u, r: Route :: Quiet(s, Report(s, u, r))
  {
    hide FaultedSessions, GovernedOf, RoutesElsewhere;
  }

  lemma SessionsAreQuiet()
    ensures forall s: State, i: nat, v | i < |s.sessions| :: Settles(s, ResolveIn(s, i, v))
    ensures forall s: State, i: nat | i < |s.sessions| :: Settles(s, CloseIn(s, i))
    ensures forall s: State, u, r: Route | r.session < |s.sessions| :: Settles(s, DropRoute(s, u, r))
    ensures forall s: State, u, r: Route | r.session < |s.sessions| :: Settles(s, InstallRoute(s, u, r))
    ensures forall s: State, u, r: Route, x | r.session < |s.sessions| :: Settles(s, Accept(s, u, r, x))
    ensures forall s: State, u, r: Route, task | r.session < |s.sessions| :: Settles(s, TakeRoute(s, u, r, task))
  {
  }

  lemma JobsAreQuiet()
    ensures forall s: State, u, r: Route, reply :: Settles(s, Deliver(s, u, r, reply))
    ensures forall s: State, u, r: Route, task :: Settles(s, StartJob(s, u, r, task))
    ensures forall s: State, u :: Settles(s, EndJob(s, u))
    ensures forall s: State, u, reports, lost :: Settles(s, FinishJob(s, u, reports, lost))
    ensures forall s: State, u, x :: Settles(s, AddResponse(s, u, x))
  {
  }

  lemma TurnsAreQuiet()
    ensures forall s: State, g: nat, u | g < |s.expired| :: Quiet(s, Expire(s, g, u)) && Quiet(s, Unexpire(s, g, u))
    ensures forall s: State, u, r: Route | r.gen < |s.chains| :: Quiet(s, Enqueue(s, u, r))
    ensures forall s: State, g: nat | g < |s.chains| && |s.chains[g]| > 0 :: Quiet(s, PopTurn(s, g))
    ensures forall s: State, u, stage | u in s.turns :: Quiet(s, SetStage(s, u, stage))
    ensures forall s: State, g: nat, u, r: Route | r.session < |s.sessions| && g < |s.expired| && u in s.turns :: Quiet(s, LoseRace(s, g, u, r))
  {
  }

  // ---- Messages are neither lost nor invented ----------------------------------------------------

  /** A request or notification taken in on an open session of the current executor. */
  ghost function Admitted(s: State, e: Event): seq<Waiting>
    requires Enabled(s, e)
  {
    if e.MessageArrives? && (e.message.Request? || e.message.Notification?)
       && !s.sessions[e.session].closed && s.sessions[e.session].gen == s.current
    then [Waiting(e.session, e.message)] else []
  }

  ghost function Resumed(s: State, e: Event): seq<Waiting>
    requires Enabled(s, e)
  {
    if e.ForwardResumes? then [s.waiting[e.index]] else []
  }

  ghost function AllAdmitted(s: State, es: seq<Event>): seq<Waiting>
    requires IsRun(s, es)
    decreases |es|
  {
    if es == [] then [] else Admitted(s, es[0]) + AllAdmitted(Step(s, es[0]), es[1..])
  }

  ghost function AllResumed(s: State, es: seq<Event>): seq<Waiting>
    requires IsRun(s, es)
    decreases |es|
  {
    if es == [] then [] else Resumed(s, es[0]) + AllResumed(Step(s, es[0]), es[1..])
  }

  lemma RemoveOne(w: seq<Waiting>, k: nat)
    requires k < |w|
    ensures multiset(w) == multiset(w[..k] + w[k + 1..]) + multiset([w[k]])
  {
    assert w == w[..k] + [w[k]] + w[k + 1..];
  }

  lemma ConservedStepwise(s: State, e: Event)
    requires Enabled(s, e)
    ensures multiset(s.waiting) + multiset(Admitted(s, e)) == multiset(Step(s, e).waiting) + multiset(Resumed(s, e))
  {
    OnlyForwardingQueues(s, e);
    if e.ForwardResumes? { RemoveOne(s.waiting, e.index); }
  }

  /** Only the arrival and the resumption of a message touch the queue. */
  lemma OnlyForwardingQueues(s: State, e: Event)
    requires Enabled(s, e)
    ensures Step(s, e).waiting ==
      if e.ForwardResumes? then s.waiting[..e.index] + s.waiting[e.index + 1..] else s.waiting + Admitted(s, e)
  {
    hide OnForwardResumes, OnMessageArrives, OnInitializeArrives;
    match e
    case ForwardResumes(k, u, ok) => ForwardingIssues(s, k, u, ok);
    case MessageArrives(i, m) => ArrivingQueues(s, i, m);
    case InitializeArrives(i, id, u, carried, setup) => InitializingIssues(s, i, id, u, carried, setup);
    case _ => OthersAreQuiet(s, e);
  }

  lemma Balance(a: multiset<Waiting>, x: seq<Waiting>, y: seq<Waiting>, b: multiset<Waiting>, xs: seq<Waiting>, ys: seq<Waiting>,
                c: multiset<Waiting>)
    requires a + multiset(x) == b + multiset(y) && b + multiset(xs) == c + multiset(ys)
    ensures a + multiset(x + xs) == c + multiset(y + ys)
  {
    assert multiset(x + xs) == multiset(x) + multiset(xs) && multiset(y + ys) == multiset(y) + multiset(ys);
    assert a + (multiset(x) + multiset(xs)) == (b + multiset(y)) + multiset(xs);
    assert (b + multiset(y)) + multiset(xs) == (b + multiset(xs)) + multiset(y);
    assert (c + multiset(ys)) + multiset(y) == c + (multiset(y) + multiset(ys));
  }

  /** Over any run, the messages taken in are those still waiting and those forwarding resumed with, each as often. */
  lemma {:induction false} MessagesAreConserved(s: State, es: seq<Event>)
    requires IsRun(s, es)
    ensures multiset(s.waiting) + multiset(AllAdmitted(s, es)) == multiset(After(s, es).waiting) + multiset(AllResumed(s, es))
    decreases |es|
  {
    hide Step, Enabled, Admitted, Resumed;
    if es != [] {
      ConservedStepwise(s, es[0]);
      MessagesAreConserved(Step(s, es[0]), es[1..]);
      var t := Step(s, es[0]);
      Balance(multiset(s.waiting), Admitted(s, es[0]), Resumed(s, es[0]), multiset(t.waiting), AllAdmitted(t, es[1..]),
              AllResumed(t, es[1..]), multiset(After(s, es).waiting));
    }
  }

  // ---- Calls -------------------------------------------------------------------------------------

  /** The session may speak to the executor. */
  ghost predicate Ready(s: State, i: Sid) {
    i < |s.sessions| && s.sessions[i].upstreamInitialized && !s.sessions[i].closed && s.sessions[i].gen == s.current
  }

  /** The call a client makes with this event, under the id drawn for it. */
  ghost function CallIn(s: State, e: Event): map<Uid, Ticket>
    requires Enabled(s, e)
  {
    match e
    case InitializeArrives(i, id, u, _, _) =>
      if !s.sessions[i].closed && s.sessions[i].gen == s.current && id !in s.sessions[i].pending
      then map[u := Ticket(s.current, i, id, true, false)] else map[]
    case ForwardResumes(k, u, _) =>
      var Waiting(i, m) := s.waiting[k];
      if Ready(s, i) && m.Request? && m.id !in s.sessions[i].pending
      then map[u := Ticket(s.current, i, m.id, false, m.governed)] else map[]
    case _ => map[]
  }

  ghost function Calls(s: State, es: seq<Event>): map<Uid, Ticket>
    requires IsRun(s, es)
    decreases |es|
  {
    if es == [] then map[] else CallIn(s, es[0]) + Calls(Step(s, es[0]), es[1..])
  }

  /** What an event puts on the wire to the executor. */
  ghost function WireIn(s: State, e: Event): seq<Sent>
    requires Enabled(s, e)
  {
    match e
    case TurnSends(g, ok) =>
      var i := HeadTurn(s, g).route.session;
      if ok && !s.sessions[i].closed && g == s.current && s.sessions[i].gen == g then [Sent(g, i, true, Some(s.chains[g][0]))] else []
    case ForwardResumes(k, u, ok) =>
      var Waiting(i, m) := s.waiting[k];
      if !ok || !Ready(s, i) then []
      else if !m.Request? then [Sent(s.current, i, false, None)]
      else if m.id !in s.sessions[i].pending then [Sent(s.current, i, false, Some(u))]
      else []
    case _ => []
  }

  ghost function Wire(s: State, es: seq<Event>): seq<Sent>
    requires IsRun(s, es)
    decreases |es|
  {
    if es == [] then [] else WireIn(s, es[0]) + Wire(Step(s, es[0]), es[1..])
  }

  lemma ArrivingQueues(s: State, i: Sid, m: Message)
    requires i < |s.sessions|
    ensures var t := OnMessageArrives(s, i, m);
      && t.waiting == s.waiting + Admitted(s, MessageArrives(i, m)) && t.issued == s.issued && t.sends == s.sends
      && t.current == s.current && t.stopping == s.stopping
  {
    hide FailClosed;
    FaultsAreQuiet();
  }

  lemma ForwardingIssues(s: State, k: nat, u: Uid, ok: bool)
    requires Enabled(s, ForwardResumes(k, u, ok))
    ensures var t := OnForwardResumes(s, k, u, ok);
      && t.waiting == s.waiting[..k] + s.waiting[k + 1..]
      && t.issued == s.issued + CallIn(s, ForwardResumes(k, u, ok)) && t.sends == s.sends + WireIn(s, ForwardResumes(k, u, ok))
      && t.current == s.current && t.stopping == s.stopping
  {
    hide ForwardRequest, Fault, Dequeue;
    var Waiting(i, m) := s.waiting[k];
    var s0 := Dequeue(s, k);
    Dequeues(s, k);
    FaultsAreQuiet();
    Extended(s.issued, s.sends);
    if Ready(s, i) && m.Request? {
      ForwardingOne(s0, u, Route(s.current, i, m.id, false, m.governed, None, false), ok);
    }
  }

  lemma Dequeues(s: State, k: nat)
    requires k < |s.waiting|
    ensures var t := Dequeue(s, k);
      && t.waiting == s.waiting[..k] + s.waiting[k + 1..] && t.issued == s.issued && t.sends == s.sends
      && t.sessions == s.sessions && t.current == s.current && t.stopping == s.stopping
  {
  }

  /** Adding one entry, or none. */
  lemma Extended(issued: map<Uid, Ticket>, sends: seq<Sent>)
    ensures issued + map[] == issued && sends + [] == sends
    ensures forall u, x :: issued[u := x] == issued + map[u := x]
  {
  }

  lemma ForwardingOne(s: State, u: Uid, r: Route, ok: bool)
    requires r.session < |s.sessions|
    ensures var t := ForwardRequest(s, u, r, ok);
      var known := r.downstreamId in s.sessions[r.session].pending;
      && t.current == s.current && t.stopping == s.stopping
      && t.waiting == s.waiting && t.issued == (if known then s.issued else s.issued[u := TicketOf(r)])
      && t.sends == if known || !ok then s.sends else s.sends + [Sent(r.gen, r.session, false, Some(u))]
  {
    hide FailClosed, InstallRoute, Report, Fault;
    FaultsAreQuiet();
    SessionsAreQuiet();
  }

  lemma InitializingIssues(s: State, i: Sid, id: RpcId, u: Uid, carried: Option<Challenge>, setup: Setup)
    requires Enabled(s, InitializeArrives(i, id, u, carried, setup))
    ensures var t := OnInitializeArrives(s, i, id, u, carried, setup);
      && t.waiting == s.waiting && t.issued == s.issued + CallIn(s, InitializeArrives(i, id, u, carried, setup)) && t.sends == s.sends
      && t.current == s.current && t.stopping == s.stopping
  {
    hide FailClosed, Deliver, StartJob, Enqueue, Admit;
    FaultsAreQuiet();
    JobsAreQuiet();
    TurnsAreQuiet();
    AdmittingIssues(s, u, Route(s.sessions[i].gen, i, id, true, false, carried, false));
    Extended(s.issued, s.sends);
  }

  lemma AdmittingIssues(s: State, u: Uid, r: Route)
    requires r.session < |s.sessions|
    ensures var t := Admit(s, u, r); t.waiting == s.waiting && t.issued == s.issued[u := TicketOf(r)] && t.sends == s.sends
    ensures Admit(s, u, r).chains == s.chains && Admit(s, u, r).current == s.current && Admit(s, u, r).stopping == s.stopping
  {
  }

  lemma TurnsIssueNothing(s: State, e: Event)
    requires Enabled(s, e) && (e.BootstrapIssued? || e.TurnStarts? || e.TurnEnds? || e.InitializeTimesOut?)
    ensures Quiet(s, Step(s, e))
  {
    hide ResolveIn, InstallRoute, Deliver, StartJob, EndJob, Enqueue, PopTurn, SetStage, LoseRace;
    SessionsAreQuiet();
    JobsAreQuiet();
    TurnsAreQuiet();
  }

  lemma TurnsSend(s: State, g: nat, ok: bool)
    requires Enabled(s, TurnSends(g, ok))
    ensures var t := OnTurnSends(s, g, ok);
      && t.waiting == s.waiting && t.issued == s.issued && t.sends == s.sends + WireIn(s, TurnSends(g, ok))
      && t.current == s.current && t.stopping == s.stopping
  {
    hide ResolveIn, DropRoute, Fault, PopTurn, SetStage;
    FaultsAreQuiet();
    SessionsAreQuiet();
    TurnsAreQuiet();
  }

  lemma AnsweringIssuesNothing(s: State, e: Event)
    requires Enabled(s, e) && (e.ExecutorResponds? || e.BootstrapCompleted? || e.SendSettles?)
    ensures Quiet(s, Step(s, e))
  {
    hide OnSendSettles, AnswerRoute, FailClosed, Deliver, StartJob, Unexpire, SentTo;
    FaultsAreQuiet();
    TurnsAreQuiet();
    JobsAreQuiet();
    if e.SendSettles? {
      SettlingIssuesNothing(s, e.uid, e.ok);
    } else if e.ExecutorResponds? && e.uid in s.routes {
      AnswerIssuesNothing(s, e.uid, s.routes[e.uid], e.response);
    }
  }

  lemma SettlingIssuesNothing(s: State, u: Uid, ok: bool)
    requires Enabled(s, SendSettles(u, ok))
    ensures Quiet(s, OnSendSettles(s, u, ok))
  {
    hide FailClosed, ResolveIn, EndJob, CloseIn, Fault, OnDelivered, OnUndeliverable;
    FaultsAreQuiet();
    SessionsAreQuiet();
    JobsAreQuiet();
    var Job(r, task) := s.inflight[u];
    if task.Answering? { EndingIssuesNothing(s, u, r, task.response); }
  }

  lemma EndingIssuesNothing(s: State, u: Uid, r: Route, response: Response)
    requires r.session < |s.sessions|
    ensures Quiet(s, OnDelivered(s, u, r, response)) && Quiet(s, OnUndeliverable(s, u, r))
  {
    hide FailClosed, ResolveIn, FinishJob, Accept;
    FaultsAreQuiet();
    SessionsAreQuiet();
    JobsAreQuiet();
  }

  lemma AnswerIssuesNothing(s: State, u: Uid, r: Route, response: Response)
    requires r.session < |s.sessions|
    ensures Quiet(s, AnswerRoute(s, u, r, response))
  {
    hide ResolveIn, DropRoute, Deliver, TakeRoute, AddResponse;
    SessionsAreQuiet();
    JobsAreQuiet();
  }

  lemma ClosingIssuesNothing(s: State, e: Event)
    requires Enabled(s, e)
    requires e.Connect? || e.ClientCloses? || e.ExecutorCloses? || e.ExecutorRequests? || e.ForwardFaults? || e.ShutsDown?
    ensures var t := Step(s, e);
      && t.waiting == s.waiting && t.issued == s.issued && t.sends == s.sends
      && t.current == CurrentIn(s, e) && t.stopping == (s.stopping || e.ShutsDown?)
  {
    hide FailClosed, Respawn, OnClientCloses, OnConnect;
    FaultsAreQuiet();
    match e
    case ClientCloses(i) => LeavingIssuesNothing(s, i);
    case Connect => LeavingIssuesNothing(s, |s.sessions|);
    case _ =>
  }

  lemma LeavingIssuesNothing(s: State, i: Sid)
    ensures i < |s.sessions| ==> Quiet(s, OnClientCloses(s, i))
    ensures Quiet(s, OnConnect(s))
  {
    hide PendingRoutes, CloseSession;
  }

  /** The executor in use after an event: the next one exactly if the current one closes and the bridge is not shutting down. */
  ghost function CurrentIn(s: State, e: Event): nat {
    if e == ExecutorCloses(s.current) && !s.stopping then s.current + 1 else s.current
  }

  lemma OthersAreQuiet(s: State, e: Event)
    requires Enabled(s, e) && !e.ForwardResumes? && !e.MessageArrives? && !e.InitializeArrives?
    ensures var t := Step(s, e); t.waiting == s.waiting + Admitted(s, e) && t.issued == s.issued + CallIn(s, e)
    ensures Step(s, e).sends == s.sends + WireIn(s, e)
    ensures Step(s, e).current == CurrentIn(s, e) && Step(s, e).stopping == (s.stopping || e.ShutsDown?)
  {
    hide Step;
    if e.TurnSends? {
      StepSends(s, e.gen, e.ok);
    } else if e.BootstrapIssued? || e.TurnStarts? || e.TurnEnds? || e.InitializeTimesOut? {
      TurnsIssueNothing(s, e);
    } else if e.ExecutorResponds? || e.BootstrapCompleted? || e.SendSettles? {
      AnsweringIssuesNothing(s, e);
    } else {
      ClosingIssuesNothing(s, e);
    }
  }

  lemma StepSends(s: State, g: nat, ok: bool)
    requires Enabled(s, TurnSends(g, ok))
    ensures var t := Step(s, TurnSends(g, ok));
      && t.waiting == s.waiting && t.issued == s.issued && t.sends == s.sends + WireIn(s, TurnSends(g, ok))
      && t.current == s.current && t.stopping == s.stopping
  {
    hide OnTurnSends;
    TurnsSend(s, g, ok);
  }

  lemma IssuedStepwise(s: State, e: Event)
    requires Enabled(s, e)
    ensures Step(s, e).issued == s.issued + CallIn(s, e) && Step(s, e).sends == s.sends + WireIn(s, e)
    ensures Step(s, e).current == CurrentIn(s, e) && Step(s, e).stopping == (s.stopping || e.ShutsDown?)
  {
    hide OnForwardResumes, OnMessageArrives, OnInitializeArrives;
    match e
    case ForwardResumes(k, u, ok) => ForwardingIssues(s, k, u, ok);
    case MessageArrives(i, m) => ArrivingQueues(s, i, m);
    case InitializeArrives(i, id, u, carried, setup) => InitializingIssues(s, i, id, u, carried, setup);
    case _ => OthersAreQuiet(s, e);
  }

  lemma Associative(a: map<Uid, Ticket>, b: map<Uid, Ticket>, c: map<Uid, Ticket>)
    ensures (a + b) + c == a + (b + c)
  {
  }

  /** Over any run, the ids in use are those of the calls the clients made, each for its own call. */
  lemma {:induction false} CallsAreIssued(s: State, es: seq<Event>)
    requires IsRun(s, es)
    ensures After(s, es).issued == s.issued + Calls(s, es)
    ensures After(s, es).sends == s.sends + Wire(s, es)
    decreases |es|
  {
    hide Step, Enabled, CallIn, WireIn;
    if es != [] {
      IssuedStepwise(s, es[0]);
      CallsAreIssued(Step(s, es[0]), es[1..]);
      Associative(s.issued, CallIn(s, es[0]), Calls(Step(s, es[0]), es[1..]));
    }
  }

  /**
   From start-up, over any run: the wire carries exactly the initializes whose turn came, and the
   notifications and fresh requests of sessions whose own initialize was accepted, in the order their
   forwarding resumed.
   */
  lemma WireIsTheCalls(managedDc: bool, es: seq<Event>)
    requires IsRun(Initial(managedDc), es)
    ensures After(Initial(managedDc), es).issued == Calls(Initial(managedDc), es)
    ensures After(Initial(managedDc), es).sends == Wire(Initial(managedDc), es)
  {
    CallsAreIssued(Initial(managedDc), es);
  }

  /** The closings of the executor in use before the bridge was told to stop. */
  ghost function Replacements(s: State, es: seq<Event>): nat
    requires IsRun(s, es)
    decreases |es|
  {
    if es == [] then 0
    else (if es[0] == ExecutorCloses(s.current) && !s.stopping then 1 else 0) + Replacements(Step(s, es[0]), es[1..])
  }

  /** Over any run, a new executor is started for each that closes while in use, and none once the bridge is told to stop. */
  lemma {:induction false} ExecutorsAreReplaced(s: State, es: seq<Event>)
    requires IsRun(s, es)
    ensures After(s, es).current == s.current + Replacements(s, es)
    ensures After(s, es).stopping <==> s.stopping || ShutsDown in es
    decreases |es|
  {
    hide Step, Enabled;
    if es != [] {
      IssuedStepwise(s, es[0]);
      ExecutorsAreReplaced(Step(s, es[0]), es[1..]);
    }
  }

  /**
   From start-up, over any run: a call the client marked as governed is reported at most once, and
   exactly once when it is neither routed nor being answered, unless its answer could not be delivered;
   a call not so marked is never reported, and nothing else is.
   */
  lemma GovernedCallsAreReported(managedDc: bool, es: seq<Event>, u: Uid)
    requires IsRun(Initial(managedDc), es)
    ensures var s, calls := After(Initial(managedDc), es), Calls(Initial(managedDc), es);
      if u in calls && calls[u].governed then
        && s.reports[u] <= 1
        && (s.reports[u] == 1 <==> u !in s.routes && u !in s.inflight && u !in s.lost)
        && !(u in s.routes && u in s.inflight)
      else u !in s.reports && u !in s.lost
  {
    hide Shape, SessionsOk, TicketsOk, PromisesOk, RoutesOk, OwnersOk, PendingOk, PendingNamed, ExpiredOk,
         TurnsOk, StagesOk, ChainsOk, HeadOk, JobsOk, JobsApart, UnsentOk, UndeliveredOk, DeliveriesOk,
         SendsOk, AcceptedOk, WaitingOk;
    WireIsTheCalls(managedDc, es);
    InitialInvariant(managedDc);
    RunKeeps(Initial(managedDc), es);
  }

  /**
   A request whose forwarding resumes on a session that may speak, under an id that is not in use, is
   routed back to that client under its own id and marked as the client marked it; if the send fails,
   it leaves nothing behind but a fault to be handled and, if it was governed, its report.  On any
   other session it is dropped.
   */
  lemma RequestIsForwarded(s: State, k: nat, u: Uid, ok: bool)
    requires Reachable(s) && Enabled(s, ForwardResumes(k, u, ok)) && s.waiting[k].message.Request?
    ensures var Waiting(i, m) := s.waiting[k];
      var t := Step(s, ForwardResumes(k, u, ok));
      && (Ready(s, i) && m.id !in s.sessions[i].pending ==>
            if ok then
              && t.routes == s.routes[u := Route(s.current, i, m.id, false, m.governed, None, false)]
              && t.sessions[i].pending == s.sessions[i].pending[m.id := u]
              && t.reports == s.reports && t.faults == s.faults
            else
              && t.routes == s.routes && t.sessions == s.sessions
              && t.reports == s.reports + (if m.governed then multiset{u} else multiset{}) && t.faults == s.faults + 1)
      && (!Ready(s, i) ==> t == s.(waiting := t.waiting))
  {
    hide FaultedSessions, GovernedOf, RoutesElsewhere, Reachable;
  }

  // ---- What closes a session ---------------------------------------------------------------------

  /** The event makes the bridge give up on executor `g`. */
  ghost predicate IsFault(s: State, e: Event, g: nat)
    requires Enabled(s, e)
  {
    match e
    // A client uses one id twice, or sends what no client may send.
    case InitializeArrives(i, id, _, _, _) => s.sessions[i].gen == g && Open(s, i) && id in s.sessions[i].pending
    case MessageArrives(i, m) => s.sessions[i].gen == g && Open(s, i) && (m.ClientResponse? || m.Malformed?)
    case ForwardResumes(k, _, _) =>
      var Waiting(i, m) := s.waiting[k];
      s.sessions[i].gen == g && Ready(s, i) && m.Request? && m.id in s.sessions[i].pending
    // The executor answers what it was not asked, asks something itself, or goes away.
    case ExecutorResponds(h, u, _) => h == g && u !in s.expired[g] && (u !in s.routes || s.routes[u].gen != g)
    case ExecutorRequests(h) => h == g
    case ExecutorCloses(h) => h == g == s.current
    // An answer cannot be delivered.
    case SendSettles(u, ok) =>
      var Job(r, task) := s.inflight[u];
      !ok && r.gen == g && (task.Answering? || task.Rejecting?)
    case ForwardFaults => g == s.current
    case ShutsDown => g == s.current
    case _ => false
  }

  ghost predicate Open(s: State, i: Sid) {
    i < |s.sessions| && !s.sessions[i].closed && s.sessions[i].gen == s.current
  }

  /** The event closes session `i`: a fault of its executor, the client's own doing, or its timed-out initialize. */
  ghost predicate Closes(s: State, e: Event, i: Sid)
    requires Enabled(s, e) && i < |s.sessions|
  {
    || IsFault(s, e, s.sessions[i].gen)
    || (e.ClientCloses? && e.session == i)
    || (e.SendSettles? && s.inflight[e.uid].task.Expiring? && s.inflight[e.uid].route.session == i)
  }

  /** Which sessions are closed, listed, and of which executor. */
  datatype Flag = Flag(closed: bool, listed: bool, gen: nat)

  ghost function Flags(xs: seq<Session>): (r: seq<Flag>)
    ensures |r| == |xs| && forall i :: 0 <= i < |xs| ==> r[i] == Flag(xs[i].closed, xs[i].listed, xs[i].gen)
  {
    seq(|xs|, i requires 0 <= i < |xs| => Flag(xs[i].closed, xs[i].listed, xs[i].gen))
  }

  ghost predicate Steady(s: State, t: State) {
    Flags(t.sessions) == Flags(s.sessions)
  }

  lemma FaultCloses(s: State, g: nat, i: Sid)
    requires i < |s.sessions|
    ensures FailClosed(s, g).sessions[i].closed <==> s.sessions[i].closed || (s.sessions[i].listed && s.sessions[i].gen == g)
  {
    hide GovernedOf, RoutesElsewhere;
  }

  lemma SessionsAreSteady()
    ensures forall s: State, i: nat, v | i < |s.sessions| :: Steady(s, ResolveIn(s, i, v))
    ensures forall s: State, u, r: Route | r.session < |s.sessions| :: Steady(s, DropRoute(s, u, r))
    ensures forall s: State, u, r: Route | r.session < |s.sessions| :: Steady(s, InstallRoute(s, u, r))
    ensures forall s: State, u, r: Route, x | r.session < |s.sessions| :: Steady(s, Accept(s, u, r, x))
    ensures forall s: State, u, r: Route, task | r.session < |s.sessions| :: Steady(s, TakeRoute(s, u, r, task))
    ensures forall s: State, u, r: Route | r.session < |s.sessions| :: Steady(s, Admit(s, u, r))
  {
  }

  lemma JobsAreSteady()
    ensures forall s: State, u, r: Route, reply :: Deliver(s, u, r, reply).sessions == s.sessions
    ensures forall s: State, u, r: Route, task :: StartJob(s, u, r, task).sessions == s.sessions
    ensures forall s: State, u :: EndJob(s, u).sessions == s.sessions
    ensures forall s: State, u, reports, lost :: FinishJob(s, u, reports, lost).sessions == s.sessions
    ensures forall s: State, u, x :: AddResponse(s, u, x).sessions == s.sessions
    ensures forall s: State :: Fault(s).sessions == s.sessions
  {
  }

  lemma TurnsAreSteady()
    ensures forall s: State, u, r: Route | r.gen < |s.chains| :: Enqueue(s, u, r).sessions == s.sessions
    ensures forall s: State, g: nat | g < |s.chains| && |s.chains[g]| > 0 :: PopTurn(s, g).sessions == s.sessions
    ensures forall s: State, u, stage | u in s.turns :: SetStage(s, u, stage).sessions == s.sessions
    ensures forall s: State, x :: AddSend(s, x).sessions == s.sessions
    ensures forall s: State, g: nat, u, r: Route | r.session < |s.sessions| && g < |s.expired| && u in s.turns :: Steady(s, LoseRace(s, g, u, r))
  {
  }

  lemma SettlingCloses(s: State, u: Uid, ok: bool, i: Sid)
    requires Enabled(s, SendSettles(u, ok)) && i < |s.sessions| && !s.sessions[i].closed
    requires Invariant(s)
    ensures var t := OnSendSettles(s, u, ok);
      i < |t.sessions| && (t.sessions[i].closed <==> Closes(s, SendSettles(u, ok), i))
  {
    hide Invariant, FailClosed, ResolveIn, EndJob, FinishJob, Fault, Accept;
    OpenIsCurrent(s, i);
    JobsAreSteady();
    SessionsAreSteady();
    var Job(r, task) := s.inflight[u];
    match task
    case RefusingSetup =>
    case Rejecting => FaultCloses(EndJob(s, u), r.gen, i);
    case Expiring =>
    case Answering(response) =>
      var t := FinishJob(s, u, s.reports, if r.governed then s.lost + {u} else s.lost);
      FaultCloses(if r.initialize then ResolveIn(t, r.session, false) else t, r.gen, i);
  }

  lemma AnsweringKeepsOpen(s: State, u: Uid, r: Route, response: Response, i: Sid)
    requires r.session < |s.sessions| && i < |s.sessions|
    ensures var t := AnswerRoute(s, u, r, response); i < |t.sessions| && t.sessions[i].closed == s.sessions[i].closed
  {
    hide ResolveIn, DropRoute, Deliver, TakeRoute, AddResponse;
    JobsAreSteady();
    SessionsAreSteady();
  }

  lemma UnexpiringIsSteady(s: State, g: nat, u: Uid)
    requires g < |s.expired|
    ensures Unexpire(s, g, u).sessions == s.sessions
  {
  }

  lemma RespondingCloses(s: State, g: nat, u: Uid, response: Response, i: Sid)
    requires Enabled(s, ExecutorResponds(g, u, response)) && i < |s.sessions| && !s.sessions[i].closed
    requires Invariant(s)
    ensures var t := OnExecutorResponds(s, g, u, response);
      i < |t.sessions| && (t.sessions[i].closed <==> Closes(s, ExecutorResponds(g, u, response), i))
  {
    hide Invariant, FailClosed, AnswerRoute, Unexpire, SentTo, Flags, Steady;
    UnexpiringIsSteady(s, g, u);
    OpenIsCurrent(s, i);
    FaultCloses(s, g, i);
    if u in s.routes { AnsweringKeepsOpen(s, u, s.routes[u], response, i); }
  }

  lemma InitializeCloses(s: State, i0: Sid, id: RpcId, u: Uid, carried: Option<Challenge>, setup: Setup, i: Sid)
    requires Enabled(s, InitializeArrives(i0, id, u, carried, setup)) && i < |s.sessions| && !s.sessions[i].closed
    requires Invariant(s)
    ensures var t := OnInitializeArrives(s, i0, id, u, carried, setup);
      i < |t.sessions| && (t.sessions[i].closed <==> Closes(s, InitializeArrives(i0, id, u, carried, setup), i))
  {
    hide Invariant, FailClosed, Admit, StartJob, Deliver, Enqueue;
    OpenIsCurrent(s, i);
    FaultCloses(s, s.current, i);
    AdmittingIssues(s, u, Route(s.sessions[i0].gen, i0, id, true, false, carried, false));
    JobsAreSteady();
    SessionsAreSteady();
    TurnsAreSteady();
    JobsAreQuiet();
  }

  lemma TurnsCloseNothing(s: State, e: Event, i: Sid)
    requires Enabled(s, e) && i < |s.sessions|
    requires e.BootstrapIssued? || e.BootstrapCompleted? || e.TurnStarts? || e.TurnSends? || e.InitializeTimesOut? || e.TurnEnds?
    ensures i < |Step(s, e).sessions| && Step(s, e).sessions[i].closed == s.sessions[i].closed
  {
    hide OnTurnSends, OnTurnStarts, OnBootstrapIssued, OnInitializeTimesOut, StartJob, Deliver, PopTurn;
    JobsAreSteady();
    TurnsAreSteady();
    match e
    case TurnSends(g, ok) => SendingClosesNothing(s, g, ok, i);
    case TurnStarts(g) => StartingClosesNothing(s, g, i);
    case BootstrapIssued(u, challenge) => IssuingClosesNothing(s, u, challenge, i);
    case InitializeTimesOut(g) => TimingOutClosesNothing(s, g, i);
    case _ =>
  }

  lemma StartingClosesNothing(s: State, g: nat, i: Sid)
    requires Enabled(s, TurnStarts(g)) && i < |s.sessions|
    ensures var t := OnTurnStarts(s, g); i < |t.sessions| && t.sessions[i].closed == s.sessions[i].closed
  {
    hide ResolveIn, InstallRoute, PopTurn, SetStage;
    SessionsAreSteady();
    TurnsAreSteady();
    SessionsAreQuiet();
  }

  lemma IssuingClosesNothing(s: State, u: Uid, challenge: Option<Challenge>, i: Sid)
    requires Enabled(s, BootstrapIssued(u, challenge)) && i < |s.sessions|
    ensures var t := OnBootstrapIssued(s, u, challenge); i < |t.sessions| && t.sessions[i].closed == s.sessions[i].closed
  {
    hide Deliver, StartJob, EndJob, Enqueue;
    JobsAreSteady();
    TurnsAreSteady();
    JobsAreQuiet();
  }

  lemma TimingOutClosesNothing(s: State, g: nat, i: Sid)
    requires Enabled(s, InitializeTimesOut(g)) && i < |s.sessions|
    ensures var t := OnInitializeTimesOut(s, g); i < |t.sessions| && t.sessions[i].closed == s.sessions[i].closed
  {
    hide PopTurn, LoseRace;
    TurnsAreSteady();
  }

  lemma SendingClosesNothing(s: State, g: nat, ok: bool, i: Sid)
    requires Enabled(s, TurnSends(g, ok)) && i < |s.sessions|
    ensures var t := OnTurnSends(s, g, ok); i < |t.sessions| && t.sessions[i].closed == s.sessions[i].closed
  {
    hide ResolveIn, DropRoute, Fault, PopTurn, SetStage, AddSend;
    JobsAreSteady();
    SessionsAreSteady();
    TurnsAreSteady();
    SessionsAreQuiet();
  }

  lemma ArrivingCloses(s: State, j: Sid, m: Message, i: Sid)
    requires j < |s.sessions| && i < |s.sessions| && !s.sessions[i].closed
    requires Invariant(s)
    ensures var t := OnMessageArrives(s, j, m);
      i < |t.sessions| && (t.sessions[i].closed <==> Closes(s, MessageArrives(j, m), i))
  {
    hide Invariant, FailClosed;
    OpenIsCurrent(s, i);
    FaultCloses(s, s.sessions[j].gen, i);
  }

  lemma ForwardingCloses(s: State, k: nat, u: Uid, ok: bool, i: Sid)
    requires Enabled(s, ForwardResumes(k, u, ok)) && i < |s.sessions| && !s.sessions[i].closed
    requires Invariant(s)
    ensures var t := OnForwardResumes(s, k, u, ok);
      i < |t.sessions| && (t.sessions[i].closed <==> Closes(s, ForwardResumes(k, u, ok), i))
  {
    hide Invariant, ForwardRequest, AddSend, Fault, Flags, Steady, Dequeue;
    Dequeues(s, k);
    OpenIsCurrent(s, i);
    JobsAreSteady();
    TurnsAreSteady();
    var Waiting(j, m) := s.waiting[k];
    if Ready(s, j) && m.Request? {
      var s0 := Dequeue(s, k);
      RequestCloses(s0, u, Route(s.current, j, m.id, false, m.governed, None, false), ok, i);
    }
  }

  lemma RequestCloses(s: State, u: Uid, r: Route, ok: bool, i: Sid)
    requires r.session < |s.sessions| && i < |s.sessions| && s.sessions[i].listed && !s.sessions[i].closed
    ensures var t := ForwardRequest(s, u, r, ok);
      i < |t.sessions|
      && (t.sessions[i].closed <==> r.downstreamId in s.sessions[r.session].pending && s.sessions[i].gen == r.gen)
  {
    hide FailClosed, InstallRoute, AddSend, Fault, Report;
    FaultCloses(s, r.gen, i);
    JobsAreSteady();
    SessionsAreSteady();
    TurnsAreSteady();
    ReportsAreSteady();
    IssuingIsSteady(s, u, r);
  }

  lemma IssuingIsSteady(s: State, u: Uid, r: Route)
    ensures IssueRequest(s, u, r).sessions == s.sessions
  {
  }

  lemma ReportsAreSteady()
    ensures forall s: State, u, r: Route :: Report(s, u, r).sessions == s.sessions
  {
  }

  /**
   An open session is closed by an event exactly when the client closes it, its initialize timed out,
   or the event is a fault of its executor; and a fault closes every session of that executor.
   */
  lemma SessionIsClosedExactlyWhen(s: State, e: Event, i: Sid)
    requires Reachable(s) && Enabled(s, e) && i < |s.sessions| && !s.sessions[i].closed
    ensures i < |Step(s, e).sessions| && (Step(s, e).sessions[i].closed <==> Closes(s, e, i))
  {
    hide Invariant, Reachable, FailClosed, OnSendSettles, OnExecutorResponds, OnInitializeArrives, OnBootstrapIssued, OnTurnStarts,
         OnTurnSends, OnInitializeTimesOut, OnMessageArrives, OnForwardResumes, OnClientCloses, OnConnect, Respawn;
    ReachableInvariant(s);
    RespawningIsSteady(FailClosed(s, s.current));
    OpenIsCurrent(s, i);
    match e
    case SendSettles(u, ok) => SettlingCloses(s, u, ok, i);
    case ExecutorResponds(g, u, response) => RespondingCloses(s, g, u, response, i);
    case MessageArrives(j, m) => ArrivingCloses(s, j, m, i);
    case ForwardResumes(k, u, ok) => ForwardingCloses(s, k, u, ok, i);
    case InitializeArrives(j, id, u, carried, setup) => InitializeCloses(s, j, id, u, carried, setup, i);
    case Connect => ComingAndGoing(s, |s.sessions|, i);
    case ClientCloses(j) => ComingAndGoing(s, j, i);
    case ExecutorRequests(g) => FaultCloses(s, g, i);
    case ExecutorCloses(g) => FaultCloses(s, g, i);
    case ForwardFaults => FaultCloses(s.(faults := s.faults - 1), s.current, i);
    case ShutsDown => FaultCloses(s.(stopping := true), s.current, i);
    case _ => TurnsCloseNothing(s, e, i);
  }

  lemma ComingAndGoing(s: State, j: Sid, i: Sid)
    requires i < |s.sessions|
    ensures i < |OnConnect(s).sessions| && OnConnect(s).sessions[i] == s.sessions[i]
    ensures j < |s.sessions| ==>
              i < |OnClientCloses(s, j).sessions| && (OnClientCloses(s, j).sessions[i].closed <==> s.sessions[i].closed || i == j)
  {
    hide PendingRoutes;
  }

  lemma RespawningIsSteady(s: State)
    ensures Respawn(s).sessions == s.sessions
  {
  }
}
