/**
 The dashboard refresh scheduler: one timer, one fetch at a time, retries with back-off, and catch-up
 requests that stay pending until a response for them was applied.

 A timer never fires before its due time.

 Line numbers refer to apps/control-ui/src/live-dashboard.ts.
 */
module Dashboard {
  import opened Basics

  const WORK_ITEM_REFRESH_DEBOUNCE_MS := 250
  const MIN_REFRESH_INTERVAL_MS := 1_000
  const MAX_REFRESH_RETRY_MS := 30_000

  datatype State = State(
    now: int,
    timer: Option<int>,
    inFlight: bool,
    queued: bool,
    lastAttempt: int,
    failures: nat,
    catchUp: bool,
    // The attempt in flight: whether it is a catch-up.
    carrying: bool,
    past: Past
  )

  /**
   History: a request came since the last attempt started; catch-up requests made, carried by the
   last catch-up attempt, and applied; when attempts started; fetches in flight.
   */
  datatype Past = Past(wanted: bool, asked: nat, carried: nat, applied: nat, starts: seq<int>, fetches: int)

  function Initial(now: nat): State {
    State(now, None, false, false, 0, 0, false, false, Past(false, 0, 0, 0, [], 0))
  }

  function Max(a: int, b: int): int { if a < b then b else a }
  function Min(a: int, b: int): int { if a < b then a else b }

  function Due(s: State, delay: int): int {
    Max(s.now + Max(0, delay), s.lastAttempt + MIN_REFRESH_INTERVAL_MS)
  }

  /** Arming the timer: an earlier one stays. */
  function Arm(s: State, delay: int): State {
    if s.timer.Some? && s.timer.value <= Due(s, delay) then s else s.(timer := Some(Due(s, delay)))
  }

  function Wanting(s: State, catchUp: bool): State {
    if catchUp then s.(catchUp := true, past := s.past.(wanted := true, asked := s.past.asked + 1))
    else s.(past := s.past.(wanted := true))
  }

  /** `scheduleDashboardRefresh` called for a request. */
  function Request(s: State, delay: int, catchUp: bool): State {
    Arm(Wanting(s, catchUp), delay)
  }

  function Started(p: Past, catchUp: bool, now: int): Past {
    Past(false, p.asked, if catchUp then p.asked else p.carried, p.applied, p.starts + [now], p.fetches + 1)
  }

  /** The timer callback and the start of `refreshDashboard`. */
  function Fire(s: State): State {
    var t := s.(timer := None);
    if t.inFlight then t.(queued := true)
    else
      t.(inFlight := true, lastAttempt := t.now, carrying := t.catchUp, catchUp := false, past := Started(t.past, t.catchUp, t.now))
  }

  function Pow2(n: nat): nat { if n == 0 then 1 else 2 * Pow2(n - 1) }

  function Landed(s: State, applied: nat): State {
    s.(inFlight := false, carrying := false, past := s.past.(fetches := s.past.fetches - 1, applied := applied))
  }

  /** The response was applied. */
  function Succeed(s: State): State {
    var t := Landed(s, if s.carrying then s.past.carried else s.past.applied).(failures := 0);
    if t.queued then Arm(t.(queued := false), WORK_ITEM_REFRESH_DEBOUNCE_MS) else t
  }

  /** The fetch failed, or its response could not be applied. */
  function Fail(s: State): State {
    var t := Landed(s, s.past.applied).(failures := s.failures + 1, catchUp := s.catchUp || s.carrying, queued := false);
    Arm(t, Min(MAX_REFRESH_RETRY_MS, 1000 * Pow2(t.failures - 1)))
  }

  datatype Event = Tick(now: int) | Requests(delay: int, catchUp: bool) | Fires | Succeeds | Fails

  predicate Enabled(s: State, e: Event) {
    match e
    case Tick(now) => now >= s.now
    case Requests(_, _) => true
    case Fires => s.timer.Some? && s.timer.value <= s.now
    case Succeeds => s.inFlight
    case Fails => s.inFlight
  }

  function Step(s: State, e: Event): State
    requires Enabled(s, e)
  {
    match e
    case Tick(now) => s.(now := now)
    case Requests(delay, catchUp) => Request(s, delay, catchUp)
    case Fires => Fire(s)
    case Succeeds => Succeed(s)
    case Fails => Fail(s)
  }

  predicate IsRun(s: State, es: seq<Event>)
    decreases |es|
  {
    es == [] || (Enabled(s, es[0]) && IsRun(Step(s, es[0]), es[1..]))
  }

  function After(s: State, es: seq<Event>): State
    requires IsRun(s, es)
    decreases |es|
  {
    if es == [] then s else After(Step(s, es[0]), es[1..])
  }

  // ---- What every run keeps ----------------------------------------------------------------------

  /** Something will start another attempt. */
  predicate Pending(s: State) { s.timer.Some? || (s.inFlight && s.queued) }

  ghost predicate Spaced(starts: seq<int>) {
    forall i :: 0 < i < |starts| ==> starts[i] - starts[i - 1] >= MIN_REFRESH_INTERVAL_MS
  }

  /** Everything but the promise that pending work has a timer. */
  ghost predicate Coupled(s: State) {
    && (s.queued ==> s.inFlight) && (s.carrying ==> s.inFlight)
    && s.past.applied <= s.past.carried <= s.past.asked
    && (s.past.asked > s.past.applied ==> s.catchUp || (s.carrying && s.past.carried == s.past.asked))
    && s.past.fetches == (if s.inFlight then 1 else 0)
    && (s.timer.Some? ==> s.timer.value >= s.lastAttempt + MIN_REFRESH_INTERVAL_MS)
    && s.lastAttempt <= s.now
    && Spaced(s.past.starts) && (s.past.starts != [] ==> s.past.starts[|s.past.starts| - 1] == s.lastAttempt)
  }

  ghost predicate Invariant(s: State) {
    && (s.past.wanted ==> Pending(s))
    && (s.failures > 0 ==> Pending(s) || s.inFlight)
    && (s.catchUp ==> Pending(s))
    && Coupled(s)
  }

  lemma {:induction false} Pow2Positive(n: nat)
    ensures Pow2(n) >= 1
  {
    if n > 0 { Pow2Positive(n - 1); }
  }

  /** With the timer armed nothing can be lost. */
  lemma ArmKeeps(s: State, delay: int)
    requires Coupled(s)
    ensures Invariant(Arm(s, delay)) && Arm(s, delay).timer.Some?
  {
    hide Spaced;
  }

  lemma RequestKeeps(s: State, delay: int, catchUp: bool)
    requires Invariant(s)
    ensures Invariant(Request(s, delay, catchUp))
  {
    hide Spaced, Arm;
    ArmKeeps(Wanting(s, catchUp), delay);
  }

  lemma FireKeeps(s: State)
    requires Invariant(s) && Enabled(s, Fires)
    ensures Invariant(Fire(s))
  {
    hide Spaced;
    assert Spaced(s.past.starts + [s.now]) by { PushStart(s.past.starts, s.now); }
  }

  lemma PushStart(starts: seq<int>, now: int)
    requires Spaced(starts) && (starts != [] ==> now >= starts[|starts| - 1] + MIN_REFRESH_INTERVAL_MS)
    ensures Spaced(starts + [now])
  {
  }

  lemma SucceedKeeps(s: State)
    requires Invariant(s) && s.inFlight
    ensures Invariant(Succeed(s))
  {
    hide Spaced, Arm;
    var t := Landed(s, if s.carrying then s.past.carried else s.past.applied).(failures := 0);
    if t.queued { ArmKeeps(t.(queued := false), WORK_ITEM_REFRESH_DEBOUNCE_MS); }
  }

  lemma FailKeeps(s: State)
    requires Invariant(s) && s.inFlight
    ensures Invariant(Fail(s))
  {
    hide Spaced, Arm, Pow2;
    var t := Landed(s, s.past.applied).(failures := s.failures + 1, catchUp := s.catchUp || s.carrying, queued := false);
    ArmKeeps(t, Min(MAX_REFRESH_RETRY_MS, 1000 * Pow2(t.failures - 1)));
  }

  lemma StepKeeps(s: State, e: Event)
    requires Invariant(s) && Enabled(s, e)
    ensures Invariant(Step(s, e))
  {
    hide Spaced, Request, Fire, Succeed, Fail;
    match e
    case Tick(_) =>
    case Requests(delay, catchUp) => RequestKeeps(s, delay, catchUp);
    case Fires => FireKeeps(s);
    case Succeeds => SucceedKeeps(s);
    case Fails => FailKeeps(s);
  }

  lemma {:induction false} RunKeeps(s: State, es: seq<Event>)
    requires Invariant(s) && IsRun(s, es)
    ensures Invariant(After(s, es))
    decreases |es|
  {
    hide Invariant, Step;
    if es != [] {
      StepKeeps(s, es[0]);
      RunKeeps(Step(s, es[0]), es[1..]);
    }
  }

  /** A state some run reaches from the loading of the page. */
  ghost predicate Reachable(s: State) {
    exists now, es :: IsRun(Initial(now), es) && After(Initial(now), es) == s
  }

  lemma ReachableInvariant(s: State)
    requires Reachable(s)
    ensures Invariant(s)
  {
    hide Coupled;
    var now, es :| IsRun(Initial(now), es) && After(Initial(now), es) == s;
    InitiallyInvariant(now);
    RunKeeps(Initial(now), es);
  }

  lemma InitiallyInvariant(now: nat)
    ensures Invariant(Initial(now))
  {
  }

  /**
   Over every run: a request since the last attempt has a timer armed or an attempt in flight marked
   queued; a failure that was not made good is being retried; a catch-up request not yet applied is
   pending or carried by the attempt in flight, and a pending one will be tried; there is at most one
   fetch in flight; and attempts start at least a second apart.
   */
  lemma NoRequestIsLost(s: State)
    requires Reachable(s)
    ensures s.past.wanted ==> s.timer.Some? || (s.inFlight && s.queued)
    ensures s.failures > 0 && !s.inFlight ==> s.timer.Some?
    ensures s.past.asked > s.past.applied ==> s.catchUp || (s.inFlight && s.carrying && s.past.carried == s.past.asked)
    ensures s.catchUp ==> s.timer.Some? || (s.inFlight && s.queued)
    ensures 0 <= s.past.fetches <= 1
    ensures forall i :: 0 < i < |s.past.starts| ==> s.past.starts[i] - s.past.starts[i - 1] >= MIN_REFRESH_INTERVAL_MS
  {
    ReachableInvariant(s);
  }

  // ---- When things happen ------------------------------------------------------------------------

  ghost predicate NoFiring(es: seq<Event>) {
    forall e :: e in es ==> !e.Fires?
  }

  /** Until it fires, an armed timer stays armed, and nothing ever puts it off. */
  lemma {:induction false} TimerIsNeverPutOff(s: State, es: seq<Event>)
    requires s.timer.Some? && IsRun(s, es) && NoFiring(es)
    ensures After(s, es).timer.Some? && After(s, es).timer.value <= s.timer.value
    decreases |es|
  {
    if es != [] {
      assert es[0] in es;
      TimerIsNeverPutOff(Step(s, es[0]), es[1..]);
    }
  }

  /**
   However many requests, failures and successes follow, until the timer fires it is due no later than
   the request asked for, or a second after the last attempt if that is later; once due it may fire,
   and firing starts an attempt or has the attempt in flight followed by another.
   */
  lemma RequestIsServedInTime(s: State, delay: int, catchUp: bool, es: seq<Event>)
    requires IsRun(Step(s, Requests(delay, catchUp)), es) && NoFiring(es)
    ensures var t := After(Step(s, Requests(delay, catchUp)), es);
            var due := Max(s.now + Max(0, delay), s.lastAttempt + MIN_REFRESH_INTERVAL_MS);
            && t.timer.Some? && t.timer.value <= due
            && (t.now >= due ==> Enabled(t, Fires))
            && (if t.inFlight then Fire(t).queued else Fire(t).inFlight && Fire(t).lastAttempt == t.now)
  {
    TimerIsNeverPutOff(Step(s, Requests(delay, catchUp)), es);
  }

  /** A fired timer that found an attempt in flight gets its own attempt after that one, within the debounce or the back-off. */
  lemma QueuedAttemptFollows(s: State, es: seq<Event>, ok: bool)
    requires Reachable(s) && s.inFlight && s.queued
    requires IsRun(Step(s, if ok then Succeeds else Fails), es) && NoFiring(es)
    ensures var t := After(Step(s, if ok then Succeeds else Fails), es);
            && t.timer.Some?
            && t.timer.value <= if ok then Max(s.now + WORK_ITEM_REFRESH_DEBOUNCE_MS, s.lastAttempt + MIN_REFRESH_INTERVAL_MS)
                                else s.now + MAX_REFRESH_RETRY_MS
  {
    if ok {
      TimerIsNeverPutOff(Step(s, Succeeds), es);
    } else {
      FailureIsRetried(s, es);
    }
  }

  /**
   A failed attempt is retried: until it fires, the timer is due within the back-off for the number of
   failures in a row, which is never more than half a minute, and the catch-up it carried is pending
   again.
   */
  lemma FailureIsRetried(s: State, es: seq<Event>)
    requires Reachable(s) && s.inFlight && IsRun(Step(s, Fails), es) && NoFiring(es)
    ensures var t := After(Step(s, Fails), es);
            && t.timer.Some? && t.timer.value <= s.now + Min(MAX_REFRESH_RETRY_MS, 1000 * Pow2(s.failures))
            && (s.carrying ==> t.catchUp)
  {
    hide Pow2;
    ReachableInvariant(s);
    Pow2Positive(s.failures);
    TimerIsNeverPutOff(Step(s, Fails), es);
    if s.carrying { CatchUpWaits(Step(s, Fails), es); }
  }

  /** A pending catch-up stays pending until an attempt takes it. */
  lemma {:induction false} CatchUpWaits(s: State, es: seq<Event>)
    requires s.catchUp && IsRun(s, es) && NoFiring(es)
    ensures After(s, es).catchUp
    decreases |es|
  {
    if es != [] {
      assert es[0] in es;
      CatchUpWaits(Step(s, es[0]), es[1..]);
    }
  }

  // ---- Exactly when ------------------------------------------------------------------------------

  /** The time an event asks for the next attempt: never within a second of the last one. */
  ghost function AskedFor(s: State, e: Event): Option<int> {
    match e
    case Requests(delay, _) => Some(Max(if delay > 0 then s.now + delay else s.now, s.lastAttempt + 1000))
    case Fails => Some(Max(s.now + Min(30_000, 1000 * Pow2(s.failures)), s.lastAttempt + 1000))
    case Succeeds => if s.queued then Some(Max(s.now + 250, s.lastAttempt + 1000)) else None
    case _ => None
  }

  ghost function Sooner(a: Option<int>, b: Option<int>): Option<int> {
    if a.None? then b else if b.None? then a else Some(Min(a.value, b.value))
  }

  /** The soonest time asked for by the timer and by the events of a run. */
  ghost function Soonest(timer: Option<int>, s: State, es: seq<Event>): Option<int>
    requires IsRun(s, es)
    decreases |es|
  {
    if es == [] then timer else Soonest(Sooner(timer, AskedFor(s, es[0])), Step(s, es[0]), es[1..])
  }

  /**
   Between two firings the timer stands exactly at the soonest time anything asked for, and is off if
   nothing did: no request is debounced away, no back-off cut short, and nothing is polled.
   */
  lemma {:induction false} TimerIsTheSoonestAsked(s: State, es: seq<Event>)
    requires IsRun(s, es) && NoFiring(es)
    ensures After(s, es).timer == Soonest(s.timer, s, es)
    decreases |es|
  {
    hide Step, AskedFor, Sooner, Enabled;
    if es != [] {
      assert es[0] in es;
      SoonerStepwise(s, es[0]);
      TimerIsTheSoonestAsked(Step(s, es[0]), es[1..]);
    }
  }

  lemma SoonerStepwise(s: State, e: Event)
    requires Enabled(s, e) && !e.Fires?
    ensures Step(s, e).timer == Sooner(s.timer, AskedFor(s, e))
  {
    hide Pow2, Arm, Sooner, Max, Min;
    NothingAsked(s.timer);
    match e
    case Requests(delay, catchUp) => ArmingIsSooner(Wanting(s, catchUp), delay);
    case Fails =>
      var t := Landed(s, s.past.applied).(failures := s.failures + 1, catchUp := s.catchUp || s.carrying, queued := false);
      var delay := Min(MAX_REFRESH_RETRY_MS, 1000 * Pow2(s.failures));
      BackOffIsPositive(s.failures);
      ArmingIsSooner(t, delay);
    case Succeeds =>
      var t := Landed(s, if s.carrying then s.past.carried else s.past.applied).(failures := 0);
      ArmingIsSooner(t.(queued := false), WORK_ITEM_REFRESH_DEBOUNCE_MS);
    case Tick(_) =>
  }

  lemma NothingAsked(timer: Option<int>)
    ensures Sooner(timer, None) == timer
  {
  }

  lemma BackOffIsPositive(n: nat)
    ensures Min(MAX_REFRESH_RETRY_MS, 1000 * Pow2(n)) > 0
  {
    Pow2Positive(n);
  }

  lemma ArmingIsSooner(s: State, delay: int)
    ensures Arm(s, delay).timer == Sooner(s.timer, Some(Max(if delay > 0 then s.now + delay else s.now, s.lastAttempt + 1000)))
  {
  }

  /** The failures since the last success. */
  function InARow(n: nat, es: seq<Event>): nat
    decreases |es|
  {
    if es == [] then n else InARow(if es[0].Fails? then n + 1 else if es[0].Succeeds? then 0 else n, es[1..])
  }

  /** The back-off grows with the failures in a row, and starts over after a success. */
  lemma {:induction false} FailuresAreInARow(s: State, es: seq<Event>)
    requires IsRun(s, es)
    ensures After(s, es).failures == InARow(s.failures, es)
    decreases |es|
  {
    hide Arm;
    if es != [] {
      ArmingCounts(s, es[0]);
      FailuresAreInARow(Step(s, es[0]), es[1..]);
    }
  }

  lemma ArmingCounts(s: State, e: Event)
    requires Enabled(s, e)
    ensures Step(s, e).failures == if e.Fails? then s.failures + 1 else if e.Succeeds? then 0 else s.failures
  {
    hide Pow2;
  }

  /** Some attempt that was started in the run, or before it if `started`, succeeds in it. */
  predicate Catches(s: State, es: seq<Event>, started: bool)
    requires IsRun(s, es)
    decreases |es|
  {
    if es == [] then false
    else
      match es[0]
      case Fires => Catches(Step(s, es[0]), es[1..], started || !s.inFlight)
      case Fails => Catches(Step(s, es[0]), es[1..], false)
      case Succeeds => started || Catches(Step(s, es[0]), es[1..], false)
      case _ => Catches(Step(s, es[0]), es[1..], started)
  }

  /**
   A catch-up request is served by nothing less than an attempt that was started after it and succeeded:
   until then it is pending, or carried by the attempt in flight.
   */
  lemma CatchUpRequestIsServed(s: State, delay: int, es: seq<Event>)
    requires IsRun(Step(s, Requests(delay, true)), es) && !Catches(Step(s, Requests(delay, true)), es, false)
    ensures var t := After(Step(s, Requests(delay, true)), es); t.catchUp || (t.inFlight && t.carrying)
  {
    CatchUpIsServed(Step(s, Requests(delay, true)), es, false);
  }

  lemma {:induction false} CatchUpIsServed(s: State, es: seq<Event>, started: bool)
    requires IsRun(s, es) && !Catches(s, es, started) && (if started then s.inFlight && (s.carrying || s.catchUp) else s.catchUp)
    ensures After(s, es).catchUp || (After(s, es).inFlight && After(s, es).carrying)
    decreases |es|
  {
    hide Pow2;
    if es != [] {
      var next := match es[0] case Fires => started || !s.inFlight case Fails => false case Succeeds => false case _ => started;
      CatchUpIsServed(Step(s, es[0]), es[1..], next);
    }
  }

  // ---- The client script -------------------------------------------------------------------------

  class Client {
    var now: int
    var timer: Option<int>
    var inFlight: bool
    var queued: bool
    var lastAttempt: int
    var failures: nat
    var catchUp: bool
    var carrying: bool
    ghost var past: Past

    ghost function View(): State
      reads this
    {
      State(now, timer, inFlight, queued, lastAttempt, failures, catchUp, carrying, past)
    }

    ghost predicate Valid()
      reads this
    {
      Invariant(View())
    }

    constructor (now: nat)
      ensures View() == Initial(now) && Valid()
    {
      this.now := now;
      timer, inFlight, queued, lastAttempt, failures, catchUp, carrying := None, false, false, 0, 0, false, false;
      past := Past(false, 0, 0, 0, [], 0);
      new;
      InitiallyInvariant(now);
    }

    method AdvanceClock(later: int)
      requires Valid() && Enabled(View(), Tick(later))
      modifies `now
      ensures View() == Step(old(View()), Tick(later)) && Valid()
    {
      hide Invariant;
      StepKeeps(View(), Tick(later));
      now := later;
    }

    /** Lines 115-123. */
    method ArmTimer(delay: int)
      modifies this
      ensures View() == Arm(old(View()), delay)
    {
      var earliest := lastAttempt + MIN_REFRESH_INTERVAL_MS;
      var due := Max(now + Max(0, delay), earliest);
      if timer.Some? && timer.value <= due { return; }
      timer := Some(due);
    }

    /** `scheduleDashboardRefresh` (113-124). */
    method Schedule(delay: int, wantsCatchUp: bool)
      requires Valid()
      modifies this
      ensures View() == Step(old(View()), Requests(delay, wantsCatchUp)) && Valid()
    {
      hide Invariant, Arm;
      StepKeeps(View(), Requests(delay, wantsCatchUp));
      past := Wanting(View(), wantsCatchUp).past;
      if wantsCatchUp { catchUp := true; }
      ArmTimer(delay);
    }

    /** The timer callback (121-122) and `refreshDashboard` up to its await (127-137). */
    method OnTimer()
      requires Valid() && Enabled(View(), Fires)
      modifies this
      ensures View() == Step(old(View()), Fires) && Valid()
    {
      hide Invariant;
      StepKeeps(View(), Fires);
      timer := None;
      if inFlight {
        queued := true;
        return;
      }
      past := Started(past, catchUp, now);
      inFlight := true;
      lastAttempt := now;
      carrying := catchUp;
      catchUp := false;
    }

    /** After the await (138-143, 149-158): the response was applied. */
    method OnApplied()
      requires Valid() && Enabled(View(), Succeeds)
      modifies this
      ensures View() == Step(old(View()), Succeeds) && Valid()
    {
      hide Invariant, Arm;
      StepKeeps(View(), Succeeds);
      past := past.(fetches := past.fetches - 1, applied := if carrying then past.carried else past.applied);
      failures := 0;
      inFlight, carrying := false, false;
      if queued {
        queued := false;
        ArmTimer(WORK_ITEM_REFRESH_DEBOUNCE_MS);
      }
    }

    /** After the await (144-158): the fetch failed or its response could not be applied. */
    method OnFailed()
      requires Valid() && Enabled(View(), Fails)
      modifies this
      ensures View() == Step(old(View()), Fails) && Valid()
    {
      hide Invariant, Arm, Pow2;
      StepKeeps(View(), Fails);
      failures := failures + 1;
      if carrying { catchUp := true; }
      var retryIn := Min(MAX_REFRESH_RETRY_MS, 1000 * Pow2(failures - 1));
      past := past.(fetches := past.fetches - 1);
      inFlight, carrying := false, false;
      queued := false;
      ArmTimer(retryIn);
    }

    /** One callback of the page. */
    method Handle(e: Event)
      requires Valid() && Enabled(View(), e)
      modifies this
      ensures View() == Step(old(View()), e) && Valid()
    {
      hide Invariant, Step;
      match e
      case Tick(later) => AdvanceClock(later);
      case Requests(delay, wantsCatchUp) => Schedule(delay, wantsCatchUp);
      case Fires => OnTimer();
      case Succeeds => OnApplied();
      case Fails => OnFailed();
    }

    /** Any run of the transition system is a run of the object, and ends in the same state. */
    method Drive(es: seq<Event>)
      requires Valid() && IsRun(View(), es)
      modifies this
      ensures View() == After(old(View()), es) && Valid()
    {
      hide Invariant, Step, Enabled;
      for k := 0 to |es|
        invariant Valid() && IsRun(View(), es[k..]) && After(View(), es[k..]) == After(old(View()), es)
      {
        assert es[k..][0] == es[k] && es[k..][1..] == es[k + 1..];
        Handle(es[k]);
      }
    }
  }
}
