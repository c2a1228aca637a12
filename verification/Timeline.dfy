/**
 The audit timeline: a bounded newest-first list that can be paused while events are buffered.

 Line numbers refer to apps/control-ui/src/audit-timeline.ts.
 */
module Timeline {

  const LIVE_TIMELINE_CAP := 200
  const LIVE_TIMELINE_BUFFER_CAP := 500

  datatype State<T> = State(paused: bool, list: seq<T>, buffer: seq<T>, dropped: nat)

  datatype Action<T> = Arrives(event: T) | SetPaused(paused: bool)

  /** `list.prepend` and the trimming of the oldest. */
  function Show<T>(list: seq<T>, event: T, cap: nat): seq<T> {
    var more := [event] + list;
    if |more| > cap then more[..cap] else more
  }

  /** What a timeline that never pauses shows after these events. */
  function Live<T>(list: seq<T>, events: seq<T>, cap: nat): seq<T>
    decreases |events|
  {
    if events == [] then list else Live(Show(list, events[0], cap), events[1..], cap)
  }

  function Insert<T>(s: State<T>, event: T, cap: nat, bufferCap: nat): State<T> {
    if !s.paused then s.(list := Show(s.list, event, cap))
    else
      var buffer := s.buffer + [event];
      if |buffer| <= bufferCap then s.(buffer := buffer)
      else s.(buffer := buffer[|buffer| - bufferCap..], dropped := s.dropped + |buffer| - bufferCap)
  }

  function Pause<T>(s: State<T>, paused: bool, cap: nat): State<T> {
    if paused || s.buffer == [] then s.(paused := paused)
    else State(false, Live(s.list, s.buffer, cap), [], 0)
  }

  function Step<T>(s: State<T>, a: Action<T>, cap: nat, bufferCap: nat): State<T> {
    match a
    case Arrives(event) => Insert(s, event, cap, bufferCap)
    case SetPaused(paused) => Pause(s, paused, cap)
  }

  function After<T>(s: State<T>, actions: seq<Action<T>>, cap: nat, bufferCap: nat): State<T> {
    if actions == [] then s
    else Step(After(s, actions[..|actions| - 1], cap, bufferCap), actions[|actions| - 1], cap, bufferCap)
  }

  /** The events of a run, in order. */
  function Events<T>(actions: seq<Action<T>>): seq<T> {
    if actions == [] then []
    else
      var front, last := Events(actions[..|actions| - 1]), actions[|actions| - 1];
      if last.Arrives? then front + [last.event] else front
  }

  function Fresh<T>(list: seq<T>): State<T> { State(false, list, [], 0) }

  // ---- Never pausing -----------------------------------------------------------------------------

  lemma {:induction false} LivePush<T>(list: seq<T>, events: seq<T>, event: T, cap: nat)
    ensures Live(list, events + [event], cap) == Show(Live(list, events, cap), event, cap)
    decreases |events|
  {
    if events != [] {
      assert (events + [event])[1..] == events[1..] + [event];
      LivePush(Show(list, events[0], cap), events[1..], event, cap);
    } else {
      assert (events + [event])[1..] == [];
    }
  }

  /** What is shown after some events depends only on the last of them, as far back as the cap. */
  lemma {:induction false} LiveTail<T>(a: seq<T>, b: seq<T>, events: seq<T>, cap: nat)
    requires forall i :: 0 <= i < |a| && 0 <= i < |b| && i + |events| < cap ==> a[i] == b[i]
    requires (|a| < cap - |events| || |b| < cap - |events|) && |events| < cap ==> |a| == |b|
    requires events != [] || a == b
    ensures Live(a, events, cap) == Live(b, events, cap)
    decreases |events|
  {
    if events != [] {
      LiveTail(Show(a, events[0], cap), Show(b, events[0], cap), events[1..], cap);
    }
  }

  /** A full cap of events hides whatever was there before. */
  lemma LiveForgets<T>(a: seq<T>, b: seq<T>, events: seq<T>, cap: nat)
    requires |events| >= cap && events != []
    ensures Live(a, events, cap) == Live(b, events, cap)
  {
    LiveTail(a, b, events, cap);
  }

  // ---- Pausing -----------------------------------------------------------------------------------

  /** Resuming now would show what never pausing would have shown. */
  ghost predicate Faithful<T(!new)>(s: State<T>, live: seq<T>, cap: nat, bufferCap: nat) {
    && Live(s.list, s.buffer, cap) == live
    && (!s.paused ==> s.buffer == [] && s.dropped == 0)
    && |s.buffer| <= bufferCap && (s.dropped > 0 ==> |s.buffer| == bufferCap)
  }

  lemma StepFaithful<T(!new)>(s: State<T>, live: seq<T>, a: Action<T>, cap: nat, bufferCap: nat)
    requires Faithful(s, live, cap, bufferCap) && cap <= bufferCap && bufferCap >= 1
    ensures Faithful(Step(s, a, cap, bufferCap), if a.Arrives? then Show(live, a.event, cap) else live, cap, bufferCap)
  {
    if a.Arrives? && s.paused {
      var buffer := s.buffer + [a.event];
      LivePush(s.list, s.buffer, a.event, cap);
      if |buffer| > bufferCap {
        assert buffer[|buffer| - bufferCap..] == buffer[1..];
        LiveForgets(Show(s.list, buffer[0], cap), s.list, buffer[1..], cap);
      }
    }
  }

  /**
   With the list cap at most the buffer cap, any pattern of pausing and resuming, even one that drops
   buffered events, leaves the timeline that never pausing would have left, as soon as it is not
   paused; and buffered events are only ever dropped from a full buffer.
   */
  lemma {:induction false} PausingIsInvisible<T(!new)>(list: seq<T>, actions: seq<Action<T>>, cap: nat, bufferCap: nat)
    requires cap <= bufferCap && bufferCap >= 1
    ensures var s := After(Fresh(list), actions, cap, bufferCap);
            && Faithful(s, Live(list, Events(actions), cap), cap, bufferCap)
            && (!s.paused ==> s.list == Live(list, Events(actions), cap))
            && (s.dropped > 0 ==> |s.buffer| == bufferCap)
  {
    if actions != [] {
      var front, last := actions[..|actions| - 1], actions[|actions| - 1];
      PausingIsInvisible(list, front, cap, bufferCap);
      StepFaithful(After(Fresh(list), front, cap, bufferCap), Live(list, Events(front), cap), last, cap, bufferCap);
      if last.Arrives? { LivePush(list, Events(front), last.event, cap); }
    }
  }

  /** The caps the client ships with are of that kind. */
  lemma ShippedCapsHidePausing<T(!new)>(list: seq<T>, actions: seq<Action<T>>)
    ensures var s := After(Fresh(list), actions, LIVE_TIMELINE_CAP, LIVE_TIMELINE_BUFFER_CAP);
            !s.paused ==> s.list == Live(list, Events(actions), LIVE_TIMELINE_CAP)
  {
    PausingIsInvisible(list, actions, LIVE_TIMELINE_CAP, LIVE_TIMELINE_BUFFER_CAP);
  }

  // ---- The other way round -----------------------------------------------------------------------

  /** Pause, let these events arrive, resume. */
  function PausedThrough<T>(events: seq<T>): seq<Action<T>> {
    [SetPaused(true)] + Arrivals(events) + [SetPaused(false)]
  }

  function Arrivals<T>(events: seq<T>): (r: seq<Action<T>>)
    ensures |r| == |events|
  {
    seq(|events|, i requires 0 <= i < |events| => Arrives(events[i]))
  }

  lemma {:induction false} Buffering<T>(list: seq<T>, events: seq<T>, cap: nat, bufferCap: nat)
    ensures var s := After(Fresh(list), [SetPaused(true)] + Arrivals(events), cap, bufferCap);
            s.paused && s.list == list && |s.buffer| == if |events| <= bufferCap then |events| else bufferCap
  {
    var actions := [SetPaused(true)] + Arrivals(events);
    if events == [] {
      assert actions == [SetPaused(true)] && actions[..0] == [];
    } else {
      Buffering(list, events[..|events| - 1], cap, bufferCap);
      assert actions[..|actions| - 1] == [SetPaused(true)] + Arrivals(events[..|events| - 1]);
    }
  }

  lemma {:induction false} LiveLength<T>(list: seq<T>, events: seq<T>, cap: nat)
    requires |list| <= cap
    ensures |Live(list, events, cap)| == if |list| + |events| <= cap then |list| + |events| else cap
    decreases |events|
  {
    if events != [] { LiveLength(Show(list, events[0], cap), events[1..], cap); }
  }

  lemma {:induction false} EventsOf<T>(events: seq<T>)
    ensures Events([SetPaused(true)] + Arrivals(events)) == events && Events(PausedThrough(events)) == events
  {
    var actions := [SetPaused(true)] + Arrivals(events);
    if events == [] {
      assert actions == [SetPaused(true)] && actions[..0] == [];
    } else {
      EventsOf(events[..|events| - 1]);
      assert actions[..|actions| - 1] == [SetPaused(true)] + Arrivals(events[..|events| - 1]);
      assert events == events[..|events| - 1] + [events[|events| - 1]];
    }
    assert PausedThrough(events)[..|events| + 1] == actions;
  }

  /** A buffer smaller than the list: pausing through one event too many shows fewer than never pausing. */
  lemma SmallBufferShowsLess<T>(events: seq<T>, cap: nat, bufferCap: nat)
    requires bufferCap < cap && |events| == bufferCap + 1
    ensures var s := After(Fresh([]), PausedThrough(events), cap, bufferCap);
            !s.paused && |s.list| < |Live([], Events(PausedThrough(events)), cap)|
  {
    Buffering([], events, cap, bufferCap);
    EventsOf(events);
    var actions := [SetPaused(true)] + Arrivals(events);
    assert PausedThrough(events)[..|events| + 1] == actions;
    var s := After(Fresh([]), actions, cap, bufferCap);
    LiveLength([], s.buffer, cap);
    LiveLength([], events, cap);
  }

  /** No buffer and no room in the list: an event that would have emptied the list is missed while paused. */
  lemma NoBufferShowsMore<T(!new)>(event: T)
    ensures !Unseen([event], PausedThrough([event]), 0, 0)
  {
    Buffering([event], [event], 0, 0);
    EventsOf([event]);
    var actions := [SetPaused(true)] + Arrivals([event]);
    assert PausedThrough([event])[..2] == actions;
    assert Live([event], [event], 0) == [];
  }

  /** Pausing is invisible over every run exactly when there is a buffer and the list cap is at most the buffer cap. */
  lemma PausingIsInvisibleExactlyWhen<T(!new, 0)>(cap: nat, bufferCap: nat, event: T)
    ensures (forall list: seq<T>, actions: seq<Action<T>> :: Unseen(list, actions, cap, bufferCap))
            <==> 1 <= bufferCap && cap <= bufferCap
  {
    if cap > bufferCap {
      var events := seq(bufferCap + 1, _ => event);
      SmallBufferShowsLess(events, cap, bufferCap);
      assert !Unseen([], PausedThrough(events), cap, bufferCap);
    } else if bufferCap == 0 {
      NoBufferShowsMore(event);
    } else {
      forall list: seq<T>, actions: seq<Action<T>> ensures Unseen(list, actions, cap, bufferCap) {
        PausingIsInvisible(list, actions, cap, bufferCap);
      }
    }
  }

  ghost predicate Unseen<T(!new)>(list: seq<T>, actions: seq<Action<T>>, cap: nat, bufferCap: nat) {
    var s := After(Fresh(list), actions, cap, bufferCap);
    !s.paused ==> s.list == Live(list, Events(actions), cap)
  }

  // ---- The client script -------------------------------------------------------------------------

  class Client<T(0)> {
    var paused: bool
    var list: seq<T>
    var buffer: seq<T>
    var dropped: nat
    const cap: nat
    const bufferCap: nat

    function View(): State<T>
      reads this
    {
      State(paused, list, buffer, dropped)
    }

    constructor (list: seq<T>, cap: nat, bufferCap: nat)
      ensures View() == Fresh(list) && this.cap == cap && this.bufferCap == bufferCap
    {
      this.list, this.cap, this.bufferCap := list, cap, bufferCap;
      paused, buffer, dropped := false, [], 0;
    }

    /** `insertLiveTimelineEvent` (66-80). */
    method InsertLive(event: T)
      modifies this
      ensures View() == Insert(old(View()), event, cap, bufferCap)
    {
      if paused {
        buffer := buffer + [event];
        ghost var all := buffer;
        while |buffer| > bufferCap
          invariant |buffer| <= |all| && buffer == all[|all| - |buffer|..]
          invariant |all| > bufferCap ==> |buffer| >= bufferCap
          invariant dropped == old(dropped) + |all| - |buffer|
          invariant |all| <= bufferCap ==> buffer == all
          invariant paused && list == old(list)
        {
          buffer := buffer[1..];
          dropped := dropped + 1;
        }
        return;
      }
      list := [event] + list;
      ghost var all := list;
      while |list| > cap
        invariant |list| <= |all| && list == all[..|list|]
        invariant |all| > cap ==> |list| >= cap
        invariant |all| <= cap ==> list == all
        invariant !paused && buffer == old(buffer) && dropped == old(dropped)
      {
        list := list[..|list| - 1];
      }
    }

    /** `setTimelinePaused` (82-91). */
    method SetTimelinePaused(pause: bool)
      modifies this
      ensures View() == Pause(old(View()), pause, cap)
    {
      paused := pause;
      if !pause && buffer != [] {
        var buffered := buffer;
        buffer := [];
        dropped := 0;
        for i := 0 to |buffered|
          invariant !paused && buffer == [] && dropped == 0
          invariant Live(old(list), buffered, cap) == Live(list, buffered[i..], cap)
        {
          InsertLive(buffered[i]);
          assert buffered[i..][1..] == buffered[i + 1..];
        }
      }
    }
  }
}
