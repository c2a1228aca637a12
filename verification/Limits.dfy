/**
 The registration limiter and the throttle maps.  Clock readings never go backwards.

 Line numbers refer to apps/dc-mcp-gateway/server.js unless a file is named.
 */
module Limits {
  import opened Basics

  const WINDOW_MS := 60_000
  const REGISTER_LIMIT_PER_MIN := 60

  // ---- Registrations -----------------------------------------------------------------------------

  ghost predicate Sorted(s: seq<int>) {
    forall i, j :: 0 <= i <= j < |s| ==> s[i] <= s[j]
  }

  function DropOld(registrations: seq<int>, t: int): seq<int> {
    if registrations != [] && t - registrations[0] > WINDOW_MS then DropOld(registrations[1..], t) else registrations
  }

  /** The head of `handleRegister`: the new list, and whether the request passes. */
  function Admit(registrations: seq<int>, t: int): (seq<int>, bool) {
    var recent := DropOld(registrations, t);
    if |recent| >= REGISTER_LIMIT_PER_MIN then (recent, false) else (recent + [t], true)
  }

  /** All admission times of a run, oldest first. */
  function Admitted(times: seq<int>): seq<int> {
    if times == [] then []
    else
      var t := times[|times| - 1];
      Admitted(times[..|times| - 1]) + if Admit(Kept(times[..|times| - 1]), t).1 then [t] else []
  }

  /** The list after a run. */
  function Kept(times: seq<int>): seq<int> {
    if times == [] then [] else Admit(Kept(times[..|times| - 1]), times[|times| - 1]).0
  }

  /** The list is the recent end of all admissions; what fell off it is out of the window for good. */
  ghost predicate Tail(kept: seq<int>, all: seq<int>, now: int) {
    && |kept| <= |all| && kept == all[|all| - |kept|..]
    && Sorted(all) && (forall i :: 0 <= i < |all| ==> all[i] <= now)
    && (forall i :: 0 <= i < |all| - |kept| ==> now - all[i] > WINDOW_MS)
    && |kept| <= REGISTER_LIMIT_PER_MIN
    && (forall i, j :: 0 <= i <= j < |all| && all[j] - all[i] <= WINDOW_MS ==> j - i < REGISTER_LIMIT_PER_MIN)
  }

  lemma {:induction false} DropOldTail(kept: seq<int>, all: seq<int>, t: int)
    requires |kept| <= |all| && kept == all[|all| - |kept|..] && Sorted(all)
    requires forall i :: 0 <= i < |all| - |kept| ==> t - all[i] > WINDOW_MS
    ensures var r := DropOld(kept, t);
            && |r| <= |kept| && r == all[|all| - |r|..]
            && (forall i :: 0 <= i < |all| - |r| ==> t - all[i] > WINDOW_MS)
            && (forall i :: |all| - |r| <= i < |all| ==> t - all[i] <= WINDOW_MS)
    decreases |kept|
  {
    if kept != [] && t - kept[0] > WINDOW_MS {
      DropOldTail(kept[1..], all, t);
    }
  }

  lemma AdmitTail(kept: seq<int>, all: seq<int>, now: int, t: int)
    requires Tail(kept, all, now) && now <= t
    ensures var (next, ok) := Admit(kept, t); Tail(next, if ok then all + [t] else all, t)
    ensures Admit(kept, t).1 <==> |all| < REGISTER_LIMIT_PER_MIN || t - all[|all| - REGISTER_LIMIT_PER_MIN] > WINDOW_MS
  {
    DropOldTail(kept, all, t);
    var r := DropOld(kept, t);
    if |r| < REGISTER_LIMIT_PER_MIN {
      PushAdmission(r, all, t);
    }
  }

  lemma PushAdmission(r: seq<int>, all: seq<int>, t: int)
    requires Sorted(all) && |r| <= |all| && |r| < REGISTER_LIMIT_PER_MIN && r == all[|all| - |r|..]
    requires forall i :: 0 <= i < |all| ==> all[i] <= t
    requires forall i :: 0 <= i < |all| - |r| ==> t - all[i] > WINDOW_MS
    requires forall i, j :: 0 <= i <= j < |all| && all[j] - all[i] <= WINDOW_MS ==> j - i < REGISTER_LIMIT_PER_MIN
    ensures Tail(r + [t], all + [t], t)
  {
    var more := all + [t];
    assert r + [t] == more[|more| - |r| - 1..];
    forall i, j | 0 <= i <= j < |more| && more[j] - more[i] <= WINDOW_MS ensures j - i < REGISTER_LIMIT_PER_MIN {
      if j == |all| && i < |all| { assert i >= |all| - |r|; }
    }
  }

  lemma NoAdmissions(now: int)
    ensures Tail([], [], now)
  {
  }

  lemma {:induction false} RunTail(times: seq<int>)
    requires Sorted(times)
    ensures times != [] ==> Tail(Kept(times), Admitted(times), times[|times| - 1])
    ensures times == [] ==> Kept(times) == [] && Admitted(times) == []
  {
    hide Tail, Admit;
    if times != [] {
      var front, t := times[..|times| - 1], times[|times| - 1];
      RunTail(front);
      NoAdmissions(t);
      assert Admitted(front) + [] == Admitted(front);
      AdmitTail(Kept(front), Admitted(front), if front == [] then t else front[|front| - 1], t);
    }
  }

  /**
   Over any run, any closed interval of 60 000 ms contains at most 60 admissions: two admissions no
   further apart than that have fewer than 59 between them.
   */
  lemma AtMostSixtyPerMinute(times: seq<int>, i: nat, j: nat)
    requires Sorted(times) && i <= j < |Admitted(times)|
    ensures Admitted(times)[j] - Admitted(times)[i] <= WINDOW_MS ==> j - i + 1 <= REGISTER_LIMIT_PER_MIN
  {
    RunTail(times);
  }

  /** Nothing else is refused: a request passes exactly when fewer than 60 admissions lie within the last 60 000 ms. */
  lemma RefusedExactlyWhen(times: seq<int>, t: int)
    requires Sorted(times + [t])
    ensures Admit(Kept(times), t).1 <==>
            |Admitted(times)| < REGISTER_LIMIT_PER_MIN || t - Admitted(times)[|Admitted(times)| - REGISTER_LIMIT_PER_MIN] > WINDOW_MS
  {
    var all := times + [t];
    assert forall k :: 0 <= k < |times| ==> all[k] == times[k];
    assert all[|times|] == t && (times != [] ==> all[|times| - 1] <= all[|times|]);
    assert Sorted(times);
    RunTail(times);
    if times != [] {
      AdmitTail(Kept(times), Admitted(times), times[|times| - 1], t);
    }
  }

  class Limiter {
    var registrations: seq<int>

    constructor ()
      ensures registrations == []
    {
      registrations := [];
    }

    /** Lines 558-561. */
    method Pass(t: int) returns (ok: bool)
      modifies this
      ensures (registrations, ok) == Admit(old(registrations), t)
    {
      while registrations != [] && t - registrations[0] > WINDOW_MS
        invariant DropOld(registrations, t) == DropOld(old(registrations), t)
        decreases |registrations|
      {
        registrations := registrations[1..];
      }
      if |registrations| >= REGISTER_LIMIT_PER_MIN { return false; }
      registrations := registrations + [t];
      return true;
    }
  }

  // ---- Throttles ---------------------------------------------------------------------------------

  const PRUNE_ABOVE := 2_000

  datatype Report = Report(key: string, at: int)

  predicate Throttled(last: map<string, int>, key: string, t: int, throttleMs: int) {
    key in last && t - last[key] < throttleMs
  }

  function Prune(last: map<string, int>, t: int, throttleMs: int): map<string, int> {
    map k | k in last && t - last[k] <= throttleMs :: last[k]
  }

  /** One report: the new map, and whether it is sent. */
  function Observe(last: map<string, int>, r: Report, throttleMs: int, limit: nat): (map<string, int>, bool) {
    if Throttled(last, r.key, r.at, throttleMs) then (last, false)
    else
      var more := last[r.key := r.at];
      (if |more| > limit then Prune(more, r.at, throttleMs) else more, true)
  }

  /** The same without ever forgetting anything. */
  function Remember(last: map<string, int>, r: Report, throttleMs: int): (map<string, int>, bool) {
    if Throttled(last, r.key, r.at, throttleMs) then (last, false) else (last[r.key := r.at], true)
  }

  function Observed(rs: seq<Report>, throttleMs: int, limit: nat): (map<string, int>, seq<bool>) {
    if rs == [] then (map[], [])
    else
      var (last, sent) := Observed(rs[..|rs| - 1], throttleMs, limit);
      var (next, ok) := Observe(last, rs[|rs| - 1], throttleMs, limit);
      (next, sent + [ok])
  }

  function Remembered(rs: seq<Report>, throttleMs: int): (map<string, int>, seq<bool>) {
    if rs == [] then (map[], [])
    else
      var (last, sent) := Remembered(rs[..|rs| - 1], throttleMs);
      var (next, ok) := Remember(last, rs[|rs| - 1], throttleMs);
      (next, sent + [ok])
  }

  ghost predicate InOrder(rs: seq<Report>) {
    forall i, j :: 0 <= i <= j < |rs| ==> rs[i].at <= rs[j].at
  }

  /** The pruned map agrees with the full one, except for entries too old to throttle anything. */
  ghost predicate Agrees(pruned: map<string, int>, full: map<string, int>, now: int, throttleMs: int) {
    && (forall k :: k in pruned ==> k in full && full[k] == pruned[k])
    && (forall k :: k in full && k !in pruned ==> now - full[k] > throttleMs)
  }

  lemma ObserveAgrees(pruned: map<string, int>, full: map<string, int>, now: int, r: Report, throttleMs: int, limit: nat)
    requires Agrees(pruned, full, now, throttleMs) && now <= r.at
    ensures Observe(pruned, r, throttleMs, limit).1 == Remember(full, r, throttleMs).1
    ensures Agrees(Observe(pruned, r, throttleMs, limit).0, Remember(full, r, throttleMs).0, r.at, throttleMs)
  {
  }

  /** Over any run the pruned map takes exactly the decisions an unpruned one would, at any prune limit. */
  lemma {:induction false} PruningIsInvisible(rs: seq<Report>, throttleMs: int, limit: nat)
    requires InOrder(rs)
    ensures Observed(rs, throttleMs, limit).1 == Remembered(rs, throttleMs).1
    ensures rs != [] ==> Agrees(Observed(rs, throttleMs, limit).0, Remembered(rs, throttleMs).0, rs[|rs| - 1].at, throttleMs)
    ensures rs == [] ==> Observed(rs, throttleMs, limit).0 == map[] == Remembered(rs, throttleMs).0
  {
    hide Observe, Remember;
    if rs != [] {
      var front, r := rs[..|rs| - 1], rs[|rs| - 1];
      PruningIsInvisible(front, throttleMs, limit);
      ObserveAgrees(Observed(front, throttleMs, limit).0, Remembered(front, throttleMs).0,
                    if front == [] then r.at else front[|front| - 1].at, r, throttleMs, limit);
    }
  }

  /** The full map holds a time at least that of every report sent for the key. */
  lemma {:induction false} RememberedLast(rs: seq<Report>, throttleMs: int)
    requires InOrder(rs)
    ensures |Remembered(rs, throttleMs).1| == |rs|
    ensures forall i :: 0 <= i < |rs| && Remembered(rs, throttleMs).1[i] ==>
              rs[i].key in Remembered(rs, throttleMs).0 && Remembered(rs, throttleMs).0[rs[i].key] >= rs[i].at
  {
    if rs != [] {
      var front := rs[..|rs| - 1];
      RememberedLast(front, throttleMs);
      assert forall i :: 0 <= i < |front| ==> front[i] == rs[i];
    }
  }

  /**
   Two reports of one key that were both sent are at least `throttleMs` apart, pruning or not.
   */
  lemma {:induction false} SentReportsAreSpaced(rs: seq<Report>, throttleMs: int, limit: nat, i: nat, j: nat)
    requires InOrder(rs) && i < j < |rs| && rs[i].key == rs[j].key
    ensures |Observed(rs, throttleMs, limit).1| == |rs|
    ensures Observed(rs, throttleMs, limit).1[i] && Observed(rs, throttleMs, limit).1[j] ==> rs[j].at - rs[i].at >= throttleMs
    decreases |rs|
  {
    PruningIsInvisible(rs, throttleMs, limit);
    RememberedLast(rs, throttleMs);
    var front := rs[..|rs| - 1];
    RememberedLast(front, throttleMs);
    PruningIsInvisible(front, throttleMs, limit);
    assert forall k :: 0 <= k < |front| ==> front[k] == rs[k];
    if j < |front| {
      SentReportsAreSpaced(front, throttleMs, limit, i, j);
    }
  }

  class Throttle {
    var last: map<string, int>
    const throttleMs: int

    constructor (throttleMs: int)
      ensures last == map[] && this.throttleMs == throttleMs
    {
      last := map[];
      this.throttleMs := throttleMs;
    }

    /** auth-health.js 150-159, client-attribution.js 103-110: the prune loop visits every entry. */
    method Send(r: Report) returns (ok: bool)
      modifies this
      ensures (last, ok) == Observe(old(last), r, throttleMs, PRUNE_ABOVE)
    {
      if r.key in last && r.at - last[r.key] < throttleMs { return false; }
      last := last[r.key := r.at];
      if |last| > PRUNE_ABOVE {
        var all, left := last, last.Keys;
        while left != {}
          invariant left <= all.Keys
          invariant last == map k | k in all && (k in left || r.at - all[k] <= throttleMs) :: all[k]
          decreases |left|
        {
          ghost var some := SomeElement(left);
          var k :| k in left;
          if r.at - last[k] > throttleMs { last := last - {k}; }
          left := left - {k};
        }
        assert last == Prune(all, r.at, throttleMs);
      }
      return true;
    }
  }
}
