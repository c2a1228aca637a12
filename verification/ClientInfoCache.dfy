/**
 The bounded cache of client information: a map in order of last write, with a time to live.  Clock
 readings never go backwards.

 Line numbers refer to apps/dc-mcp-gateway/client-attribution.js.
 */
module ClientInfoCache {
  import opened Basics

  datatype Entry<T> = Entry(key: string, info: T, at: int)

  /** The map in insertion order, oldest first. */
  type Entries<T> = seq<Entry<T>>

  /** `entries.delete(key)`. */
  function Delete<T>(es: Entries<T>, key: string): Entries<T> {
    if es == [] then []
    else
      var rest := Delete(es[..|es| - 1], key);
      if es[|es| - 1].key == key then rest else rest + [es[|es| - 1]]
  }

  function Find<T>(es: Entries<T>, key: string): Option<Entry<T>> {
    if es == [] then None else if es[|es| - 1].key == key then Some(es[|es| - 1]) else Find(es[..|es| - 1], key)
  }

  function Put<T>(es: Entries<T>, key: string, info: T, now: int, max: nat): Entries<T> {
    var more := Delete(es, key) + [Entry(key, info, now)];
    if |more| > max then more[|more| - max..] else more
  }

  function Get<T>(es: Entries<T>, key: string, now: int, ttl: int): (Entries<T>, Option<T>) {
    match Find(es, key)
    case None => (es, None)
    case Some(e) => if now - e.at > ttl then (Delete(es, key), None) else (es, Some(e.info))
  }

  /** A call of the cache; setting nothing does nothing. */
  datatype Call<T> = Sets(key: string, info: Option<T>, now: int) | Gets(key: string, now: int)

  function Step<T>(es: Entries<T>, c: Call<T>, max: nat, ttl: int): Entries<T> {
    match c
    case Sets(key, info, now) => if info.None? then es else Put(es, key, info.value, now, max)
    case Gets(key, now) => Get(es, key, now, ttl).0
  }

  function After<T>(cs: seq<Call<T>>, max: nat, ttl: int): Entries<T> {
    if cs == [] then [] else Step(After(cs[..|cs| - 1], max, ttl), cs[|cs| - 1], max, ttl)
  }

  // ---- What the cache promises -------------------------------------------------------------------

  /** Everything ever set, oldest first. */
  function Writes<T>(cs: seq<Call<T>>): seq<Entry<T>> {
    if cs == [] then []
    else
      var front, c := Writes(cs[..|cs| - 1]), cs[|cs| - 1];
      if c.Sets? && c.info.Some? then front + [Entry(c.key, c.info.value, c.now)] else front
  }

  /** The index of the last write of `key`, or -1. */
  function LastWrite<T>(ws: seq<Entry<T>>, key: string): (r: int)
    ensures -1 <= r < |ws|
    ensures r >= 0 ==> ws[r].key == key
    ensures forall i :: r < i < |ws| ==> ws[i].key != key
  {
    if ws == [] then -1 else if ws[|ws| - 1].key == key then |ws| - 1 else LastWrite(ws[..|ws| - 1], key)
  }

  /** The keys written since index `i`. */
  function Since<T>(ws: seq<Entry<T>>, i: int): set<string>
    requires -1 <= i < |ws|
  {
    set k | i < k < |ws| :: ws[k].key
  }

  /** The specification: the last value set, while it is fresh and few enough other keys were set since. */
  function Expected<T>(ws: seq<Entry<T>>, key: string, now: int, max: nat, ttl: int): Option<T> {
    var i := LastWrite(ws, key);
    if i >= 0 && now - ws[i].at <= ttl && |Since(ws, i)| < max then Some(ws[i].info) else None
  }

  function Time<T>(c: Call<T>): int { c.now }

  ghost predicate Forward<T>(cs: seq<Call<T>>) {
    forall i, j :: 0 <= i <= j < |cs| ==> Time(cs[i]) <= Time(cs[j])
  }

  // ---- Lists -------------------------------------------------------------------------------------

  ghost predicate Unique<T>(es: Entries<T>) {
    forall i, j :: 0 <= i < j < |es| ==> es[i].key != es[j].key
  }

  lemma {:induction false} DeleteHolds<T>(es: Entries<T>, key: string)
    ensures forall e :: e in Delete(es, key) <==> e in es && e.key != key
    ensures |Delete(es, key)| <= |es|
  {
    if es != [] {
      DeleteHolds(es[..|es| - 1], key);
      assert es == es[..|es| - 1] + [es[|es| - 1]];
    }
  }

  /** Where a kept entry was. */
  lemma {:induction false} DeleteAt<T>(es: Entries<T>, key: string, i: nat) returns (j: nat)
    requires i < |Delete(es, key)|
    ensures j < |es| && es[j] == Delete(es, key)[i] && es[j].key != key
  {
    var front := es[..|es| - 1];
    if i < |Delete(front, key)| {
      j := DeleteAt(front, key, i);
    } else {
      j := |es| - 1;
    }
  }

  lemma {:induction false} FindHolds<T>(es: Entries<T>, key: string)
    ensures Find(es, key).Some? ==> Find(es, key).value in es && Find(es, key).value.key == key
    ensures Find(es, key).Some? <==> Held(es, key)
  {
    if es != [] {
      FindHolds(es[..|es| - 1], key);
      assert es == es[..|es| - 1] + [es[|es| - 1]];
      assert Held(es, key) <==> Held(es[..|es| - 1], key) || es[|es| - 1].key == key;
    }
  }

  // ---- The invariant -----------------------------------------------------------------------------

  /** The entry is the last write of its key. */
  ghost predicate IsLast<T>(ws: seq<Entry<T>>, e: Entry<T>) {
    LastWrite(ws, e.key) >= 0 && ws[LastWrite(ws, e.key)] == e
  }

  /** In order of last write. */
  ghost predicate Ordered<T>(es: Entries<T>, ws: seq<Entry<T>>) {
    forall i, j :: 0 <= i < j < |es| ==> LastWrite(ws, es[i].key) < LastWrite(ws, es[j].key)
  }

  ghost predicate Held<T>(es: Entries<T>, key: string) {
    exists i :: 0 <= i < |es| && es[i].key == key
  }

  ghost predicate Stale<T>(ws: seq<Entry<T>>, key: string, now: int, ttl: int) {
    LastWrite(ws, key) >= 0 && now - ws[LastWrite(ws, key)].at > ttl
  }

  /** A written key that is gone was pushed out by enough others or is stale. */
  ghost predicate GoneForAReason<T>(es: Entries<T>, ws: seq<Entry<T>>, now: int, max: nat, ttl: int) {
    forall key :: LastWrite(ws, key) >= 0 && !Held(es, key) ==>
      Stale(ws, key, now, ttl) || |Since(ws, LastWrite(ws, key))| >= max
  }

  /** What was written after something that is still held is held too, or stale. */
  ghost predicate NewerHeld<T>(es: Entries<T>, ws: seq<Entry<T>>, now: int, ttl: int) {
    forall key, other :: Held(es, key) && LastWrite(ws, other) > LastWrite(ws, key) ==> Held(es, other) || Stale(ws, other, now, ttl)
  }

  ghost predicate Times<T>(ws: seq<Entry<T>>, now: int) {
    (forall i, j :: 0 <= i <= j < |ws| ==> ws[i].at <= ws[j].at) && forall i :: 0 <= i < |ws| ==> ws[i].at <= now
  }

  /** All of the invariant but the bound on the size. */
  ghost predicate Loose<T(!new)>(es: Entries<T>, ws: seq<Entry<T>>, now: int, max: nat, ttl: int) {
    && Times(ws, now) && Ordered(es, ws)
    && (forall i :: 0 <= i < |es| ==> IsLast(ws, es[i]))
    && GoneForAReason(es, ws, now, max, ttl) && NewerHeld(es, ws, now, ttl)
  }

  ghost predicate Invariant<T(!new)>(es: Entries<T>, ws: seq<Entry<T>>, now: int, max: nat, ttl: int) {
    |es| <= max && Loose(es, ws, now, max, ttl)
  }

  /** Under the invariant the cache answers as specified. */
  lemma AnswersAsExpected<T(!new)>(es: Entries<T>, ws: seq<Entry<T>>, last: int, key: string, now: int, max: nat, ttl: int)
    requires Invariant(es, ws, last, max, ttl) && last <= now
    ensures Get(es, key, now, ttl).1 == Expected(ws, key, now, max, ttl)
  {
    FindHolds(es, key);
    var i := LastWrite(ws, key);
    match Find(es, key)
    case None =>
    case Some(e) =>
      var p :| 0 <= p < |es| && es[p] == e;
      assert IsLast(ws, es[p]) && Held(es, key);
      if now - e.at <= ttl {
        HeldCounts(es, ws, last, p, now, max, ttl);
      }
  }

  /** A held, fresh key has fewer than `max` other keys written after it: they are all held beside it. */
  lemma HeldCounts<T(!new)>(es: Entries<T>, ws: seq<Entry<T>>, last: int, p: nat, now: int, max: nat, ttl: int)
    requires Invariant(es, ws, last, max, ttl) && last <= now && p < |es| && now - es[p].at <= ttl
    ensures LastWrite(ws, es[p].key) >= 0 && |Since(ws, LastWrite(ws, es[p].key))| < max
  {
    var key := es[p].key;
    assert IsLast(ws, es[p]) && Held(es, key);
    var i := LastWrite(ws, key);
    var others := (set k | 0 <= k < |es| :: es[k].key) - {key};
    forall other | other in Since(ws, i) ensures other in others {
      var k :| i < k < |ws| && ws[k].key == other;
      assert LastWrite(ws, other) >= k;
      assert !Stale(ws, other, last, ttl);
      assert Held(es, other);
      var q :| 0 <= q < |es| && es[q].key == other;
    }
    assert Since(ws, i) <= others;
    SubsetSize(Since(ws, i), others);
    KeySetSize(es);
    assert key in (set k | 0 <= k < |es| :: es[k].key);
  }

  lemma SubsetSize<T>(a: set<T>, b: set<T>)
    requires a <= b
    ensures |a| <= |b|
  {
    assert |b - a| == |b| - |a|;
  }

  lemma {:induction false} KeySetSize<T>(es: Entries<T>)
    ensures |set k | 0 <= k < |es| :: es[k].key| <= |es|
  {
    var keys := set k | 0 <= k < |es| :: es[k].key;
    if es == [] {
      assert keys == {};
    } else {
      var front := es[..|es| - 1];
      KeySetSize(front);
      var fewer := set k | 0 <= k < |front| :: front[k].key;
      forall x | x in keys ensures x in fewer + {es[|es| - 1].key} {
        var k :| 0 <= k < |es| && es[k].key == x;
        if k < |front| { assert front[k].key == x; }
      }
      assert keys <= fewer + {es[|es| - 1].key};
      SubsetSize(keys, fewer + {es[|es| - 1].key});
    }
  }

  // ---- Every call keeps it -----------------------------------------------------------------------

  lemma TimePasses<T(!new)>(es: Entries<T>, ws: seq<Entry<T>>, now: int, later: int, max: nat, ttl: int)
    requires Invariant(es, ws, now, max, ttl) && now <= later
    ensures Invariant(es, ws, later, max, ttl)
  {
    hide LastWrite, Since, Held, Ordered, IsLast;
    assert forall key :: Stale(ws, key, now, ttl) ==> Stale(ws, key, later, ttl);
  }

  lemma {:induction false} DeleteOrdered<T>(es: Entries<T>, ws: seq<Entry<T>>, key: string)
    requires Ordered(es, ws)
    ensures Ordered(Delete(es, key), ws)
  {
    hide LastWrite;
    if es != [] {
      var front := es[..|es| - 1];
      DeleteOrdered(front, ws, key);
      var d := Delete(front, key);
      forall i | 0 <= i < |d| ensures LastWrite(ws, d[i].key) < LastWrite(ws, es[|es| - 1].key) {
        var j := DeleteAt(front, key, i);
        assert es[j] == d[i];
      }
    }
  }

  lemma DeleteHeld<T>(es: Entries<T>, key: string, k: string)
    ensures Held(Delete(es, key), k) <==> Held(es, k) && k != key
  {
    DeleteHolds(es, key);
    var d := Delete(es, key);
    if Held(d, k) {
      var i :| 0 <= i < |d| && d[i].key == k;
      assert d[i] in es;
    }
    if Held(es, k) && k != key {
      var i :| 0 <= i < |es| && es[i].key == k;
      assert es[i] in d;
    }
  }

  lemma DeleteLast<T>(es: Entries<T>, ws: seq<Entry<T>>, key: string)
    requires forall i :: 0 <= i < |es| ==> IsLast(ws, es[i])
    ensures forall i :: 0 <= i < |Delete(es, key)| ==> IsLast(ws, Delete(es, key)[i])
  {
    hide IsLast;
    DeleteHolds(es, key);
    var d := Delete(es, key);
    forall i | 0 <= i < |d| ensures IsLast(ws, d[i]) {
      assert d[i] in d;
    }
  }

  lemma GetKeeps<T(!new)>(es: Entries<T>, ws: seq<Entry<T>>, key: string, now: int, max: nat, ttl: int)
    requires Invariant(es, ws, now, max, ttl)
    ensures Invariant(Get(es, key, now, ttl).0, ws, now, max, ttl)
  {
    hide LastWrite, Since, Held, Ordered, Delete, Find, Times;
    FindHolds(es, key);
    var e := Find(es, key);
    if e.Some? && now - e.value.at > ttl {
      var d := Delete(es, key);
      DeleteOrdered(es, ws, key);
      DeleteLast(es, ws, key);
      DeleteHolds(es, key);
      forall k: string ensures Held(d, k) <==> Held(es, k) && k != key { DeleteHeld(es, key, k); }
      var p :| 0 <= p < |es| && es[p] == e.value;
      assert IsLast(ws, es[p]);
      assert Stale(ws, key, now, ttl);
    }
  }

  lemma Written<T>(ws: seq<Entry<T>>, w: Entry<T>, k: string)
    ensures LastWrite(ws + [w], k) == if k == w.key then |ws| else LastWrite(ws, k)
    ensures LastWrite(ws, k) >= 0 ==> Since(ws + [w], LastWrite(ws, k)) == Since(ws, LastWrite(ws, k)) + {w.key}
  {
    var more := ws + [w];
    assert more[..|ws|] == ws;
    var i := LastWrite(ws, k);
    if i >= 0 {
      forall x | x in Since(more, i) ensures x in Since(ws, i) + {w.key} {
        var j :| i < j < |more| && more[j].key == x;
        if j < |ws| { assert ws[j].key == x; }
      }
      forall x | x in Since(ws, i) + {w.key} ensures x in Since(more, i) {
        if x == w.key {
          assert more[|ws|].key == x;
        } else {
          var j :| i < j < |ws| && ws[j].key == x;
          assert more[j].key == x;
        }
      }
    }
  }

  // Writing at the recent end keeps everything but the bound on the size.

  lemma WriteLast<T>(d: Entries<T>, ws: seq<Entry<T>>, w: Entry<T>)
    requires Ordered(d, ws) && forall i :: 0 <= i < |d| ==> IsLast(ws, d[i]) && d[i].key != w.key
    ensures Ordered(d + [w], ws + [w]) && forall i :: 0 <= i < |d| + 1 ==> IsLast(ws + [w], (d + [w])[i])
  {
    hide LastWrite;
    forall k: string ensures LastWrite(ws + [w], k) == if k == w.key then |ws| else LastWrite(ws, k) { Written(ws, w, k); }
  }

  lemma WriteGone<T>(es: Entries<T>, mid: Entries<T>, ws: seq<Entry<T>>, w: Entry<T>, max: nat, ttl: int)
    requires GoneForAReason(es, ws, w.at, max, ttl)
    requires forall k :: Held(mid, k) <==> Held(es, k) || k == w.key
    ensures GoneForAReason(mid, ws + [w], w.at, max, ttl)
  {
    hide LastWrite, Since, Held;
    var more := ws + [w];
    forall k | LastWrite(more, k) >= 0 && !Held(mid, k)
      ensures Stale(more, k, w.at, ttl) || |Since(more, LastWrite(more, k))| >= max
    {
      Written(ws, w, k);
      SubsetSize(Since(ws, LastWrite(ws, k)), Since(more, LastWrite(ws, k)));
      assert !Held(es, k);
    }
  }

  lemma WriteNewer<T>(es: Entries<T>, mid: Entries<T>, ws: seq<Entry<T>>, w: Entry<T>, ttl: int)
    requires NewerHeld(es, ws, w.at, ttl)
    requires forall k :: Held(mid, k) <==> Held(es, k) || k == w.key
    ensures NewerHeld(mid, ws + [w], w.at, ttl)
  {
    hide LastWrite, Held;
    var more := ws + [w];
    forall k, other | Held(mid, k) && LastWrite(more, other) > LastWrite(more, k)
      ensures Held(mid, other) || Stale(more, other, w.at, ttl)
    {
      Written(ws, w, k);
      Written(ws, w, other);
    }
  }

  lemma WriteKeeps<T(!new)>(es: Entries<T>, ws: seq<Entry<T>>, w: Entry<T>, max: nat, ttl: int)
    requires Invariant(es, ws, w.at, max, ttl)
    ensures Loose(Delete(es, w.key) + [w], ws + [w], w.at, max, ttl) && |Delete(es, w.key)| <= max
  {
    hide LastWrite, Held, Delete, IsLast, GoneForAReason, NewerHeld, Ordered;
    var d := Delete(es, w.key);
    DeleteHolds(es, w.key);
    DeleteOrdered(es, ws, w.key);
    DeleteLast(es, ws, w.key);
    forall i | 0 <= i < |d| ensures d[i].key != w.key { assert d[i] in d; }
    WriteLast(d, ws, w);
    forall k: string ensures Held(d + [w], k) <==> Held(es, k) || k == w.key {
      DeleteHeld(es, w.key, k);
      PushHeld(d, w, k);
    }
    WriteGone(es, d + [w], ws, w, max, ttl);
    WriteNewer(es, d + [w], ws, w, ttl);
  }

  lemma PushHeld<T>(d: Entries<T>, w: Entry<T>, k: string)
    ensures Held(d + [w], k) <==> Held(d, k) || k == w.key
  {
    var mid := d + [w];
    assert mid[|d|] == w && forall i :: 0 <= i < |d| ==> mid[i] == d[i];
  }

  lemma {:induction false} UniqueKeySetSize<T>(es: Entries<T>)
    requires Unique(es)
    ensures |set k | 0 <= k < |es| :: es[k].key| == |es|
  {
    var keys := set k | 0 <= k < |es| :: es[k].key;
    if es == [] {
      assert keys == {};
    } else {
      var front, last := es[..|es| - 1], es[|es| - 1].key;
      UniqueKeySetSize(front);
      var fewer := set k | 0 <= k < |front| :: front[k].key;
      assert keys == fewer + {last} by {
        forall x | x in keys ensures x in fewer + {last} {
          var k :| 0 <= k < |es| && es[k].key == x;
          if k < |front| { assert front[k].key == x; }
        }
        forall x | x in fewer ensures x in keys {
          var k :| 0 <= k < |front| && front[k].key == x;
          assert es[k].key == x;
        }
        assert es[|es| - 1].key in keys;
      }
    }
  }

  /** The oldest entry of an overfull cache has `max` other keys written after it. */
  lemma OldestIsPushedOut<T(!new)>(mid: Entries<T>, ws: seq<Entry<T>>, now: int, max: nat, ttl: int)
    requires Loose(mid, ws, now, max, ttl) && |mid| == max + 1
    ensures LastWrite(ws, mid[0].key) >= 0 && |Since(ws, LastWrite(ws, mid[0].key))| >= max
  {
    hide GoneForAReason, NewerHeld, Times;
    var rest := mid[1..];
    var keys := set k | 0 <= k < |rest| :: rest[k].key;
    var i := LastWrite(ws, mid[0].key);
    assert IsLast(ws, mid[0]);
    forall x | x in keys ensures x in Since(ws, i) {
      var k :| 0 <= k < |rest| && rest[k].key == x;
      assert rest[k] == mid[k + 1];
      assert i < LastWrite(ws, x);
    }
    assert Unique(rest) by {
      forall a, b | 0 <= a < b < |rest| ensures rest[a].key != rest[b].key {
        assert LastWrite(ws, mid[a + 1].key) < LastWrite(ws, mid[b + 1].key);
      }
    }
    UniqueKeySetSize(rest);
    SubsetSize(keys, Since(ws, i));
  }

  lemma EvictKeeps<T(!new)>(mid: Entries<T>, ws: seq<Entry<T>>, now: int, max: nat, ttl: int)
    requires Loose(mid, ws, now, max, ttl) && |mid| == max + 1
    ensures Invariant(mid[1..], ws, now, max, ttl)
  {
    OldestIsPushedOut(mid, ws, now, max, ttl);
    hide LastWrite, Since, Times, Stale;
    var rest := mid[1..];
    forall k: string ensures Held(rest, k) ==> Held(mid, k) && LastWrite(ws, k) > LastWrite(ws, mid[0].key) {
      if i :| 0 <= i < |rest| && rest[i].key == k { assert mid[i + 1] == rest[i]; }
    }
    forall k: string ensures Held(mid, k) ==> Held(rest, k) || k == mid[0].key {
      if i :| 0 <= i < |mid| && mid[i].key == k {
        if i > 0 { assert rest[i - 1] == mid[i]; }
      }
    }
  }

  lemma PutKeeps<T(!new)>(es: Entries<T>, ws: seq<Entry<T>>, key: string, info: T, now: int, max: nat, ttl: int)
    requires Invariant(es, ws, now, max, ttl)
    ensures Invariant(Put(es, key, info, now, max), ws + [Entry(key, info, now)], now, max, ttl)
  {
    hide Ordered, IsLast, GoneForAReason, NewerHeld, Times;
    var w := Entry(key, info, now);
    WriteKeeps(es, ws, w, max, ttl);
    var mid := Delete(es, key) + [w];
    if |mid| > max {
      assert mid[|mid| - max..] == mid[1..];
      EvictKeeps(mid, ws + [w], now, max, ttl);
    }
  }

  lemma {:induction false} RunKeeps<T(!new)>(cs: seq<Call<T>>, max: nat, ttl: int)
    requires Forward(cs)
    ensures cs != [] ==> Invariant(After(cs, max, ttl), Writes(cs), Time(cs[|cs| - 1]), max, ttl)
  {
    hide Invariant, Put, Get;
    if cs != [] {
      var front, c := cs[..|cs| - 1], cs[|cs| - 1];
      RunKeeps(front, max, ttl);
      if front == [] {
        NothingYet<T>(Time(c), max, ttl);
      } else {
        TimePasses(After(front, max, ttl), Writes(front), Time(front[|front| - 1]), Time(c), max, ttl);
      }
      if c.Gets? {
        GetKeeps(After(front, max, ttl), Writes(front), c.key, c.now, max, ttl);
      } else if c.info.Some? {
        PutKeeps(After(front, max, ttl), Writes(front), c.key, c.info.value, c.now, max, ttl);
      }
    }
  }

  lemma NothingYet<T(!new)>(now: int, max: nat, ttl: int)
    ensures Invariant<T>([], [], now, max, ttl)
  {
  }

  /**
   After any calls, `get(key)` returns the last value set for the key exactly when that is within the
   time to live and fewer than `max` distinct other keys were set since, whatever was looked up in
   between; and the cache never holds more than `max` entries.
   */
  lemma GetAnswersAsSpecified<T(!new)>(cs: seq<Call<T>>, key: string, now: int, max: nat, ttl: int)
    requires Forward(cs) && (cs != [] ==> Time(cs[|cs| - 1]) <= now)
    ensures Get(After(cs, max, ttl), key, now, ttl).1 == Expected(Writes(cs), key, now, max, ttl)
    ensures |After(cs, max, ttl)| <= max
  {
    hide Get, Expected;
    RunKeeps(cs, max, ttl);
    if cs == [] {
      NothingYet<T>(now, max, ttl);
      AnswersAsExpected<T>([], [], now, key, now, max, ttl);
    } else {
      AnswersAsExpected(After(cs, max, ttl), Writes(cs), Time(cs[|cs| - 1]), key, now, max, ttl);
    }
  }

  /** Lookups change no answer: only the sets count. */
  lemma {:induction false} LookupsDoNotMatter<T(!new)>(a: seq<Call<T>>, b: seq<Call<T>>, key: string, now: int, max: nat, ttl: int)
    requires Forward(a) && (a != [] ==> Time(a[|a| - 1]) <= now) && Forward(b) && (b != [] ==> Time(b[|b| - 1]) <= now)
    requires Writes(a) == Writes(b)
    ensures Get(After(a, max, ttl), key, now, ttl).1 == Get(After(b, max, ttl), key, now, ttl).1
  {
    hide Get, Expected, After;
    GetAnswersAsSpecified(a, key, now, max, ttl);
    GetAnswersAsSpecified(b, key, now, max, ttl);
  }

  // ---- The class ---------------------------------------------------------------------------------

  class Cache<T(!new, 0)> {
    const max: nat
    const ttl: int
    var entries: Entries<T>

    constructor (max: nat, ttl: int)
      ensures entries == [] && this.max == max && this.ttl == ttl
    {
      this.max, this.ttl := max, ttl;
      entries := [];
    }

    /** `set` (64-69). */
    method SetInfo(key: string, info: Option<T>, now: int)
      modifies this
      ensures entries == Step(old(entries), Sets(key, info, now), max, ttl)
    {
      if info.None? { return; }
      entries := Delete(entries, key);
      entries := entries + [Entry(key, info.value, now)];
      ghost var all := entries;
      while |entries| > max
        invariant |entries| <= |all| && entries == all[|all| - |entries|..]
        invariant |all| > max ==> |entries| >= max
        invariant |all| <= max ==> entries == all
      {
        entries := entries[1..];
      }
    }

    /** `get` (70-78). */
    method GetInfo(key: string, now: int) returns (info: Option<T>)
      modifies this
      ensures (entries, info) == Get(old(entries), key, now, ttl)
    {
      var entry := Find(entries, key);
      if entry.None? { return None; }
      if now - entry.value.at > ttl {
        entries := Delete(entries, key);
        return None;
      }
      return Some(entry.value.info);
    }
  }
}
