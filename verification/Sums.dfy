/** Sums over lists, from the first element on: what totals are compared with. */
module Sums {
  import opened Provider

  ghost function Total<T>(xs: seq<T>, f: T -> real): real {
    if xs == [] then 0.0 else f(xs[0]) + Total(xs[1..], f)
  }

  ghost function Tally<T>(xs: seq<T>, f: T -> int): int {
    if xs == [] then 0 else f(xs[0]) + Tally(xs[1..], f)
  }

  function InputBy<T>(u: T -> Usage): T -> int { (x: T) => u(x).input }
  function OutputBy<T>(u: T -> Usage): T -> int { (x: T) => u(x).output }
  function CacheReadBy<T>(u: T -> Usage): T -> int { (x: T) => u(x).cacheRead }
  function CacheCreationBy<T>(u: T -> Usage): T -> int { (x: T) => u(x).cacheCreation }

  /** Each kind of tokens summed up on its own. */
  ghost function UsageTotal<T>(xs: seq<T>, u: T -> Usage): Usage {
    Usage(Tally(xs, InputBy(u)), Tally(xs, OutputBy(u)), Tally(xs, CacheReadBy(u)), Tally(xs, CacheCreationBy(u)))
  }

  lemma {:induction false} TotalSplits<T>(a: seq<T>, b: seq<T>, f: T -> real)
    ensures Total(a + b, f) == Total(a, f) + Total(b, f)
  {
    if a == [] {
      assert a + b == b;
    } else {
      TotalSplits(a[1..], b, f);
      assert (a + b)[1..] == a[1..] + b;
    }
  }

  lemma {:induction false} TallySplits<T>(a: seq<T>, b: seq<T>, f: T -> int)
    ensures Tally(a + b, f) == Tally(a, f) + Tally(b, f)
  {
    if a == [] {
      assert a + b == b;
    } else {
      TallySplits(a[1..], b, f);
      assert (a + b)[1..] == a[1..] + b;
    }
  }

  lemma TotalOfOne<T>(x: T, f: T -> real)
    ensures Total([x], f) == f(x)
  {
    assert [x][1..] == [];
  }

  lemma TallyOfOne<T>(x: T, f: T -> int)
    ensures Tally([x], f) == f(x)
  {
    assert [x][1..] == [];
  }

  lemma UsageSplits<T>(a: seq<T>, b: seq<T>, u: T -> Usage)
    ensures UsageTotal(a + b, u) == AddUsage(UsageTotal(a, u), UsageTotal(b, u))
  {
    hide Tally, InputBy, OutputBy, CacheReadBy, CacheCreationBy;
    TallySplits(a, b, InputBy(u));
    TallySplits(a, b, OutputBy(u));
    TallySplits(a, b, CacheReadBy(u));
    TallySplits(a, b, CacheCreationBy(u));
  }

  lemma UsageOfOne<T>(x: T, u: T -> Usage)
    ensures UsageTotal([x], u) == u(x)
  {
    hide Tally;
    TallyOfOne(x, InputBy(u));
    TallyOfOne(x, OutputBy(u));
    TallyOfOne(x, CacheReadBy(u));
    TallyOfOne(x, CacheCreationBy(u));
  }

  /** One more element at the end. */
  lemma PushTotal<T>(a: seq<T>, x: T, f: T -> real, u: T -> Usage)
    ensures Total(a + [x], f) == Total(a, f) + f(x)
    ensures UsageTotal(a + [x], u) == AddUsage(UsageTotal(a, u), u(x))
  {
    TotalSplits(a, [x], f);
    TotalOfOne(x, f);
    UsageSplits(a, [x], u);
    UsageOfOne(x, u);
  }

  /** An element in the middle. */
  lemma Amid<T>(a: seq<T>, x: T, b: seq<T>, f: T -> real, u: T -> Usage)
    ensures Total(a + ([x] + b), f) == Total(a, f) + f(x) + Total(b, f)
    ensures UsageTotal(a + ([x] + b), u) == AddUsage(UsageTotal(a, u), AddUsage(u(x), UsageTotal(b, u)))
  {
    TotalSplits(a, [x] + b, f);
    TotalSplits([x], b, f);
    TotalOfOne(x, f);
    UsageSplits(a, [x] + b, u);
    UsageSplits([x], b, u);
    UsageOfOne(x, u);
  }
}
