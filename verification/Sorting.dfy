/**
 Text order and the stable sort both programs and both checkers rely on.
 */
module Sorting {

  predicate Leq(a: string, b: string) {
    a == [] || (b != [] && (a[0] < b[0] || (a[0] == b[0] && Leq(a[1..], b[1..]))))
  }

  lemma {:induction false} LeqReflexive(a: string)
    ensures Leq(a, a)
  {
    if a != [] { LeqReflexive(a[1..]); }
  }

  lemma {:induction false} LeqTotal(a: string, b: string)
    ensures Leq(a, b) || Leq(b, a)
  {
    if a != [] && b != [] { LeqTotal(a[1..], b[1..]); }
  }

  lemma {:induction false} LeqTransitive(a: string, b: string, c: string)
    requires Leq(a, b) && Leq(b, c)
    ensures Leq(a, c)
  {
    if a != [] && a[0] == b[0] && b[0] == c[0] { LeqTransitive(a[1..], b[1..], c[1..]); }
  }

  lemma {:induction false} LeqAntisymmetric(a: string, b: string)
    requires Leq(a, b) && Leq(b, a)
    ensures a == b
  {
    if a != [] {
      LeqAntisymmetric(a[1..], b[1..]);
      assert a == [a[0]] + a[1..] && b == [b[0]] + b[1..];
    }
  }

  /** Before everything that is not smaller: insertion of an earlier element keeps the sort stable. */
  function Insert<T>(key: T -> string, x: T, s: seq<T>): seq<T> {
    if s == [] || Leq(key(x), key(s[0])) then [x] + s else [s[0]] + Insert(key, x, s[1..])
  }

  function Sort<T>(key: T -> string, s: seq<T>): seq<T> {
    if s == [] then [] else Insert(key, s[0], Sort(key, s[1..]))
  }

  ghost predicate Ordered<T>(key: T -> string, s: seq<T>) {
    forall i, j :: 0 <= i < j < |s| ==> Leq(key(s[i]), key(s[j]))
  }

  lemma {:induction false} InsertHolds<T>(key: T -> string, x: T, s: seq<T>)
    ensures multiset(Insert(key, x, s)) == multiset{x} + multiset(s)
    ensures |Insert(key, x, s)| == |s| + 1
  {
    if s != [] && !Leq(key(x), key(s[0])) {
      InsertHolds(key, x, s[1..]);
      assert s == [s[0]] + s[1..];
    }
  }

  lemma {:induction false} InsertOrders<T>(key: T -> string, x: T, s: seq<T>)
    requires Ordered(key, s)
    ensures Ordered(key, Insert(key, x, s))
  {
    if s != [] {
      LeqTotal(key(x), key(s[0]));
      if Leq(key(x), key(s[0])) {
        forall j | 0 <= j < |s| ensures Leq(key(x), key(s[j])) {
          if j > 0 { LeqTransitive(key(x), key(s[0]), key(s[j])); }
        }
      } else {
        InsertOrders(key, x, s[1..]);
        InsertHolds(key, x, s[1..]);
        var rest := Insert(key, x, s[1..]);
        forall j | 0 <= j < |rest| ensures Leq(key(s[0]), key(rest[j])) {
          assert rest[j] in multiset(rest);
        }
      }
    }
  }

  lemma {:induction false} SortHolds<T>(key: T -> string, s: seq<T>)
    ensures multiset(Sort(key, s)) == multiset(s) && Ordered(key, Sort(key, s)) && |Sort(key, s)| == |s|
  {
    if s != [] {
      SortHolds(key, s[1..]);
      InsertOrders(key, s[0], Sort(key, s[1..]));
      InsertHolds(key, s[0], Sort(key, s[1..]));
      assert s == [s[0]] + s[1..];
    }
  }

  /** The elements with this key, in order. */
  function WithKey<T>(key: T -> string, k: string, s: seq<T>): seq<T> {
    if s == [] then [] else (if key(s[0]) == k then [s[0]] else []) + WithKey(key, k, s[1..])
  }

  lemma {:induction false} InsertStable<T>(key: T -> string, x: T, s: seq<T>, k: string)
    ensures WithKey(key, k, Insert(key, x, s)) == (if key(x) == k then [x] else []) + WithKey(key, k, s)
  {
    hide WithKey, Leq;
    if s == [] || Leq(key(x), key(s[0])) {
      WithKeyCons(key, k, x, s);
    } else {
      InsertStable(key, x, s[1..], k);
      LeqReflexive(key(x));
      WithKeyCons(key, k, s[0], s[1..]);
      WithKeyCons(key, k, s[0], Insert(key, x, s[1..]));
      assert [s[0]] + s[1..] == s;
    }
  }

  lemma WithKeyCons<T>(key: T -> string, k: string, x: T, s: seq<T>)
    ensures WithKey(key, k, [x] + s) == (if key(x) == k then [x] else []) + WithKey(key, k, s)
  {
    assert ([x] + s)[1..] == s;
  }

  /** The sort is stable: elements with equal keys stay in order. */
  lemma {:induction false} SortStable<T>(key: T -> string, s: seq<T>, k: string)
    ensures WithKey(key, k, Sort(key, s)) == WithKey(key, k, s)
  {
    if s != [] {
      SortStable(key, s[1..], k);
      InsertStable(key, s[0], Sort(key, s[1..]), k);
    }
  }

  /** Elements of `s` with equal keys are equal. */
  ghost predicate Keyed<T(!new)>(key: T -> string, s: seq<T>) {
    forall x, y :: x in s && y in s && key(x) == key(y) ==> x == y
  }

  lemma {:induction false} OrderedIsUnique<T(!new)>(key: T -> string, a: seq<T>, b: seq<T>)
    requires multiset(a) == multiset(b) && Ordered(key, a) && Ordered(key, b) && Keyed(key, a)
    ensures a == b
    decreases |a|
  {
    assert |multiset(a)| == |a| && |multiset(b)| == |b|;
    if a != [] {
      HeadsAgree(key, a, b);
      TailsAgree(a, b);
      assert Keyed(key, a[1..]) && Ordered(key, a[1..]) && Ordered(key, b[1..]);
      OrderedIsUnique(key, a[1..], b[1..]);
      assert a == [a[0]] + a[1..] && b == [b[0]] + b[1..];
    }
  }

  lemma HeadsAgree<T(!new)>(key: T -> string, a: seq<T>, b: seq<T>)
    requires multiset(a) == multiset(b) && Ordered(key, a) && Ordered(key, b) && Keyed(key, a) && a != [] && b != []
    ensures a[0] == b[0]
  {
    hide Leq;
    assert a[0] in multiset(b) && b[0] in multiset(a);
    HeadIsLeast(key, a, b[0]);
    HeadIsLeast(key, b, a[0]);
    LeqAntisymmetric(key(a[0]), key(b[0]));
  }

  lemma TailsAgree<T>(a: seq<T>, b: seq<T>)
    requires multiset(a) == multiset(b) && a != [] && b != [] && a[0] == b[0]
    ensures multiset(a[1..]) == multiset(b[1..])
  {
    assert a == [a[0]] + a[1..] && b == [b[0]] + b[1..];
    assert multiset(a[1..]) == multiset(a) - multiset{a[0]} && multiset(b[1..]) == multiset(b) - multiset{b[0]};
  }

  lemma HeadIsLeast<T>(key: T -> string, s: seq<T>, x: T)
    requires Ordered(key, s) && x in s
    ensures Leq(key(s[0]), key(x))
  {
    LeqReflexive(key(x));
  }

  /** Sorting forgets the order it was given, as long as equal keys mean equal elements. */
  lemma SortIgnoresOrder<T(!new)>(key: T -> string, a: seq<T>, b: seq<T>)
    requires multiset(a) == multiset(b) && Keyed(key, a)
    ensures Sort(key, a) == Sort(key, b)
  {
    SortHolds(key, a);
    SortHolds(key, b);
    assert forall x :: x in Sort(key, a) ==> x in multiset(a);
    OrderedIsUnique(key, Sort(key, a), Sort(key, b));
  }

  // ---- Lists of text -----------------------------------------------------------------------------

  function SortText(s: seq<string>): seq<string> {
    Sort((x: string) => x, s)
  }

  /** `[...].sort()` agrees on two lists exactly when they hold the same texts equally often. */
  lemma SortTextAgrees(a: seq<string>, b: seq<string>)
    ensures SortText(a) == SortText(b) <==> multiset(a) == multiset(b)
  {
    var id := (x: string) => x;
    SortHolds(id, a);
    SortHolds(id, b);
    if multiset(a) == multiset(b) { SortIgnoresOrder(id, a, b); }
  }

  lemma SortTextHolds(s: seq<string>)
    ensures multiset(SortText(s)) == multiset(s) && |SortText(s)| == |s|
    ensures forall x :: x in SortText(s) <==> x in s
  {
    SortHolds((x: string) => x, s);
    assert forall x :: x in SortText(s) <==> x in multiset(SortText(s));
  }

  /** `[...new Set(s)]`: first occurrences, in order. */
  function Distinct(s: seq<string>): seq<string> {
    if s == [] then []
    else
      var rest := Distinct(s[..|s| - 1]);
      if s[|s| - 1] in rest then rest else rest + [s[|s| - 1]]
  }

  ghost predicate NoDuplicates<T>(s: seq<T>) {
    forall i, j :: 0 <= i < j < |s| ==> s[i] != s[j]
  }

  lemma {:induction false} DistinctHolds(s: seq<string>)
    ensures NoDuplicates(Distinct(s)) && (forall x :: x in Distinct(s) <==> x in s)
  {
    if s != [] {
      DistinctHolds(s[..|s| - 1]);
      assert s == s[..|s| - 1] + [s[|s| - 1]];
    }
  }

  lemma {:induction false} NoDuplicatesCounts<T>(s: seq<T>)
    requires NoDuplicates(s)
    ensures forall x :: multiset(s)[x] == if x in s then 1 else 0
  {
    if s != [] {
      var front, last := s[..|s| - 1], s[|s| - 1];
      NoDuplicatesCounts(front);
      assert s == front + [last];
    }
  }

  lemma OnceEach(s: seq<string>)
    requires forall x :: multiset(s)[x] <= 1
    ensures NoDuplicates(s)
  {
    forall i, j | 0 <= i < j < |s| ensures s[i] != s[j] {
      var rest := s[i + 1..];
      assert s == s[..i] + [s[i]] + rest;
      assert multiset(s)[s[i]] == multiset(s[..i])[s[i]] + 1 + multiset(rest)[s[i]];
      assert s[j] == rest[j - i - 1] && s[j] in multiset(rest);
    }
  }

  // ---- Lists as sets -----------------------------------------------------------------------------

  lemma {:induction false} SetSize<T>(s: seq<T>)
    ensures |set x | x in s| <= |s|
    ensures |set x | x in s| == |s| <==> NoDuplicates(s)
  {
    if s != [] {
      var front, last := s[..|s| - 1], s[|s| - 1];
      SetSize(front);
      assert s == front + [last];
      assert (set x | x in s) == (set x | x in front) + {last};
      if NoDuplicates(s) { assert last !in front; }
    } else {
      assert (set x | x in s) == {};
    }
  }

  /** Among lists without duplicates, a list contained in one of the same length holds the same elements. */
  lemma SameElements<T(!new)>(a: seq<T>, b: seq<T>)
    requires NoDuplicates(a) && NoDuplicates(b) && |a| == |b| && forall x :: x in a ==> x in b
    ensures forall x :: x in b ==> x in a
    ensures multiset(a) == multiset(b)
  {
    SetSize(a);
    SetSize(b);
    var p, q := set x | x in a, set x | x in b;
    assert p <= q;
    assert |q - p| == |q| - |p|;
    assert q - p == {};
    NoDuplicatesCounts(a);
    NoDuplicatesCounts(b);
    forall x ensures multiset(a)[x] == multiset(b)[x] {
      assert x in q ==> x in p;
    }
  }

  function Map<A, B>(g: A -> B, s: seq<A>): (r: seq<B>)
    ensures |r| == |s|
  {
    seq(|s|, i requires 0 <= i < |s| => g(s[i]))
  }

  function Without<T>(s: seq<T>, j: nat): seq<T>
    requires j < |s|
  {
    s[..j] + s[j + 1..]
  }

  lemma WithoutHolds<T>(s: seq<T>, j: nat)
    requires j < |s|
    ensures multiset(s) == multiset{s[j]} + multiset(Without(s, j))
  {
    assert s == s[..j] + ([s[j]] + s[j + 1..]);
  }

  lemma Cancel<T>(x: T, a: multiset<T>, b: multiset<T>)
    requires multiset{x} + a == multiset{x} + b
    ensures a == b
  {
    assert a == (multiset{x} + a) - multiset{x};
    assert b == (multiset{x} + b) - multiset{x};
  }

  lemma MapWithout<A, B>(g: A -> B, s: seq<A>, j: nat)
    requires j < |s|
    ensures Without(Map(g, s), j) == Map(g, Without(s, j)) && Map(g, s)[j] == g(s[j])
  {
  }

  lemma {:induction false} MapKeepsMultiset<A, B>(g: A -> B, a: seq<A>, b: seq<A>)
    requires multiset(a) == multiset(b)
    ensures multiset(Map(g, a)) == multiset(Map(g, b))
    decreases |a|
  {
    hide Without, Map;
    assert |multiset(a)| == |a| && |multiset(b)| == |b|;
    if a != [] {
      assert a[0] in multiset(b);
      var j :| 0 <= j < |b| && b[j] == a[0];
      WithoutHolds(a, 0);
      WithoutHolds(b, j);
      Cancel(a[0], multiset(Without(a, 0)), multiset(Without(b, j)));
      assert |multiset(Without(a, 0))| == |Without(a, 0)|;
      MapKeepsMultiset(g, Without(a, 0), Without(b, j));
      MapWithout(g, a, 0);
      MapWithout(g, b, j);
      WithoutHolds(Map(g, a), 0);
      WithoutHolds(Map(g, b), j);
    } else {
      assert b == [];
    }
  }
}
