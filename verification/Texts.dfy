/** Blank text, trimming, and the white-space normalisation of failure texts. */
module Texts {

  /** The white space and line terminators that `trim` and `\s` match. */
  predicate IsSpace(c: char) {
    var n := c as int;
    || 9 <= n <= 13 || n == 32 || n == 160 || n == 0x1680 || 0x2000 <= n <= 0x200a
    || n == 0x2028 || n == 0x2029 || n == 0x202f || n == 0x205f || n == 0x3000 || n == 0xfeff
  }

  /** `value.trim().length === 0`. */
  predicate Blank(s: string) {
    forall i :: 0 <= i < |s| ==> IsSpace(s[i])
  }

  predicate StartsWith(s: string, prefix: string) {
    prefix <= s
  }

  predicate OneLine(s: string) {
    '\r' !in s && '\n' !in s
  }

  function TrimStart(s: string): string {
    if s != [] && IsSpace(s[0]) then TrimStart(s[1..]) else s
  }

  function TrimEnd(s: string): string {
    if s != [] && IsSpace(s[|s| - 1]) then TrimEnd(s[..|s| - 1]) else s
  }

  function Trim(s: string): string {
    TrimEnd(TrimStart(s))
  }

  /** `replace(/\s+/g, " ")`. */
  function Collapse(s: string): string
    decreases |s|
  {
    if s == [] then []
    else if IsSpace(s[0]) then TrimStartShortens(s); [' '] + Collapse(TrimStart(s))
    else [s[0]] + Collapse(s[1..])
  }

  lemma {:induction false} TrimStartShortens(s: string)
    ensures |TrimStart(s)| <= |s| && (s != [] && IsSpace(s[0]) ==> |TrimStart(s)| < |s|)
  {
    if s != [] && IsSpace(s[0]) { TrimStartShortens(s[1..]); }
  }

  /** `normalizeText`. */
  function Normalize(s: string): string {
    Collapse(Trim(s))
  }

  // ---- Trimming ----------------------------------------------------------------------------------

  lemma {:induction false} TrimStartHolds(s: string)
    ensures TrimStart(s) == [] || !IsSpace(TrimStart(s)[0])
    ensures Blank(TrimStart(s)) <==> Blank(s)
    ensures forall c :: c in TrimStart(s) ==> c in s
  {
    if s != [] && IsSpace(s[0]) {
      TrimStartHolds(s[1..]);
      assert s == [s[0]] + s[1..];
    }
  }

  lemma {:induction false} TrimEndHolds(s: string)
    ensures TrimEnd(s) <= s
    ensures TrimEnd(s) == [] || !IsSpace(TrimEnd(s)[|TrimEnd(s)| - 1])
    ensures Blank(TrimEnd(s)) <==> Blank(s)
    ensures forall c :: c in TrimEnd(s) ==> c in s
  {
    if s != [] && IsSpace(s[|s| - 1]) {
      TrimEndHolds(s[..|s| - 1]);
      assert s == s[..|s| - 1] + [s[|s| - 1]];
    }
  }

  /** Trimming keeps text that is not blank from becoming blank, and one line one line. */
  lemma TrimHolds(s: string)
    ensures Blank(Trim(s)) <==> Blank(s)
    ensures OneLine(s) ==> OneLine(Trim(s))
  {
    TrimStartHolds(s);
    TrimEndHolds(TrimStart(s));
  }

  // ---- Normalising is comparing word by word ------------------------------------------------------

  /** The length of the leading run without white space. */
  function RunLength(s: string): (n: nat)
    ensures n <= |s|
  {
    if s == [] || IsSpace(s[0]) then 0 else 1 + RunLength(s[1..])
  }

  /** The maximal runs without white space. */
  function Words(s: string): seq<string> {
    if s == [] then []
    else if IsSpace(s[0]) then Words(s[1..])
    else
      assert RunLength(s) > 0;
      [s[..RunLength(s)]] + Words(s[RunLength(s)..])
  }

  function Join(ws: seq<string>): string {
    if ws == [] then [] else if |ws| == 1 then ws[0] else ws[0] + [' '] + Join(ws[1..])
  }

  ghost predicate IsWord(w: string) {
    w != [] && forall i :: 0 <= i < |w| ==> !IsSpace(w[i])
  }

  lemma {:induction false} RunLengthHolds(s: string)
    ensures forall i :: 0 <= i < RunLength(s) ==> !IsSpace(s[i])
    ensures RunLength(s) == |s| || IsSpace(s[RunLength(s)])
  {
    if s != [] && !IsSpace(s[0]) { RunLengthHolds(s[1..]); }
  }

  lemma {:induction false} RunLengthIs(s: string, n: nat)
    requires n <= |s| && (forall i :: 0 <= i < n ==> !IsSpace(s[i])) && (n == |s| || IsSpace(s[n]))
    ensures RunLength(s) == n
  {
    if n > 0 { RunLengthIs(s[1..], n - 1); }
  }

  lemma {:induction false} WordsAreWords(s: string)
    ensures forall i :: 0 <= i < |Words(s)| ==> IsWord(Words(s)[i])
    decreases |s|
  {
    if s != [] {
      if IsSpace(s[0]) {
        WordsAreWords(s[1..]);
      } else {
        RunLengthHolds(s);
        WordsAreWords(s[RunLength(s)..]);
      }
    }
  }

  /** Reading back the words of a joined text. */
  lemma {:induction false} WordsOfJoin(ws: seq<string>)
    requires forall i :: 0 <= i < |ws| ==> IsWord(ws[i])
    ensures Words(Join(ws)) == ws
  {
    if ws != [] {
      var w, s := ws[0], Join(ws);
      assert IsWord(w);
      if |ws| == 1 {
        RunLengthIs(s, |w|);
        assert s[|w|..] == [] && s[..|w|] == w;
        assert ws == [w];
      } else {
        WordsOfJoin(ws[1..]);
        assert s[|w|] == ' ' && s[..|w|] == w;
        RunLengthIs(s, |w|);
        assert s[|w|..][1..] == Join(ws[1..]);
        assert Words(s[|w|..]) == ws[1..];
        assert ws == [w] + ws[1..];
      }
    }
  }

  lemma {:induction false} WordsOfTrimStart(s: string)
    ensures Words(TrimStart(s)) == Words(s)
  {
    if s != [] && IsSpace(s[0]) { WordsOfTrimStart(s[1..]); }
  }

  /** A trailing space adds no word. */
  lemma {:induction false} WordsOfPadded(s: string, c: char)
    requires IsSpace(c)
    ensures Words(s + [c]) == Words(s)
    decreases |s|
  {
    var t := s + [c];
    if s == [] {
      assert t[1..] == [];
    } else if IsSpace(s[0]) {
      assert t[1..] == s[1..] + [c];
      WordsOfPadded(s[1..], c);
    } else {
      var n := RunLength(s);
      RunLengthHolds(s);
      RunLengthIs(t, n);
      assert t[..n] == s[..n] && t[n..] == s[n..] + [c];
      WordsOfPadded(s[n..], c);
    }
  }

  lemma {:induction false} WordsOfTrimEnd(s: string)
    ensures Words(TrimEnd(s)) == Words(s)
  {
    if s != [] && IsSpace(s[|s| - 1]) {
      WordsOfTrimEnd(s[..|s| - 1]);
      WordsOfPadded(s[..|s| - 1], s[|s| - 1]);
      assert s == s[..|s| - 1] + [s[|s| - 1]];
    }
  }

  lemma {:induction false} CollapseRun(s: string, n: nat)
    requires n <= |s| && forall i :: 0 <= i < n ==> !IsSpace(s[i])
    ensures Collapse(s) == s[..n] + Collapse(s[n..])
  {
    if n > 0 {
      CollapseRun(s[1..], n - 1);
      assert s[1..][n - 1..] == s[n..] && s[..n] == [s[0]] + s[1..][..n - 1];
    } else {
      assert s[0..] == s;
    }
  }

  /** Collapsing text with no space at either end joins its words by single spaces. */
  lemma {:induction false} CollapseJoins(s: string)
    requires s == [] || (!IsSpace(s[0]) && !IsSpace(s[|s| - 1]))
    ensures Collapse(s) == Join(Words(s))
    decreases |s|
  {
    if s != [] {
      var n := RunLength(s);
      RunLengthHolds(s);
      CollapseRun(s, n);
      var rest := s[n..];
      if rest != [] {
        var next := TrimStart(rest);
        TrimStartShortens(rest);
        TrimStartHolds(rest);
        WordsOfTrimStart(rest);
        TrimStartIsSuffix(rest);
        assert rest[|rest| - 1] == s[|s| - 1];
        assert next != [];
        CollapseJoins(next);
        assert Words(s) == [s[..n]] + Words(next);
        assert Words(next) != [];
        assert Words(s)[1..] == Words(next);
      } else {
        assert s[..n] == s && Words(rest) == [];
      }
    }
  }

  /** What is left starts somewhere in the text; text that ends in a letter keeps its end. */
  lemma {:induction false} TrimStartIsSuffix(s: string)
    requires s != [] && !IsSpace(s[|s| - 1])
    ensures TrimStart(s) != [] && TrimStart(s)[|TrimStart(s)| - 1] == s[|s| - 1]
  {
    if IsSpace(s[0]) { TrimStartIsSuffix(s[1..]); }
  }

  lemma {:induction false} TrimEndKeepsHead(s: string)
    requires s != [] && !IsSpace(s[0])
    ensures TrimEnd(s) != [] && TrimEnd(s)[0] == s[0]
  {
    if IsSpace(s[|s| - 1]) { TrimEndKeepsHead(s[..|s| - 1]); }
  }

  lemma NormalizeJoins(s: string)
    ensures Normalize(s) == Join(Words(s))
  {
    var a := TrimStart(s);
    TrimStartHolds(s);
    TrimEndHolds(a);
    WordsOfTrimStart(s);
    WordsOfTrimEnd(a);
    if a != [] { TrimEndKeepsHead(a); }
    CollapseJoins(TrimEnd(a));
  }

  /** Two texts normalise alike exactly when they have the same words: white space never matters. */
  lemma NormalizeAgrees(a: string, b: string)
    ensures Normalize(a) == Normalize(b) <==> Words(a) == Words(b)
  {
    NormalizeJoins(a);
    NormalizeJoins(b);
    WordsAreWords(a);
    WordsAreWords(b);
    WordsOfJoin(Words(a));
    WordsOfJoin(Words(b));
  }
}
