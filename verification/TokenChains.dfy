/**
 While saves succeed, each token family is one growing chain of successors whose last token is its
 only usable one; so the verdict on a used token can be read off its place in the chain.
 */
module TokenChains {
  import opened Basics
  import opened TokenState
  import opened TokenSafety

  /** No save throws, and no crash falls between the two saves of one refresh. */
  predicate Tidy(e: Event) {
    match e
    case RedeemResumes(_, _, _, _, _, save) => !save.Threw?
    case Refreshes(_, _, _, first, second) =>
      first.CrashedBefore? || (first.Saved? && (second.Saved? || second.CrashedAfter?))
    case _ => true
  }

  ghost predicate SameGrant(r: Record, q: Record) {
    r.client == q.client && r.scope == q.scope && r.resource == q.resource && r.issuer == q.issuer && r.family == q.family
  }

  /** Used and linked to the next one, or the usable tip. */
  ghost predicate Linked(records: Store, c: seq<Token>, i: nat)
    requires i < |c| && c[i] in records
  {
    if i + 1 < |c| then !records[c[i]].active && records[c[i]].successor == Some(c[i + 1])
    else records[c[i]].active
  }

  ghost predicate Chain(records: Store, c: seq<Token>, f: Family) {
    && |c| > 0
    && (forall i, j :: 0 <= i < j < |c| ==> c[i] != c[j])
    && (forall i :: 0 <= i < |c| ==> c[i] in records && records[c[i]].family == f)
    && (forall i :: 0 <= i < |c| ==> Linked(records, c, i))
    && (forall i :: 0 <= i < |c| ==> SameGrant(records[c[0]], records[c[i]]))
  }

  /** The families partition the store into chains. */
  ghost predicate Chains(records: Store, families: map<Family, seq<Token>>) {
    && (forall f :: f in families ==> Chain(records, families[f], f))
    && (forall t :: t in records ==> records[t].family in families && t in families[records[t].family])
  }

  ghost predicate Settled(s: State) {
    s.records == s.disk && Chains(s.records, s.families)
  }

  lemma StartChain(records: Store, families: map<Family, seq<Token>>, token: Token, r: Record)
    requires Chains(records, families) && token !in records && r.family !in families && r.active
    ensures Chains(records[token := r], families[r.family := [token]])
  {
    var next := records[token := r];
    forall f | f in families ensures Chain(next, families[f], f) {
      assert Chain(records, families[f], f);
      OtherChain(records, next, families[f], f);
    }
    assert Linked(next, [token], 0);
  }

  /** A chain whose records did not change is still a chain. */
  lemma OtherChain(records: Store, next: Store, c: seq<Token>, f: Family)
    requires Chain(records, c, f)
    requires forall i :: 0 <= i < |c| ==> c[i] in next && next[c[i]] == records[c[i]]
    ensures Chain(next, c, f)
  {
    forall i | 0 <= i < |c| ensures Linked(next, c, i) {
      assert Linked(records, c, i);
    }
  }

  lemma TipIsLast(records: Store, c: seq<Token>, f: Family, t: Token)
    requires Chain(records, c, f) && t in c && records[t].active
    ensures t == c[|c| - 1]
  {
    var i :| 0 <= i < |c| && c[i] == t;
    assert Linked(records, c, i);
  }

  lemma GrowChain(records: Store, next: Store, c: seq<Token>, f: Family, token: Token)
    requires Chain(records, c, f) && token !in records && token in next
    requires forall i :: 0 <= i < |c| - 1 ==> c[i] in next && next[c[i]] == records[c[i]]
    requires c[|c| - 1] in next && !next[c[|c| - 1]].active && next[c[|c| - 1]].successor == Some(token)
    requires SameGrant(records[c[|c| - 1]], next[c[|c| - 1]]) && SameGrant(records[c[|c| - 1]], next[token])
    requires next[token].active
    ensures Chain(next, c + [token], f)
  {
    var d := c + [token];
    forall i | 0 <= i < |d| ensures Linked(next, d, i) {
      if i < |c| - 1 {
        assert Linked(records, c, i);
      }
    }
    assert SameGrant(records[c[0]], records[c[|c| - 1]]);
    forall i | 0 <= i < |d| ensures SameGrant(next[d[0]], next[d[i]]) && next[d[i]].family == f {
      if i < |c| - 1 {
        assert SameGrant(records[c[0]], records[c[i]]);
      }
    }
  }

  /** The store after a completed rotation of the tip `spent` is again a set of chains. */
  lemma RotationGrowsChain(records: Store, next: Store, families: map<Family, seq<Token>>, spent: Token, token: Token)
    requires Chains(records, families) && spent in records && records[spent].active && token !in records
    requires next.Keys == records.Keys + {token}
    requires forall t :: t in records && t != spent ==> next[t] == records[t]
    requires !next[spent].active && next[spent].successor == Some(token) && next[token].active
    requires SameGrant(records[spent], next[spent]) && SameGrant(records[spent], next[token])
    ensures var f := records[spent].family; f in families && Chains(next, families[f := families[f] + [token]])
  {
    hide Chain;
    var f := records[spent].family;
    var c := families[f];
    SpentChainGrows(records, next, c, f, spent, token);
    var more := families[f := c + [token]];
    forall g | g in more ensures Chain(next, more[g], g) {
      if g != f {
        ChainIsHeld(records, families[g], g);
        OtherChain(records, next, families[g], g);
      }
    }
    forall t | t in next ensures next[t].family in more && t in more[next[t].family] {
      if t == token {
        assert (c + [token])[|c|] == token;
      } else {
        assert t in families[records[t].family];
      }
    }
  }

  lemma ChainIsHeld(records: Store, c: seq<Token>, f: Family)
    requires Chain(records, c, f)
    ensures forall i :: 0 <= i < |c| ==> c[i] in records && records[c[i]].family == f
  {
  }

  lemma SpentChainGrows(records: Store, next: Store, c: seq<Token>, f: Family, spent: Token, token: Token)
    requires Chain(records, c, f) && spent in c && records[spent].active && token !in records && token in next
    requires forall t :: t in records && t != spent ==> t in next && next[t] == records[t]
    requires spent in next && !next[spent].active && next[spent].successor == Some(token) && next[token].active
    requires SameGrant(records[spent], next[spent]) && SameGrant(records[spent], next[token])
    ensures Chain(next, c + [token], f)
  {
    TipIsLast(records, c, f, spent);
    GrowChain(records, next, c, f, token);
  }

  lemma TidyRedeem(s: State, code: Code, p: Redemption, token: Token, family: Family, jti: Jti, save: Save)
    requires Invariant(s) && Settled(s) && Enabled(s, RedeemResumes(code, p, token, family, jti, save)) && !save.Threw?
    ensures Settled(RedeemFinish(s, code, p, token, family, jti, save).0)
  {
    hide Invariant, Chains, RedemptionOk;
    MintFresh(s, token);
    var Awaiting(g, lane) := s.awaiting[code];
    StartChain(s.records, s.families, token, NewRecord(s.now, lane, g.client, g.scope, family));
  }

  lemma TidyRefresh(s: State, q: RefreshRequest, token: Token, jti: Jti, first: Save, second: Save)
    requires Invariant(s) && Settled(s) && token !in s.tokens && Tidy(Refreshes(q, token, jti, first, second))
    ensures Settled(Refresh(s, q, token, jti, first, second).0)
  {
    hide Invariant, Chains, RefreshTarget;
    if RefreshTarget(s, q).Some? && first.Saved? {
      TargetIsActive(s, q);
      MintFresh(s, token);
      var spent := q.token.value;
      RotationGrowsChain(s.records, Refresh(s, q, token, jti, first, second).0.records, s.families, spent, token);
    }
  }

  lemma TidyStep(s: State, e: Event)
    requires Invariant(s) && Settled(s) && Enabled(s, e) && Tidy(e)
    ensures Settled(Step(s, e))
  {
    hide Invariant, Chains, RedeemFinish, Refresh;
    match e
    case RedeemResumes(code, p, token, family, jti, save) => TidyRedeem(s, code, p, token, family, jti, save);
    case Refreshes(q, token, jti, first, second) => TidyRefresh(s, q, token, jti, first, second);
    case _ =>
  }

  /** Along a run whose saves succeed, the store on disk is the store in memory, cut into chains. */
  lemma {:induction false} FamiliesAreChains(s: State, es: seq<Event>)
    requires Invariant(s) && Settled(s) && IsRun(s, es) && (forall e :: e in es ==> Tidy(e))
    ensures Settled(After(s, es))
    decreases |es|
  {
    hide Invariant, Settled, Step, Tidy;
    if es != [] {
      StepKeeps(s, es[0]);
      TidyStep(s, es[0]);
      FamiliesAreChains(Step(s, es[0]), es[1..]);
    }
  }

  // ---- What a used token means -------------------------------------------------------------------

  /** The caller names no other client, and knows the client's secret if it has one. */
  predicate IsClient(r: Record, clientSecret: Option<string>, p: Presented) {
    (p.client.None? || p.client.value == r.client) && KnowsSecret(clientSecret, p)
  }

  predicate KnowsSecret(clientSecret: Option<string>, p: Presented) {
    clientSecret.None? || clientSecret.value == "" || p.secret == clientSecret
  }

  /** The caller proved to be the client, and the token has not expired. */
  predicate Authentic(records: Store, t: Token, now: int, clientSecret: Option<string>, p: Presented) {
    t in records && IsClient(records[t], clientSecret, p) && now <= records[t].exp
  }

  /** `t` is the token the usable tip of its family replaced. */
  ghost predicate BeforeTip(families: map<Family, seq<Token>>, f: Family, t: Token) {
    f in families && |families[f]| >= 2 && families[f][|families[f]| - 2] == t
  }

  ghost predicate IsTip(families: map<Family, seq<Token>>, f: Family, t: Token) {
    f in families && |families[f]| >= 1 && families[f][|families[f]| - 1] == t
  }

  lemma ChainVerdict(records: Store, c: seq<Token>, f: Family, t: Token, now: int, clientSecret: Option<string>, p: Presented)
    requires Chain(records, c, f) && t in c && Authentic(records, t, now, clientSecret, p)
    requires WellFormed(records[t])
    ensures records[t].active <==> t == c[|c| - 1]
    ensures ResolveRefresh(records, Some(t), now, clientSecret, p) ==
      if t == c[|c| - 1] then Accepted(records[t])
      else if t == c[|c| - 2] && now - records[t].rotatedAt.value > DUPLICATE_REFRESH_WINDOW_S then RefreshReused
      else RefreshSuperseded
  {
    var i :| 0 <= i < |c| && c[i] == t;
    assert Linked(records, c, i);
    if i + 1 < |c| {
      assert Linked(records, c, i + 1);
      assert c[i] != c[|c| - 1];
    }
  }

  /**
   What every caller is told about every token, from start-up along any run whose saves succeed.  A
   stranger learns only that the token is unknown, or that he is not its client; the client learns
   that it has expired, that it is good (exactly the tip of its family), that it is `refresh_reused`
   (exactly the immediate predecessor of the tip, used more than ten seconds ago), or else that it is
   `refresh_superseded`.  Nothing is ever `revoked`.
   */
  lemma UsedTokenVerdict(lanes: Lanes, es: seq<Event>, token: Option<Token>, clientSecret: Option<string>, p: Presented)
    requires IsRun(Initial(lanes), es) && (forall e :: e in es ==> Tidy(e))
    ensures var s := After(Initial(lanes), es);
            var verdict := ResolveRefresh(s.records, token, s.now, clientSecret, p);
            && (verdict == RefreshUnknown <==> token.None? || token.value !in s.records)
            && verdict != Revoked
            && (token.Some? && token.value in s.records ==>
                  && var t, r := token.value, s.records[token.value];
                     var authentic := IsClient(r, clientSecret, p) && s.now <= r.exp;
                     && (verdict == ClientMismatch <==> p.client.Some? && p.client.value != r.client)
                     && (verdict == InvalidClient <==> (p.client.None? || p.client.value == r.client) && !KnowsSecret(clientSecret, p))
                     && (verdict == RefreshExpired <==> IsClient(r, clientSecret, p) && r.exp < s.now)
                     && (verdict == Accepted(r) <==> authentic && IsTip(s.families, r.family, t))
                     && (BeforeTip(s.families, r.family, t) ==> r.rotatedAt.Some?)
                     && (verdict == RefreshReused <==>
                           authentic && BeforeTip(s.families, r.family, t) && s.now - r.rotatedAt.value > DUPLICATE_REFRESH_WINDOW_S)
                     && (verdict == RefreshSuperseded <==>
                           && authentic && !IsTip(s.families, r.family, t)
                           && !(BeforeTip(s.families, r.family, t) && s.now - r.rotatedAt.value > DUPLICATE_REFRESH_WINDOW_S)))
  {
    hide Invariant, Chain, ResolveRefresh;
    InitiallyInvariant(lanes);
    RunKeeps(Initial(lanes), es);
    FamiliesAreChains(Initial(lanes), es);
    var s := After(Initial(lanes), es);
    if token.None? || token.value !in s.records {
      UnknownVerdict(s.records, token, s.now, clientSecret, p);
    } else {
      var t, r := token.value, s.records[token.value];
      OriginOfRecord(s, t);
      ChainTipDiffers(s.records, s.families[r.family], r.family);
      if Authentic(s.records, t, s.now, clientSecret, p) {
        ChainVerdict(s.records, s.families[r.family], r.family, t, s.now, clientSecret, p);
      } else {
        StrangerVerdict(s.records, t, s.now, clientSecret, p);
      }
    }
  }

  /** Whoever is not the client, or comes too late, is told so, in this order. */
  lemma StrangerVerdict(records: Store, t: Token, now: int, clientSecret: Option<string>, p: Presented)
    requires t in records && !records[t].revoked && !Authentic(records, t, now, clientSecret, p)
    ensures ResolveRefresh(records, Some(t), now, clientSecret, p) ==
      if p.client.Some? && p.client.value != records[t].client then ClientMismatch
      else if !KnowsSecret(clientSecret, p) then InvalidClient
      else RefreshExpired
  {
  }

  lemma UnknownVerdict(records: Store, token: Option<Token>, now: int, clientSecret: Option<string>, p: Presented)
    requires token.None? || token.value !in records
    ensures ResolveRefresh(records, token, now, clientSecret, p) == RefreshUnknown
  {
  }

  lemma ChainTipDiffers(records: Store, c: seq<Token>, f: Family)
    requires Chain(records, c, f)
    ensures |c| >= 1
    ensures |c| >= 2 ==> c[|c| - 2] != c[|c| - 1] && c[|c| - 2] in records && !records[c[|c| - 2]].active
  {
    if |c| >= 2 { assert Linked(records, c, |c| - 2); }
  }
}
