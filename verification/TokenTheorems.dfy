/**
 What a client, an operator and a resource server may rely on, over every run of the token server.
 */
module TokenTheorems {
  import opened Basics
  import opened TokenState
  import opened TokenSafety
  import opened AtomicJson

  /** A state some run reaches from start-up, through any interleaving, failed saves and crashes. */
  ghost predicate Reachable(s: State) {
    exists lanes, es :: IsRun(Initial(lanes), es) && After(Initial(lanes), es) == s
  }

  lemma ReachableInvariant(s: State)
    requires Reachable(s)
    ensures Invariant(s)
  {
    hide Invariant, Grows;
    var lanes, es :| IsRun(Initial(lanes), es) && After(Initial(lanes), es) == s;
    InitiallyInvariant(lanes);
    RunKeeps(Initial(lanes), es);
  }

  // ---- Snapshots ---------------------------------------------------------------------------------

  /** On disk and in memory, a family never has two usable refresh tokens. */
  lemma OneActivePerFamily(s: State, t: Token, u: Token)
    requires Reachable(s)
    requires (t in s.disk && u in s.disk && s.disk[t].active && s.disk[u].active && s.disk[t].family == s.disk[u].family)
          || (t in s.records && u in s.records && s.records[t].active && s.records[u].active
              && s.records[t].family == s.records[u].family)
    ensures t == u
  {
    ReachableInvariant(s);
    if t in s.disk && u in s.disk && s.disk[t].active && s.disk[u].active && s.disk[t].family == s.disk[u].family {
      assert Active(s.disk, t, s.disk[t].family) && Active(s.disk, u, s.disk[u].family);
    } else {
      assert Active(s.records, t, s.records[t].family) && Active(s.records, u, s.records[u].family);
    }
  }

  /** What one event hands out is on disk before the answer leaves. */
  lemma IssuedIsSaved(s: State, e: Event)
    requires Invariant(s) && Enabled(s, e) && StepReply(s, e).1.Issued?
    ensures StepReply(s, e).1.refresh in Step(s, e).disk
  {
    hide Invariant;
  }

  /** A refresh token handed to a client is in every later snapshot, whatever fails or crashes later. */
  lemma ReturnedTokensAreKept(s: State, e: Event, es: seq<Event>)
    requires Reachable(s) && Enabled(s, e) && StepReply(s, e).1.Issued? && IsRun(Step(s, e), es)
    ensures StepReply(s, e).1.refresh in After(Step(s, e), es).disk
    ensures StepReply(s, e).1.refresh in After(Step(s, e), es).records
  {
    hide Step, StepReply, StoreOk, CodesOk, OriginsOk, CodesGrow;
    ReachableInvariant(s);
    IssuedIsSaved(s, e);
    StepKeeps(s, e);
    RunKeeps(Step(s, e), es);
  }

  /**
   A crash at any moment of saving the store, with any part of the temporary file lost, restarts the
   server in one of the two states `SaveTokens` allows: with the old snapshot or with the new one.
   */
  lemma CrashDuringSave(encode: Store -> Bytes, decode: Bytes -> Option<Store>, start: Files, moment: Files,
                        found: map<string, Bytes>, name: string, s: State)
    requires forall x :: decode(encode(x)) == Some(x)
    requires Holds(encode, start, name, s.disk, map[])
    requires Lookup(moment, name) == Lookup(start, name)
          || Lookup(moment, name) == Some(File(encode(s.records), |encode(s.records)|))
    requires Survives(moment, found)
    ensures exists save :: (save == CrashedBefore || save == CrashedAfter)
                        && SaveTokens(s, save).records == Load(decode, found, name, map[])
                        && SaveTokens(s, save).disk == Load(decode, found, name, map[])
  {
    CrashLeavesOldOrNew(encode, decode, start, moment, found, name, s.disk, s.records, map[]);
    assert SaveTokens(s, CrashedBefore).records == s.disk && SaveTokens(s, CrashedAfter).records == s.records;
  }

  // ---- Answered refreshes ------------------------------------------------------------------------

  /** An answered refresh left its token used, stamped and linked to its successor, on disk. */
  lemma AnsweredRefreshIsRecorded(s: State, q: RefreshRequest, token: Token, jti: Jti, first: Save, second: Save)
    requires Invariant(s) && token !in s.tokens && Refresh(s, q, token, jti, first, second).1.Issued?
    ensures var t := Refresh(s, q, token, jti, first, second).0;
            && q.token.Some? && q.token.value in t.disk && !t.disk[q.token.value].active
            && t.disk[q.token.value].rotatedAt == Some(s.now) && t.disk[q.token.value].successor == Some(token)
            && token in t.disk && t.disk[token].active && t.disk[token].family == t.disk[q.token.value].family
            && token != q.token.value
  {
    hide Invariant;
    TargetIsActive(s, q);
    MintFresh(s, token);
  }

  /** Used tokens are refused, whoever presents them and however. */
  lemma UsedIsRefused(s: State, q: RefreshRequest)
    requires q.token.Some? && q.token.value in s.records && !s.records[q.token.value].active
    ensures RefreshTarget(s, q).None?
  {
  }

  /**
   After a refresh was answered, its token is never accepted again, and its record never changes
   again: not by later requests, not by failed saves, not by crashes and restarts.
   */
  lemma AnsweredRefreshIsFinal(s: State, q: RefreshRequest, token: Token, jti: Jti, first: Save, second: Save, es: seq<Event>,
                               again: RefreshRequest)
    requires Reachable(s) && Enabled(s, Refreshes(q, token, jti, first, second))
    requires Refresh(s, q, token, jti, first, second).1.Issued? && IsRun(Refresh(s, q, token, jti, first, second).0, es)
    requires again.token == q.token
    ensures var u := After(Refresh(s, q, token, jti, first, second).0, es);
            && q.token.Some? && q.token.value in u.disk && q.token.value in u.records
            && u.disk[q.token.value] == u.records[q.token.value]
            && u.disk[q.token.value] == Refresh(s, q, token, jti, first, second).0.disk[q.token.value]
            && u.disk[q.token.value].rotatedAt == Some(s.now) && u.disk[q.token.value].successor == Some(token)
            && RefreshTarget(u, again).None?
  {
    hide Refresh, RefreshTarget, StoreOk, CodesOk, OriginsOk, CodesGrow;
    ReachableInvariant(s);
    AnsweredRefreshIsRecorded(s, q, token, jti, first, second);
    RefreshKeeps(s, q, token, jti, first, second);
    var t := Refresh(s, q, token, jti, first, second).0;
    RunKeeps(t, es);
    var u := After(t, es);
    assert Later(t.disk[q.token.value], u.disk[q.token.value]);
    assert Later(u.disk[q.token.value], u.records[q.token.value]);
    UsedIsRefused(u, again);
  }

  // ---- Single use --------------------------------------------------------------------------------

  /** Event `e` answers a redemption of `code` with tokens. */
  predicate Redeemed(s: State, e: Event, code: Code)
    requires Enabled(s, e)
  {
    e.RedeemResumes? && e.code == code && StepReply(s, e).1.Issued?
  }

  /** Event `e` answers a refresh of `token` with tokens. */
  predicate Refreshed(s: State, e: Event, token: Token)
    requires Enabled(s, e)
  {
    e.Refreshes? && e.request.token == Some(token) && StepReply(s, e).1.Issued?
  }

  function Redemptions(s: State, es: seq<Event>, code: Code): nat
    requires IsRun(s, es)
    decreases |es|
  {
    if es == [] then 0
    else (if Redeemed(s, es[0], code) then 1 else 0) + Redemptions(Step(s, es[0]), es[1..], code)
  }

  function Refreshings(s: State, es: seq<Event>, token: Token): nat
    requires IsRun(s, es)
    decreases |es|
  {
    if es == [] then 0
    else (if Refreshed(s, es[0], token) then 1 else 0) + Refreshings(Step(s, es[0]), es[1..], token)
  }

  lemma RedeemingSpends(s: State, e: Event, code: Code)
    requires Invariant(s) && Enabled(s, e) && Redeemed(s, e, code)
    ensures !Spent(s, code) && Spent(Step(s, e), code)
  {
    hide StoreOk, DiskOk, OriginsOk;
  }

  ghost predicate Used(disk: Store, t: Token) {
    t in disk && !disk[t].active
  }

  lemma {:induction false} RedemptionsBounded(s: State, es: seq<Event>, code: Code)
    requires Invariant(s) && IsRun(s, es)
    ensures Redemptions(s, es, code) <= if Spent(s, code) then 0 else 1
    decreases |es|
  {
    hide Invariant, Step, DiskGrows, Redeemed, Spent;
    if es != [] {
      StepKeeps(s, es[0]);
      if Redeemed(s, es[0], code) {
        RedeemingSpends(s, es[0], code);
      }
      RedemptionsBounded(Step(s, es[0]), es[1..], code);
    }
  }

  lemma RefreshingUses(s: State, e: Event, token: Token)
    requires Invariant(s) && Enabled(s, e) && Refreshed(s, e, token)
    ensures !Used(s.disk, token) && Used(Step(s, e).disk, token)
  {
    hide StoreOk, CodesOk, OriginsOk, Refresh, RefreshTarget;
    AnsweredRefreshIsRecorded(s, e.request, e.token, e.jti, e.first, e.second);
    TargetIsActive(s, e.request) by { AnsweredHadTarget(s, e.request, e.token, e.jti, e.first, e.second); }
  }

  lemma AnsweredHadTarget(s: State, q: RefreshRequest, token: Token, jti: Jti, first: Save, second: Save)
    requires Refresh(s, q, token, jti, first, second).1.Issued?
    ensures RefreshTarget(s, q).Some?
  {
  }

  lemma {:induction false} RefreshingsBounded(s: State, es: seq<Event>, token: Token)
    requires Invariant(s) && IsRun(s, es)
    ensures Refreshings(s, es, token) <= if Used(s.disk, token) then 0 else 1
    decreases |es|
  {
    hide Invariant, Step, CodesGrow, Refreshed;
    if es != [] {
      StepKeeps(s, es[0]);
      if Refreshed(s, es[0], token) {
        RefreshingUses(s, es[0], token);
      }
      if Used(s.disk, token) {
        assert Later(s.disk[token], Step(s, es[0]).disk[token]);
      }
      RefreshingsBounded(Step(s, es[0]), es[1..], token);
    }
  }

  /**
   Among any number of requests interleaved in any way, with failed saves and crashes, at most one
   is answered with tokens for each authorization code, and at most one for each refresh token.
   */
  lemma CodesAndTokensWorkOnce(s: State, es: seq<Event>, code: Code, token: Token)
    requires Reachable(s) && IsRun(s, es)
    ensures Redemptions(s, es, code) <= 1 && Refreshings(s, es, token) <= 1
  {
    hide Invariant;
    ReachableInvariant(s);
    RedemptionsBounded(s, es, code);
    RefreshingsBounded(s, es, token);
  }

  // ---- Refusals ----------------------------------------------------------------------------------

  /** The refresh names another lane or another resource than its record. */
  predicate Mismatched(s: State, q: RefreshRequest) {
    && q.token.Some? && q.token.value in s.records
    && var r := s.records[q.token.value];
       WrongLane(LaneForGrant(s.lanes, r.resource, r.issuer), q.hint) || (Given(q.resource) && q.resource.value != r.resource)
  }

  /** A mismatched refresh is refused, and every refused refresh leaves the whole store as it was. */
  lemma RefusedRefreshChangesNothing(s: State, q: RefreshRequest, token: Token, jti: Jti, first: Save, second: Save)
    ensures Mismatched(s, q) ==> Refresh(s, q, token, jti, first, second).1 == Refused
    ensures Refresh(s, q, token, jti, first, second).1 == Refused ==> Refresh(s, q, token, jti, first, second).0 == s
  {
  }

  // ---- Bearer tokens -----------------------------------------------------------------------------

  /** The access token was signed by this server; nothing else verifies. */
  predicate Genuine(s: State, a: Access) {
    a.jti in s.access && s.access[a.jti].access == a
  }

  /**
   An access token accepted on a lane was minted for a consent given for exactly that lane, to the
   same client and with the same scope; its code was taken for redemption and is never redeemed
   again; the refresh token handed out beside it goes back to the same code, however many refreshes
   lie in between; and the consent is not one for the other lane.
   */
  lemma AcceptedBearerHasConsent(s: State, a: Access, lane: Lane, other: Lane)
    requires Reachable(s) && Distinct(s.lanes)
    requires (lane == s.lanes.dc && other == s.lanes.jc) || (lane == s.lanes.jc && other == s.lanes.dc)
    requires Genuine(s, a) && ClassifyBearer(Signed(a), lane, s.now) == Ok(a)
    ensures var m := s.access[a.jti];
            && m.code in s.consents && Spent(s, m.code)
            && m.refresh in s.origin && s.origin[m.refresh] == m.code
            && var g := s.consents[m.code];
               && Binds(g, lane) && g.client == a.client && g.scope == a.scope
               && g.resource != other.resource && g.issuer != other.issuer
    ensures forall es :: IsRun(s, es) ==> Redemptions(s, es, s.access[a.jti].code) == 0
    ensures s.now <= a.exp && ClassifyBearer(Signed(a), other, s.now) == WrongIssuer
  {
    hide DiskOk, StoreOk, CodesOk;
    ReachableInvariant(s);
    var m := s.access[a.jti];
    assert MintedFrom(m, s.consents);
    assert SpentCode(s.codes, s.awaiting, s.consents, s.origin[m.refresh]);
    forall es | IsRun(s, es) ensures Redemptions(s, es, m.code) == 0 {
      RedemptionsBounded(s, es, m.code);
    }
  }

  /**
   Every refresh record has the client, scope, resource and issuer of one consent, whose code was
   taken for redemption; and two records go back to the same code exactly when they are of one
   family, so the whole family shares the consent it started with.
   */
  lemma IssuedTokensHaveConsent(s: State, t: Token, u: Token)
    requires Reachable(s) && t in s.records && u in s.records
    ensures t in s.origin && u in s.origin && s.origin[t] in s.consents && Spent(s, s.origin[t])
    ensures RecordFrom(s.records[t], s.consents[s.origin[t]])
    ensures s.records[t].family == s.records[u].family <==> s.origin[t] == s.origin[u]
    ensures LaneForGrant(s.lanes, s.records[t].resource, s.records[t].issuer).Some?
  {
    hide DiskOk, StoreOk, LineageOk, RedeemedOk;
    ReachableInvariant(s);
    OriginOfRecord(s, t);
    OriginOfRecord(s, u);
    assert SameLine(s.records, s.origin, t, s.records[u].family, s.origin[u]);
    var g := s.consents[s.origin[t]];
    assert Binds(g, s.lanes.dc) || Binds(g, s.lanes.jc);
  }

  /** Later runs keep both ends of that trace: the code stays spent and the consent stays what it was. */
  lemma ConsentsAreKept(s: State, es: seq<Event>, c: Code)
    requires Reachable(s) && IsRun(s, es) && c in s.consents
    ensures c in After(s, es).consents && After(s, es).consents[c] == s.consents[c]
    ensures Spent(s, c) ==> Spent(After(s, es), c)
  {
    hide Invariant, DiskGrows, Spent;
    ReachableInvariant(s);
    RunKeeps(s, es);
  }
}
