/**
 Who is answered with tokens, and with which: stated over the requests themselves, for every reachable
 state, every caller and every outcome of the saves.

 Line numbers refer to apps/dc-mcp-gateway/server.js.
 */
module TokenRequests {
  import opened Basics
  import opened TokenState
  import opened TokenSafety
  import opened TokenTheorems

  // ---- Consents ----------------------------------------------------------------------------------

  /**
   The lane a consent is for: the one of the endpoint if it has one, and the one whose resource was
   asked for; without either, the one the client is registered with.
   */
  ghost predicate Chosen(lanes: Lanes, hint: Option<Lane>, client: Client, asked: Option<string>, lane: Lane) {
    && (lane == lanes.dc || lane == lanes.jc)
    && (hint.Some? ==> lane == hint.value)
    && (Given(asked) ==> lane.resource == asked.value)
    && (hint.None? && asked != Some(lanes.dc.resource) && asked != Some(lanes.jc.resource) ==>
          lane == if client.jc then lanes.jc else lanes.dc)
  }

  /** What was consented to on a lane at a time; it holds for five minutes. */
  ghost function GrantOn(g: Grant, lane: Lane, now: int): Grant {
    Grant(g.client, g.redirect, g.scope, lane.resource, lane.issuer, g.challenge, now + 300)
  }

  /** A consent is given a code exactly when there is a lane for it, and otherwise changes nothing. */
  lemma ConsentIsGivenExactlyWhen(s: State, code: Code, hint: Option<Lane>, client: Client, asked: Option<string>, g: Grant)
    requires Enabled(s, Consents(code, hint, client, asked, g))
    ensures var (t, reply) := StepReply(s, Consents(code, hint, client, asked, g));
            && (reply == Redirected(code) <==> exists lane :: Chosen(s.lanes, hint, client, asked, lane))
            && (reply != Redirected(code) ==> reply == Refused && t == s)
            && (reply == Redirected(code) ==>
                  exists lane :: Chosen(s.lanes, hint, client, asked, lane)
                              && t == s.(codes := s.codes[code := GrantOn(g, lane, s.now)],
                                         consents := s.consents[code := GrantOn(g, lane, s.now)]))
  {
    var reply := StepReply(s, Consents(code, hint, client, asked, g)).1;
    var lane := if hint.Some? then hint else LaneForClientResource(s.lanes, client, asked);
    if reply == Redirected(code) {
      assert Chosen(s.lanes, hint, client, asked, lane.value);
    } else if other :| Chosen(s.lanes, hint, client, asked, other) {
      assert false;
    }
  }

  /** Some request of the run was a consent, and it was given `code` for `g`. */
  ghost predicate GaveConsent(s: State, es: seq<Event>, code: Code, g: Grant)
    requires IsRun(s, es)
    decreases |es|
  {
    es != [] && (Consented(s, es[0], code, g) || GaveConsent(Step(s, es[0]), es[1..], code, g))
  }

  ghost predicate Consented(s: State, e: Event, code: Code, g: Grant) {
    && e.Consents? && e.code == code
    && exists lane :: Chosen(s.lanes, e.hint, e.client, e.asked, lane) && g == GrantOn(e.grant, lane, s.now)
  }

  lemma ConsentsStepwise(s: State, e: Event, code: Code)
    requires Enabled(s, e) && code !in s.consents && code in Step(s, e).consents
    ensures Consented(s, e, code, Step(s, e).consents[code])
  {
    hide Consent, RedeemFinish, Refresh, Chosen, GrantOn;
    match e
    case Consents(c, hint, client, asked, grant) => ConsentIsGivenExactlyWhen(s, c, hint, client, asked, grant);
    case RedeemResumes(c, p, token, family, jti, save) => RedeemingKeepsCodes(s, c, p, token, family, jti, save);
    case Refreshes(q, token, jti, first, second) => RefreshingKeepsCodes(s, q, token, jti, first, second);
    case _ =>
  }

  /** After a save the codes are all there, or all gone in a restart. */
  lemma SavingKeepsCodes(s: State, save: Save)
    ensures SaveTokens(s, save).consents == s.consents
    ensures SaveTokens(s, save).codes == if save.CrashedBefore? || save.CrashedAfter? then map[] else s.codes
  {
  }

  lemma RedeemingKeepsCodes(s: State, code: Code, p: Redemption, token: Token, family: Family, jti: Jti, save: Save)
    requires code in s.awaiting
    ensures var (t, reply) := RedeemFinish(s, code, p, token, family, jti, save);
            t.consents == s.consents && t.codes == if reply == NoReply then map[] else s.codes
  {
    hide RedemptionOk, SaveTokens;
    var Awaiting(g, lane) := s.awaiting[code];
    SavingKeepsCodes(Mint(s.(awaiting := s.awaiting - {code}), lane, g.client, g.scope, family, token, jti, code), save);
  }

  lemma RefreshingKeepsCodes(s: State, q: RefreshRequest, token: Token, jti: Jti, first: Save, second: Save)
    ensures var (t, reply) := Refresh(s, q, token, jti, first, second);
            t.consents == s.consents && t.codes == if reply == NoReply then map[] else s.codes
  {
    hide RefreshTarget, LaneForGrant, SaveTokens;
    if RefreshTarget(s, q).Some? {
      TargetIsActive(s, q);
      var lane := LaneForGrant(s.lanes, RefreshTarget(s, q).value.resource, RefreshTarget(s, q).value.issuer).value;
      var r := Rotate(s, q.token.value, token, jti, lane);
      SavingKeepsCodes(r, first);
      if first.Saved? {
        assert SaveTokens(r, first).records == r.records by { SavedRecords(r); }
        SavingKeepsCodes(Link(SaveTokens(r, first), q.token.value, token), second);
      }
    }
  }

  lemma SavedRecords(s: State)
    ensures SaveTokens(s, Saved).records == s.records
  {
  }

  /** Every recorded consent is what some request of the run asked for. */
  lemma {:induction false} ConsentsComeFromRequests(s: State, es: seq<Event>, code: Code)
    requires Invariant(s) && IsRun(s, es) && code !in s.consents && code in After(s, es).consents
    ensures GaveConsent(s, es, code, After(s, es).consents[code])
    decreases |es|
  {
    hide Invariant, Step, DiskGrows, Consented, Spent;
    var t := Step(s, es[0]);
    StepKeeps(s, es[0]);
    if code in t.consents {
      ConsentsStepwise(s, es[0], code);
      RunKeeps(t, es[1..]);
    } else {
      ConsentsComeFromRequests(t, es[1..], code);
    }
  }

  // ---- Authorization codes -----------------------------------------------------------------------

  /** The server died in this event and started again. */
  ghost predicate Restarted(s: State, e: Event)
    requires Enabled(s, e)
  {
    e.Crashes? || ((e.RedeemResumes? || e.Refreshes?) && StepReply(s, e).1 == NoReply)
  }

  /** A code lives until it is presented, swept after its five minutes, or lost in a restart. */
  lemma CodeLeavesExactlyWhen(s: State, e: Event, code: Code)
    requires Reachable(s) && Enabled(s, e) && code in s.codes
    ensures code in Step(s, e).codes ==> Step(s, e).codes[code] == s.codes[code]
    ensures code !in Step(s, e).codes <==>
            || (e.Redeems? && e.code == code)
            || (e.Sweeps? && s.codes[code].exp < s.now)
            || Restarted(s, e)
  {
    hide Consent, RedeemFinish, Refresh, LaneForGrant, Invariant, Reachable;
    assert code in s.consents by { CodeWasConsented(s, code); }
    match e
    case Consents(c, hint, client, asked, grant) => ConsentingKeepsCodes(s, c, hint, client, asked, grant, code);
    case RedeemResumes(c, p, token, family, jti, save) => RedeemingKeepsCodes(s, c, p, token, family, jti, save);
    case Refreshes(q, token, jti, first, second) => RefreshingKeepsCodes(s, q, token, jti, first, second);
    case _ =>
  }

  lemma ConsentingKeepsCodes(s: State, c: Code, hint: Option<Lane>, client: Client, asked: Option<string>, g: Grant, code: Code)
    requires code in s.codes && code != c
    ensures var codes := Consent(s, c, hint, client, asked, g).0.codes; code in codes && codes[code] == s.codes[code]
  {
    hide LaneForClientResource;
  }

  lemma CodeWasConsented(s: State, code: Code)
    requires Reachable(s) && code in s.codes
    ensures code in s.consents
  {
    hide StoreOk, DiskOk, OriginsOk, LineageOk, RedeemedOk;
    ReachableInvariant(s);
  }

  /** A presented code is taken up exactly when it is alive and presented on its own lane; it is gone in any case. */
  lemma CodeIsTakenExactlyWhen(s: State, code: Code, hint: Option<Lane>)
    requires Reachable(s)
    ensures code in s.codes ==> code in s.consents
    ensures var (t, reply) := StepReply(s, Redeems(code, hint));
            && (reply == NoReply <==> code in s.codes && (hint.Some? ==> Binds(s.consents[code], hint.value)))
            && (reply != NoReply ==> reply == Refused && t == s.(codes := s.codes - {code}))
            && (reply == NoReply ==> code in t.awaiting && t.awaiting[code].grant == s.consents[code]
                                     && t == s.(codes := s.codes - {code}, awaiting := s.awaiting[code := t.awaiting[code]]))
  {
    hide StoreOk, DiskOk, OriginsOk, LineageOk, RedeemedOk;
    ReachableInvariant(s);
    if code in s.codes {
      GrantHasLane(s, code);
      GrantLaneBinds(s.lanes, s.codes[code]);
    } else {
      assert s.codes - {code} == s.codes;
    }
  }

  /**
   A redemption is answered with tokens exactly when the caller resolves to a client, names no other
   client than the one that was consented to, knows that client's secret if it has one, repeats the
   redirect of the consent, proves to have made its challenge, names no other resource, and the
   tokens reach the disk.
   */
  lemma RedemptionIsAnsweredExactlyWhen(s: State, code: Code, p: Redemption, token: Token, family: Family, jti: Jti, save: Save)
    requires Reachable(s) && Enabled(s, RedeemResumes(code, p, token, family, jti, save))
    ensures code in s.consents
    ensures var g := s.consents[code];
            StepReply(s, RedeemResumes(code, p, token, family, jti, save)).1.Issued? <==>
              && p.client.Some?
              && (p.clientId.None? || p.clientId.value == "" || p.clientId.value == g.client)
              && (p.client.value.secret.None? || p.client.value.secret.value == "" || p.secret == p.client.value.secret)
              && p.redirect == Some(g.redirect)
              && p.proof == Some(g.challenge)
              && (p.resource.None? || p.resource.value == "" || p.resource.value == g.resource)
              && save == Saved
  {
    hide StoreOk, DiskOk, OriginsOk, LineageOk, RedeemedOk, Mint, SaveTokens;
    ReachableInvariant(s);
  }

  /** What an answered redemption hands out and leaves behind: one hour of access and thirty days of refresh, for what was consented to. */
  lemma RedemptionIssues(s: State, code: Code, p: Redemption, token: Token, family: Family, jti: Jti, save: Save)
    requires Reachable(s) && Enabled(s, RedeemResumes(code, p, token, family, jti, save))
    requires StepReply(s, RedeemResumes(code, p, token, family, jti, save)).1.Issued?
    ensures code in s.consents
    ensures var (t, reply) := StepReply(s, RedeemResumes(code, p, token, family, jti, save));
            var g := s.consents[code];
            && reply == Issued(Access(jti, g.issuer, g.resource, g.client, g.scope, s.now + 3600), token)
            && t.access == s.access[jti := Minted(reply.access, code, token)]
            && t.records == s.records[token := Record(g.client, g.scope, g.resource, g.issuer, s.now + 2_592_000, true, family, None, None, false)]
            && t.disk == t.records && t.codes == s.codes && t.awaiting == s.awaiting - {code}
  {
    hide StoreOk, DiskOk, OriginsOk, LineageOk, RedeemedOk, RedemptionOk;
    ReachableInvariant(s);
  }

  /**
   From start-up: tokens are handed out for a code only if some earlier request was a consent that was
   given this very code, and the caller proves to be the one who asked for it; the access token is for
   the client and scope of that request, on the lane it chose.
   */
  lemma TokensFollowConsent(lanes: Lanes, es: seq<Event>, code: Code, p: Redemption, token: Token, family: Family, jti: Jti, save: Save)
    requires IsRun(Initial(lanes), es) && Enabled(After(Initial(lanes), es), RedeemResumes(code, p, token, family, jti, save))
    requires StepReply(After(Initial(lanes), es), RedeemResumes(code, p, token, family, jti, save)).1.Issued?
    ensures var s := After(Initial(lanes), es);
            var a := StepReply(s, RedeemResumes(code, p, token, family, jti, save)).1.access;
            exists g :: GaveConsent(Initial(lanes), es, code, g)
                     && p.proof == Some(g.challenge) && p.redirect == Some(g.redirect)
                     && a == Access(jti, g.issuer, g.resource, g.client, g.scope, s.now + 3600)
  {
    hide Invariant, StepReply, GaveConsent, After;
    var s := After(Initial(lanes), es);
    RedemptionIsAnsweredExactlyWhen(s, code, p, token, family, jti, save);
    RedemptionIssues(s, code, p, token, family, jti, save);
    InitiallyInvariant(lanes);
    ConsentsComeFromRequests(Initial(lanes), es, code);
  }

  // ---- Refresh tokens ----------------------------------------------------------------------------

  lemma RecordHasLane(s: State, t: Token)
    requires Invariant(s) && t in s.records
    ensures var r := s.records[t];
            var lane := LaneForGrant(s.lanes, r.resource, r.issuer);
            lane.Some? && lane.value.resource == r.resource && lane.value.issuer == r.issuer
    ensures WellFormed(s.records[t])
  {
    hide DiskOk, LineageOk, RedeemedOk, OneActive;
    var g := s.consents[s.origin[t]];
    assert RecordFrom(s.records[t], g);
    assert Binds(g, s.lanes.dc) || Binds(g, s.lanes.jc);
  }

  /**
   A refresh is answered with tokens exactly when its token is known, unused and unexpired; the client
   of its record still resolves, or is a metadata document; the caller names no other client, knows
   the client's secret if it has one, uses the record's lane and names no other resource; and both
   saves succeed.
   */
  lemma RefreshIsAnsweredExactlyWhen(s: State, q: RefreshRequest, token: Token, jti: Jti, first: Save, second: Save)
    requires Reachable(s) && Enabled(s, Refreshes(q, token, jti, first, second))
    ensures StepReply(s, Refreshes(q, token, jti, first, second)).1.Issued? <==>
              && first == Saved && second == Saved
              && q.token.Some? && q.token.value in s.records
              && var r := s.records[q.token.value];
                 && r.active && s.now <= r.exp
                 && (q.client.Some? || q.httpsId)
                 && (q.presented.client.None? || q.presented.client.value == r.client)
                 && (q.client.None? || q.client.value.secret.None? || q.client.value.secret.value == ""
                     || q.presented.secret == q.client.value.secret)
                 && (q.hint.None? || (q.hint.value.resource == r.resource && q.hint.value.issuer == r.issuer))
                 && (q.resource.None? || q.resource.value == "" || q.resource.value == r.resource)
  {
    hide Invariant, LaneForGrant, Rotate, Link, SaveTokens;
    ReachableInvariant(s);
    if q.token.Some? && q.token.value in s.records {
      RecordHasLane(s, q.token.value);
    }
  }

  /** What an answered refresh hands out and leaves behind; no other record changes. */
  lemma RefreshIssues(s: State, q: RefreshRequest, token: Token, jti: Jti, first: Save, second: Save)
    requires Reachable(s) && Enabled(s, Refreshes(q, token, jti, first, second))
    requires StepReply(s, Refreshes(q, token, jti, first, second)).1.Issued?
    ensures q.token.Some? && q.token.value in s.records
    ensures var (t, reply) := StepReply(s, Refreshes(q, token, jti, first, second));
            var r := s.records[q.token.value];
            && reply == Issued(Access(jti, r.issuer, r.resource, r.client, r.scope, s.now + 3600), token)
            && t.records == s.records[token := Record(r.client, r.scope, r.resource, r.issuer, s.now + 2_592_000, true, r.family, None, None, false)]
                                     [q.token.value := r.(active := false, rotatedAt := Some(s.now), successor := Some(token))]
            && t.disk == t.records && t.codes == s.codes && t.awaiting == s.awaiting
  {
    hide Invariant, LaneForGrant, RefreshTarget;
    RefreshIsAnsweredExactlyWhen(s, q, token, jti, first, second);
    ReachableInvariant(s);
    RecordHasLane(s, q.token.value);
    MintFresh(s, token);
    TargetIsActive(s, q);
  }

  /** Nobody presents this refresh token. */
  predicate Untouched(es: seq<Event>, t: Token) {
    forall e :: e in es ==> !(e.Refreshes? && e.request.token == Some(t))
  }

  /** The store holds the record of `t` as it was, in memory and on disk. */
  ghost predicate Holding(s: State, t: Token, r: Record) {
    t in s.disk && t in s.records && s.disk[t] == r && s.records[t] == r
  }

  lemma SavingHolds(s: State, save: Save, t: Token, r: Record)
    requires Holding(s, t, r)
    ensures Holding(SaveTokens(s, save), t, r)
  {
  }

  lemma RedeemingHolds(s: State, code: Code, p: Redemption, token: Token, family: Family, jti: Jti, save: Save, t: Token, r: Record)
    requires Holding(s, t, r) && code in s.awaiting && t != token
    ensures Holding(RedeemFinish(s, code, p, token, family, jti, save).0, t, r)
  {
    hide RedemptionOk, SaveTokens;
    var Awaiting(g, lane) := s.awaiting[code];
    SavingHolds(Mint(s.(awaiting := s.awaiting - {code}), lane, g.client, g.scope, family, token, jti, code), save, t, r);
  }

  lemma RefreshingHolds(s: State, q: RefreshRequest, token: Token, jti: Jti, first: Save, second: Save, t: Token, r: Record)
    requires Holding(s, t, r) && t != token && q.token != Some(t)
    ensures Holding(Refresh(s, q, token, jti, first, second).0, t, r)
  {
    hide RefreshTarget, LaneForGrant, SaveTokens;
    if RefreshTarget(s, q).Some? {
      TargetIsActive(s, q);
      var lane := LaneForGrant(s.lanes, RefreshTarget(s, q).value.resource, RefreshTarget(s, q).value.issuer).value;
      var m := Rotate(s, q.token.value, token, jti, lane);
      SavingHolds(m, first, t, r);
      if first.Saved? {
        assert SaveTokens(m, first).records == m.records by { SavedRecords(m); }
        SavingHolds(Link(SaveTokens(m, first), q.token.value, token), second, t, r);
      }
    }
  }

  lemma KnownIsNotFresh(s: State, t: Token)
    requires Invariant(s) && t in s.records
    ensures t in s.tokens
  {
    hide DiskOk, CodesOk, OriginsOk, LineageOk, RedeemedOk, OneActive;
  }

  lemma OthersHold(s: State, e: Event, t: Token, r: Record)
    requires Invariant(s) && Enabled(s, e) && !(e.Refreshes? && e.request.token == Some(t)) && Holding(s, t, r)
    ensures Holding(Step(s, e), t, r)
  {
    hide Invariant, RedeemFinish, Refresh, LaneForGrant, LaneForClientResource;
    KnownIsNotFresh(s, t);
    match e
    case RedeemResumes(c, p, token, family, jti, save) => RedeemingHolds(s, c, p, token, family, jti, save, t, r);
    case Refreshes(q, token, jti, first, second) => RefreshingHolds(s, q, token, jti, first, second, t, r);
    case _ =>
  }

  /** Whatever else happens, crashes and failed saves included, a record nobody presents stays as it is. */
  lemma {:induction false} UntouchedTokenStays(s: State, es: seq<Event>, t: Token, r: Record)
    requires Invariant(s) && IsRun(s, es) && Untouched(es, t) && Holding(s, t, r)
    ensures Holding(After(s, es), t, r)
    decreases |es|
  {
    hide Invariant, Step, Grows, Holding;
    if es != [] {
      assert es[0] in es;
      OthersHold(s, es[0], t, r);
      StepKeeps(s, es[0]);
      UntouchedTokenStays(Step(s, es[0]), es[1..], t, r);
    }
  }

  /**
   A refresh token that was handed out works: after any run in which nobody presents it, through
   crashes and failed saves, a well-authenticated refresh within its thirty days is answered.
   */
  lemma ReturnedRefreshWorks(s: State, e: Event, es: seq<Event>, q: RefreshRequest, token: Token, jti: Jti)
    requires Reachable(s) && Enabled(s, e) && StepReply(s, e).1.Issued? && IsRun(Step(s, e), es)
    requires var t := StepReply(s, e).1.refresh; Untouched(es, t) && q.token == Some(t)
    requires Enabled(After(Step(s, e), es), Refreshes(q, token, jti, Saved, Saved)) && After(Step(s, e), es).now <= s.now + 2_592_000
    requires q.client.Some? && q.presented == Presented(None, q.client.value.secret) && q.hint.None? && q.resource.None?
    ensures StepReply(After(Step(s, e), es), Refreshes(q, token, jti, Saved, Saved)).1.Issued?
  {
    hide Invariant, StepReply, Step, After, Grows, Untouched;
    var t := Step(s, e);
    HandedOutActive(s, e);
    ReachableInvariant(s);
    StepKeeps(s, e);
    UntouchedTokenStays(t, es, q.token.value, t.disk[q.token.value]);
    ReachableOn(s, e, es);
    RefreshIsAnsweredExactlyWhen(After(t, es), q, token, jti, Saved, Saved);
  }

  lemma HandedOutActive(s: State, e: Event)
    requires Reachable(s) && Enabled(s, e) && StepReply(s, e).1.Issued?
    ensures var t := Step(s, e);
            var handed := StepReply(s, e).1.refresh;
            handed in t.disk && t.records == t.disk && t.disk[handed].active && t.disk[handed].exp == s.now + 2_592_000
  {
    hide Invariant, Refresh, RedeemFinish, Reachable;
    match e
    case RedeemResumes(code, p, token, family, jti, save) => RedemptionIssues(s, code, p, token, family, jti, save);
    case Refreshes(q, token, jti, first, second) =>
      RefreshIssues(s, q, token, jti, first, second);
      FreshDiffers(s, q, token);
    case _ =>
  }

  lemma FreshDiffers(s: State, q: RefreshRequest, token: Token)
    requires Reachable(s) && q.token.Some? && q.token.value in s.records && token !in s.tokens
    ensures q.token.value != token
  {
    hide DiskOk, CodesOk, OriginsOk, LineageOk, RedeemedOk, OneActive;
    ReachableInvariant(s);
  }

  lemma {:induction false} AfterAppend(s: State, es: seq<Event>, more: seq<Event>)
    requires IsRun(s, es) && IsRun(After(s, es), more)
    ensures IsRun(s, es + more) && After(s, es + more) == After(After(s, es), more)
    decreases |es|
  {
    hide Step, Enabled;
    if es == [] {
      assert es + more == more;
    } else {
      assert (es + more)[0] == es[0] && (es + more)[1..] == es[1..] + more;
      AfterAppend(Step(s, es[0]), es[1..], more);
    }
  }

  lemma ReachableOn(s: State, e: Event, es: seq<Event>)
    requires Reachable(s) && Enabled(s, e) && IsRun(Step(s, e), es)
    ensures Reachable(After(Step(s, e), es))
  {
    hide Step, Enabled;
    var lanes, before :| IsRun(Initial(lanes), before) && After(Initial(lanes), before) == s;
    assert [e][1..] == [] && ([e] + es)[1..] == es && ([e] + es)[0] == e;
    AfterAppend(Initial(lanes), before, [e] + es);
  }

  // ---- Access tokens -----------------------------------------------------------------------------

  /**
   A token this server minted is accepted on the lane of its consent for the hour it lives, is expired
   there afterwards, and is never accepted on the other lane.
   */
  lemma BearerVerdict(s: State, a: Access, lane: Lane, other: Lane, now: int)
    requires Reachable(s) && Distinct(s.lanes) && Genuine(s, a)
    requires (lane == s.lanes.dc && other == s.lanes.jc) || (lane == s.lanes.jc && other == s.lanes.dc)
    requires s.access[a.jti].code in s.consents && Binds(s.consents[s.access[a.jti].code], lane)
    ensures ClassifyBearer(Signed(a), lane, now) == if now <= a.exp then Ok(a) else Expired
    ensures ClassifyBearer(Signed(a), other, now) == WrongIssuer
  {
    hide DiskOk, StoreOk, CodesOk, LineageOk, RedeemedOk;
    ReachableInvariant(s);
    assert MintedFrom(s.access[a.jti], s.consents);
  }
}
