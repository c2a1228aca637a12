/**
 The OAuth token store of the gateway: authorization codes, strictly rotated refresh tokens, two
 lanes, and the tokens file on disk.

 One event is one segment of a handler between two awaits.  A save either takes effect, throws, or
 is cut by a crash before or after its rename (`AtomicJson` shows there is nothing in between).

 Line numbers refer to apps/dc-mcp-gateway/server.js.
 */
module TokenState {

  import opened Basics

  // Random ids; only equality matters.
  type Code = nat
  type Token = nat
  type Family = nat
  type Jti = nat

  const ACCESS_TTL_S := 3600
  const REFRESH_TTL_S := 30 * 24 * 3600
  const CODE_TTL_S := 300
  const DUPLICATE_REFRESH_WINDOW_S := 10

  datatype Lane = Lane(name: string, issuer: string, resource: string)
  datatype Lanes = Lanes(dc: Lane, jc: Lane)

  /** Start-up refuses equal resources or issuers. */
  ghost predicate Distinct(lanes: Lanes) {
    lanes.dc.resource != lanes.jc.resource && lanes.dc.issuer != lanes.jc.issuer
  }

  datatype Grant = Grant(client: string, redirect: string, scope: string, resource: string, issuer: string,
                         challenge: string, exp: int)

  datatype Record = Record(client: string, scope: string, resource: string, issuer: string, exp: int, active: bool,
                           family: Family, rotatedAt: Option<int>, successor: Option<Token>, revoked: bool)
  type Store = map<Token, Record>

  /** An access token, named by its random `jti`. */
  datatype Access = Access(jti: Jti, issuer: string, resource: string, client: string, scope: string, exp: int)

  /** What was signed, for which code, together with which refresh token. */
  datatype Minted = Minted(access: Access, code: Code, refresh: Token)

  /** What `resolveClient` found: nothing, or a client with perhaps a secret and a registered lane. */
  datatype Client = Client(secret: Option<string>, jc: bool)

  datatype Awaiting = Awaiting(grant: Grant, lane: Lane)

  datatype State = State(
    lanes: Lanes,
    now: int,
    codes: map<Code, Grant>,
    awaiting: map<Code, Awaiting>,
    records: Store,
    disk: Store,
    // History.
    consents: map<Code, Grant>,
    tokens: set<Token>,
    origin: map<Token, Code>,
    families: map<Family, seq<Token>>,
    access: map<Jti, Minted>
  )

  function Initial(lanes: Lanes): State {
    State(lanes, 0, map[], map[], map[], map[], map[], {}, map[], map[], map[])
  }

  // ---- Pure decisions ----------------------------------------------------------------------------

  /** A parameter that is present and not the empty string. */
  predicate Given(x: Option<string>) {
    x.Some? && x.value != ""
  }

  function LaneForGrant(lanes: Lanes, resource: string, issuer: string): Option<Lane> {
    if resource == lanes.dc.resource && issuer == lanes.dc.issuer then Some(lanes.dc)
    else if resource == lanes.jc.resource && issuer == lanes.jc.issuer then Some(lanes.jc)
    else None
  }

  function LaneForClientResource(lanes: Lanes, client: Client, resource: Option<string>): Option<Lane> {
    if resource == Some(lanes.jc.resource) then Some(lanes.jc)
    else if resource == Some(lanes.dc.resource) then Some(lanes.dc)
    else if Given(resource) then None
    else Some(if client.jc then lanes.jc else lanes.dc)
  }

  function EqualSecrets(a: Option<string>, b: Option<string>): bool {
    Given(a) && Given(b) && a == b
  }

  datatype Verdict =
    | Accepted(record: Record)
    | RefreshUnknown | ClientMismatch | InvalidClient | Revoked | RefreshExpired | RefreshSuperseded | RefreshReused

  datatype Presented = Presented(client: Option<string>, secret: Option<string>)

  /** `resolveRefresh`. */
  function ResolveRefresh(records: Store, token: Option<Token>, now: int, clientSecret: Option<string>, p: Presented): Verdict {
    if token.None? || token.value !in records then RefreshUnknown
    else
      var r := records[token.value];
      if p.client.Some? && p.client.value != r.client then ClientMismatch
      else if Given(clientSecret) && !EqualSecrets(clientSecret, p.secret) then InvalidClient
      else if r.revoked then Revoked
      else if r.exp < now then RefreshExpired
      else if r.active then Accepted(r)
      else if r.successor.Some? && r.successor.value in records && !records[r.successor.value].active then RefreshSuperseded
      else if r.rotatedAt.Some? && now - r.rotatedAt.value <= DUPLICATE_REFRESH_WINDOW_S then RefreshSuperseded
      else RefreshReused
  }

  /** An Authorization header; only tokens this server signed verify. */
  datatype Header = NoBearer | Garbled | BadlySigned | Signed(token: Access)
  datatype Bearer = Missing | MalformedToken | BadSignature | WrongIssuer | WrongAudience | Expired | Ok(token: Access)

  function ClassifyBearer(header: Header, lane: Lane, now: int): Bearer {
    match header
    case NoBearer => Missing
    case Garbled => MalformedToken
    case BadlySigned => BadSignature
    case Signed(a) =>
      if a.issuer != lane.issuer then WrongIssuer
      else if a.resource != lane.resource then WrongAudience
      else if a.exp < now then Expired
      else Ok(a)
  }

  // ---- Saving ------------------------------------------------------------------------------------

  datatype Save = Saved | Threw | CrashedBefore | CrashedAfter

  /** The process restarts with what is on disk; codes and suspended requests are gone. */
  function Restart(s: State): State {
    s.(records := s.disk, codes := map[], awaiting := map[])
  }

  /** `saveJson(tokensFile, refreshTokens)`, then whatever the outcome leaves behind. */
  function SaveTokens(s: State, save: Save): State {
    match save
    case Saved => s.(disk := s.records)
    case Threw => s
    case CrashedBefore => Restart(s)
    case CrashedAfter => Restart(s.(disk := s.records))
  }

  // ---- Handlers ----------------------------------------------------------------------------------

  datatype Reply = Issued(access: Access, refresh: Token) | Redirected(code: Code) | Refused | ServerError | NoReply

  function SaveReply(save: Save, issued: Reply): Reply {
    match save
    case Saved => issued
    case Threw => ServerError
    case _ => NoReply
  }

  /** `handleConsent` once the passphrase was right and the client resolved to one with this redirect. */
  function Consent(s: State, code: Code, hint: Option<Lane>, client: Client, asked: Option<string>, g: Grant): (State, Reply) {
    var lane := if hint.Some? then hint else LaneForClientResource(s.lanes, client, asked);
    if lane.None? || (Given(asked) && asked.value != lane.value.resource) then (s, Refused)
    else
      var grant := g.(resource := lane.value.resource, issuer := lane.value.issuer, exp := s.now + CODE_TTL_S);
      (s.(codes := s.codes[code := grant], consents := s.consents[code := grant]), Redirected(code))
  }

  function Unexpired(codes: map<Code, Grant>, now: int): map<Code, Grant> {
    map c | c in codes && codes[c].exp >= now :: codes[c]
  }

  function SweepCodes(s: State): State {
    s.(codes := Unexpired(s.codes, s.now))
  }

  predicate WrongLane(lane: Option<Lane>, hint: Option<Lane>) {
    lane.None? || (hint.Some? && (lane.value.resource != hint.value.resource || lane.value.issuer != hint.value.issuer))
  }

  /** `handleToken`, authorization_code, up to the await of `resolveClient`: the code is spent here. */
  function RedeemStart(s: State, code: Code, hint: Option<Lane>): (State, Reply) {
    if code !in s.codes then (s, Refused)
    else
      var g := s.codes[code];
      var lane := LaneForGrant(s.lanes, g.resource, g.issuer);
      var t := s.(codes := s.codes - {code});
      if WrongLane(lane, hint) then (t, Refused)
      else (t.(awaiting := t.awaiting[code := Awaiting(g, lane.value)]), NoReply)
  }

  /** The fields of a token request checked after the await. */
  datatype Redemption = Redemption(client: Option<Client>, clientId: Option<string>, secret: Option<string>,
                                   redirect: Option<string>, proof: Option<string>, resource: Option<string>)

  predicate RedemptionOk(g: Grant, lane: Lane, p: Redemption) {
    && p.client.Some? && (Given(p.clientId) ==> p.clientId.value == g.client)
    && (Given(p.client.value.secret) ==> EqualSecrets(p.client.value.secret, p.secret))
    && p.redirect == Some(g.redirect)
    && p.proof == Some(g.challenge)
    && (Given(p.resource) ==> p.resource.value == lane.resource)
  }

  function NewAccess(jti: Jti, now: int, lane: Lane, client: string, scope: string): Access {
    Access(jti, lane.issuer, lane.resource, client, scope, now + ACCESS_TTL_S)
  }

  function NewRecord(now: int, lane: Lane, client: string, scope: string, family: Family): Record {
    Record(client, scope, lane.resource, lane.issuer, now + REFRESH_TTL_S, true, family, None, None, false)
  }

  /** The tables part of `issueTokens`, before its save. */
  function Mint(s: State, lane: Lane, client: string, scope: string, family: Family, token: Token, jti: Jti, code: Code): State {
    s.(records := s.records[token := NewRecord(s.now, lane, client, scope, family)],
       access := s.access[jti := Minted(NewAccess(jti, s.now, lane, client, scope), code, token)],
       tokens := s.tokens + {token},
       origin := s.origin[token := code])
  }

  /** The rest of the authorization_code grant. */
  function RedeemFinish(s: State, code: Code, p: Redemption, token: Token, family: Family, jti: Jti, save: Save): (State, Reply)
    requires code in s.awaiting
  {
    var Awaiting(g, lane) := s.awaiting[code];
    var t := s.(awaiting := s.awaiting - {code});
    if !RedemptionOk(g, lane, p) then (t, Refused)
    else
      var m := SaveTokens(Mint(t, lane, g.client, g.scope, family, token, jti, code), save);
      if save.CrashedBefore? then (m, NoReply)
      else
        (m.(families := s.families[family := [token]]),
         SaveReply(save, Issued(NewAccess(jti, s.now, lane, g.client, g.scope), token)))
  }

  datatype RefreshRequest = RefreshRequest(token: Option<Token>, client: Option<Client>, httpsId: bool,
                                           presented: Presented, resource: Option<string>, hint: Option<Lane>)

  /** Which record a refresh rotates, or why none (lines 517-542). */
  function RefreshTarget(s: State, q: RefreshRequest): Option<Record> {
    var known := q.token.Some? && q.token.value in s.records;
    if known && q.client.None? && !q.httpsId then None
    else
      var secret := if q.client.Some? then q.client.value.secret else None;
      match ResolveRefresh(s.records, q.token, s.now, secret, q.presented)
      case Accepted(r) =>
        var lane := LaneForGrant(s.lanes, r.resource, r.issuer);
        if WrongLane(lane, q.hint) || (Given(q.resource) && q.resource.value != lane.value.resource) then None else Some(r)
      case _ => None
  }

  /** The code a refresh token goes back to; every token in the store has one. */
  function OriginOf(s: State, token: Token): Code {
    if token in s.origin then s.origin[token] else 0
  }

  /** Lines 543-545 and 452-460: the predecessor is spent and the successor minted, in memory. */
  function Rotate(s: State, spent: Token, token: Token, jti: Jti, lane: Lane): State
    requires spent in s.records
  {
    var r := s.records[spent].(active := false, rotatedAt := Some(s.now));
    Mint(s.(records := s.records[spent := r]), lane, r.client, r.scope, r.family, token, jti, OriginOf(s, spent))
  }

  /** Line 546. */
  function Link(s: State, spent: Token, token: Token): State
    requires spent in s.records
  {
    var f := s.records[spent].family;
    s.(records := s.records[spent := s.records[spent].(successor := Some(token))],
       families := if f in s.families then s.families[f := s.families[f] + [token]] else s.families)
  }

  /** `handleToken`, refresh_token, after the await: one atomic segment with two saves. */
  function Refresh(s: State, q: RefreshRequest, token: Token, jti: Jti, first: Save, second: Save): (State, Reply)
  {
    if RefreshTarget(s, q).None? then (s, Refused)
    else
      var spent, r := q.token.value, RefreshTarget(s, q).value;
      var lane := LaneForGrant(s.lanes, r.resource, r.issuer).value;
      var m := SaveTokens(Rotate(s, spent, token, jti, lane), first);
      if !first.Saved? then (m, SaveReply(first, Refused))
      else
        (SaveTokens(Link(m, spent, token), second),
         SaveReply(second, Issued(NewAccess(jti, s.now, lane, r.client, r.scope), token)))
  }

  // ---- The transition system ---------------------------------------------------------------------

  datatype Event =
    | Tick(now: int)
    | Consents(code: Code, hint: Option<Lane>, client: Client, asked: Option<string>, grant: Grant)
    | Sweeps
    | Redeems(code: Code, hint: Option<Lane>)
    | RedeemResumes(code: Code, redemption: Redemption, token: Token, family: Family, jti: Jti, save: Save)
    | Refreshes(request: RefreshRequest, token: Token, jti: Jti, first: Save, second: Save)
    | Crashes

  /** Random ids are fresh, the clock does not run backwards, a lane hint is one of the two lanes. */
  predicate Enabled(s: State, e: Event) {
    match e
    case Tick(now) => now >= s.now
    case Consents(code, hint, _, _, _) =>
      code !in s.consents && (hint.Some? ==> hint.value == s.lanes.dc || hint.value == s.lanes.jc)
    case RedeemResumes(code, _, token, family, jti, _) =>
      code in s.awaiting && token !in s.tokens && family !in s.families && jti !in s.access
    case Refreshes(_, token, jti, _, _) => token !in s.tokens && jti !in s.access
    case _ => true
  }

  function StepReply(s: State, e: Event): (State, Reply)
    requires Enabled(s, e)
  {
    match e
    case Tick(now) => (s.(now := now), NoReply)
    case Consents(code, hint, client, asked, grant) => Consent(s, code, hint, client, asked, grant)
    case Sweeps => (SweepCodes(s), NoReply)
    case Redeems(code, hint) => RedeemStart(s, code, hint)
    case RedeemResumes(code, p, token, family, jti, save) => RedeemFinish(s, code, p, token, family, jti, save)
    case Refreshes(q, token, jti, first, second) => Refresh(s, q, token, jti, first, second)
    case Crashes => (Restart(s), NoReply)
  }

  function Step(s: State, e: Event): State
    requires Enabled(s, e)
  {
    StepReply(s, e).0
  }

  predicate IsRun(s: State, es: seq<Event>)
    decreases |es|
  {
    es == [] || (Enabled(s, es[0]) && IsRun(Step(s, es[0]), es[1..]))
  }

  function After(s: State, es: seq<Event>): State
    requires IsRun(s, es)
    decreases |es|
  {
    if es == [] then s else After(Step(s, es[0]), es[1..])
  }
}
