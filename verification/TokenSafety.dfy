/**
 What every run of the token server keeps, whatever the interleaving, the failed saves and the
 crashes: one active refresh token per family, single use of codes and refresh tokens, and the
 consent every accepted token goes back to.
 */
module TokenSafety {
  import opened Basics
  import opened TokenState

  // ---- The invariant -----------------------------------------------------------------------------

  /** Two versions of one record: only the rotation fields may differ, and a spent one stays spent. */
  ghost predicate Later(r: Record, q: Record) {
    && q == r.(active := q.active, rotatedAt := q.rotatedAt, successor := q.successor)
    && (q.active ==> q == r)
    && (r.successor.Some? ==> q == r)
    && (r.rotatedAt.Some? ==> q.rotatedAt == r.rotatedAt)
  }

  /** A used record says when, and only used records do. */
  ghost predicate WellFormed(r: Record) {
    (r.active <==> r.rotatedAt.None?) && (r.active ==> r.successor.None?) && !r.revoked
  }

  ghost predicate DiskOk(disk: Store, records: Store) {
    && disk.Keys <= records.Keys
    && forall t :: t in disk ==> Later(disk[t], records[t])
  }

  ghost predicate Active(records: Store, t: Token, family: Family) {
    t in records && records[t].active && records[t].family == family
  }

  ghost predicate OneActive(records: Store) {
    forall t, u, f :: Active(records, t, f) && Active(records, u, f) ==> t == u
  }

  ghost predicate StoreOk(records: Store, families: map<Family, seq<Token>>, tokens: set<Token>) {
    && records.Keys <= tokens
    && OneActive(records)
    && forall t :: t in records ==> WellFormed(records[t]) && records[t].family in families
  }

  ghost predicate CodesOk(codes: map<Code, Grant>, awaiting: map<Code, Awaiting>, consents: map<Code, Grant>, lanes: Lanes) {
    && codes.Keys <= consents.Keys && awaiting.Keys <= consents.Keys && codes.Keys !! awaiting.Keys
    && (forall c :: c in codes ==> codes[c] == consents[c])
    && (forall c :: c in awaiting ==> awaiting[c].grant == consents[c] && Binds(consents[c], awaiting[c].lane))
    && (forall c :: c in consents ==> Binds(consents[c], lanes.dc) || Binds(consents[c], lanes.jc))
  }

  /** The consent was given for this lane. */
  ghost predicate Binds(g: Grant, lane: Lane) {
    g.resource == lane.resource && g.issuer == lane.issuer
  }

  ghost predicate RecordFrom(r: Record, g: Grant) {
    r.client == g.client && r.scope == g.scope && r.resource == g.resource && r.issuer == g.issuer
  }

  ghost predicate AccessFrom(a: Access, g: Grant) {
    a.client == g.client && a.scope == g.scope && a.resource == g.resource && a.issuer == g.issuer
  }

  ghost predicate OriginsOk(records: Store, origin: map<Token, Code>, access: map<Jti, Minted>, consents: map<Code, Grant>) {
    && (forall t :: t in records ==> t in origin && origin[t] in consents && RecordFrom(records[t], consents[origin[t]]))
    && (forall j :: j in access ==> access[j].access.jti == j && MintedFrom(access[j], consents))
  }

  ghost predicate MintedFrom(m: Minted, consents: map<Code, Grant>) {
    m.code in consents && AccessFrom(m.access, consents[m.code])
  }

  ghost predicate SameLine(records: Store, origin: map<Token, Code>, t: Token, family: Family, code: Code)
    requires t in records
  {
    t in origin && (records[t].family == family <==> origin[t] == code)
  }

  /** Tokens are of one family exactly when they go back to one code, and so does the access token minted beside each. */
  ghost predicate LineageOk(records: Store, origin: map<Token, Code>, access: map<Jti, Minted>, tokens: set<Token>) {
    && origin.Keys <= tokens
    && (forall t, u :: t in records && u in records && u in origin ==> SameLine(records, origin, t, records[u].family, origin[u]))
    && (forall j :: j in access ==> access[j].refresh in origin && origin[access[j].refresh] == access[j].code)
  }

  ghost predicate SpentCode(codes: map<Code, Grant>, awaiting: map<Code, Awaiting>, consents: map<Code, Grant>, c: Code) {
    c in consents && c !in codes && c !in awaiting
  }

  /** Tokens come only from codes that were taken for redemption. */
  ghost predicate RedeemedOk(origin: map<Token, Code>, codes: map<Code, Grant>, awaiting: map<Code, Awaiting>, consents: map<Code, Grant>) {
    forall t :: t in origin ==> SpentCode(codes, awaiting, consents, origin[t])
  }

  ghost predicate Invariant(s: State) {
    && DiskOk(s.disk, s.records)
    && StoreOk(s.records, s.families, s.tokens)
    && StoreOk(s.disk, s.families, s.tokens)
    && CodesOk(s.codes, s.awaiting, s.consents, s.lanes)
    && OriginsOk(s.records, s.origin, s.access, s.consents)
    && LineageOk(s.records, s.origin, s.access, s.tokens)
    && RedeemedOk(s.origin, s.codes, s.awaiting, s.consents)
  }

  lemma InitiallyInvariant(lanes: Lanes)
    ensures Invariant(Initial(lanes))
  {
  }

  // ---- Every event keeps it ----------------------------------------------------------------------

  /** What is on disk never loses a token, and never changes one except to spend it. */
  ghost predicate DiskGrows(disk: Store, next: Store) {
    && disk.Keys <= next.Keys
    && forall x :: x in disk ==> Later(disk[x], next[x])
  }

  /** Consents are kept, and a code that was taken for redemption never comes back. */
  ghost predicate CodesGrow(s: State, t: State) {
    && (forall c :: c in s.consents ==> c in t.consents && t.consents[c] == s.consents[c])
    && (forall c :: c in s.consents && c !in s.codes ==> c !in t.codes)
    && (forall c :: Spent(s, c) ==> Spent(t, c))
  }

  ghost predicate Spent(s: State, c: Code) {
    SpentCode(s.codes, s.awaiting, s.consents, c)
  }

  ghost predicate Grows(s: State, t: State) {
    DiskGrows(s.disk, t.disk) && CodesGrow(s, t) && t.lanes == s.lanes && s.now <= t.now
  }

  lemma DiskStays(s: State, t: State)
    requires t.disk == s.disk
    ensures DiskGrows(s.disk, t.disk)
  {
  }

  lemma CodesStay(s: State, t: State)
    requires t.codes == s.codes && t.awaiting == s.awaiting && t.consents == s.consents
    ensures CodesGrow(s, t)
  {
  }

  lemma DiskGrowsTransitive(a: Store, b: Store, c: Store)
    requires DiskGrows(a, b) && DiskGrows(b, c)
    ensures DiskGrows(a, c)
  {
    forall x | x in a ensures Later(a[x], c[x]) {
      assert Later(a[x], b[x]) && Later(b[x], c[x]);
    }
  }

  lemma GrowsTransitive(s: State, t: State, u: State)
    requires Grows(s, t) && Grows(t, u)
    ensures Grows(s, u)
  {
    hide DiskGrows;
    DiskGrowsTransitive(s.disk, t.disk, u.disk);
  }

  lemma RestartDisk(disk: Store)
    ensures DiskOk(disk, disk)
  {
  }

  lemma RestartOrigins(s: State)
    requires DiskOk(s.disk, s.records) && OriginsOk(s.records, s.origin, s.access, s.consents)
    ensures OriginsOk(s.disk, s.origin, s.access, s.consents)
  {
    hide MintedFrom;
    forall t | t in s.disk ensures t in s.origin && s.origin[t] in s.consents && RecordFrom(s.disk[t], s.consents[s.origin[t]]) {
      assert Later(s.disk[t], s.records[t]) && RecordFrom(s.records[t], s.consents[s.origin[t]]);
    }
  }

  lemma RestartLineage(s: State)
    requires DiskOk(s.disk, s.records) && LineageOk(s.records, s.origin, s.access, s.tokens)
    ensures LineageOk(s.disk, s.origin, s.access, s.tokens)
  {
    forall t, u | t in s.disk && u in s.disk && u in s.origin ensures SameLine(s.disk, s.origin, t, s.disk[u].family, s.origin[u]) {
      assert Later(s.disk[t], s.records[t]) && Later(s.disk[u], s.records[u]);
      assert SameLine(s.records, s.origin, t, s.records[u].family, s.origin[u]);
    }
  }

  lemma RestartKeeps(s: State)
    requires Invariant(s)
    ensures Invariant(Restart(s)) && Grows(s, Restart(s))
  {
    hide StoreOk, DiskGrows, Later, OriginsOk, LineageOk;
    DiskStays(s, Restart(s));
    RestartDisk(s.disk);
    RestartOrigins(s);
    RestartLineage(s);
  }

  lemma SaveKeeps(s: State, save: Save)
    requires Invariant(s)
    ensures Invariant(SaveTokens(s, save)) && Grows(s, SaveTokens(s, save))
  {
    hide StoreOk, CodesOk, OriginsOk, LineageOk, RedeemedOk, Restart, CodesGrow;
    CodesStay(s, s);
    var t := s.(disk := s.records);
    assert Invariant(t) && Grows(s, t) by {
      CodesStay(s, t);
    }
    RestartKeeps(s);
    RestartKeeps(t);
    GrowsTransitive(s, t, Restart(t));
  }

  /** Events about codes alone leave the token tables as they are. */
  lemma OnlyCodes(s: State, t: State)
    requires Invariant(s) && t == s.(codes := t.codes, awaiting := t.awaiting, consents := t.consents)
    requires CodesOk(t.codes, t.awaiting, t.consents, t.lanes) && CodesGrow(s, t)
    ensures Invariant(t) && Grows(s, t)
  {
    hide StoreOk, CodesOk, DiskOk, DiskGrows, LineageOk, OriginsOk, SpentCode;
    forall x | x in s.origin ensures SpentCode(t.codes, t.awaiting, t.consents, s.origin[x]) {
      assert Spent(s, s.origin[x]);
    }
    OnlyCodesOrigins(s, t);
    DiskStays(s, t);
  }

  lemma OnlyCodesOrigins(s: State, t: State)
    requires OriginsOk(s.records, s.origin, s.access, s.consents) && CodesGrow(s, t)
    ensures OriginsOk(s.records, s.origin, s.access, t.consents)
  {
    hide RecordFrom, AccessFrom, Spent;
  }

  lemma ConsentCodes(codes: map<Code, Grant>, awaiting: map<Code, Awaiting>, consents: map<Code, Grant>, lanes: Lanes,
                     code: Code, g: Grant)
    requires CodesOk(codes, awaiting, consents, lanes) && code !in consents
    requires Binds(g, lanes.dc) || Binds(g, lanes.jc)
    ensures CodesOk(codes[code := g], awaiting, consents[code := g], lanes)
  {
    hide Binds;
  }

  lemma ConsentKeeps(s: State, code: Code, hint: Option<Lane>, client: Client, asked: Option<string>, g: Grant)
    requires Invariant(s) && Enabled(s, Consents(code, hint, client, asked, g))
    ensures Invariant(Consent(s, code, hint, client, asked, g).0) && Grows(s, Consent(s, code, hint, client, asked, g).0)
  {
    hide StoreOk, DiskOk, DiskGrows, OriginsOk, CodesOk, LineageOk, RedeemedOk, Given;
    var t := Consent(s, code, hint, client, asked, g).0;
    if t == s {
      OnlyCodes(s, s);
    } else {
      ConsentCodes(s.codes, s.awaiting, s.consents, s.lanes, code, t.codes[code]);
      OnlyCodes(s, t);
    }
  }

  lemma SweepKeeps(s: State)
    requires Invariant(s)
    ensures Invariant(SweepCodes(s)) && Grows(s, SweepCodes(s))
  {
    hide StoreOk, DiskOk, DiskGrows, OriginsOk, LineageOk, RedeemedOk;
    OnlyCodes(s, SweepCodes(s));
  }

  lemma TakeCode(codes: map<Code, Grant>, awaiting: map<Code, Awaiting>, consents: map<Code, Grant>, lanes: Lanes,
                 code: Code, a: Awaiting)
    requires CodesOk(codes, awaiting, consents, lanes) && code in codes && a.grant == codes[code] && Binds(a.grant, a.lane)
    ensures CodesOk(codes - {code}, awaiting[code := a], consents, lanes) && CodesOk(codes - {code}, awaiting, consents, lanes)
  {
    hide Binds;
  }

  lemma GrantLaneBinds(lanes: Lanes, g: Grant)
    requires LaneForGrant(lanes, g.resource, g.issuer).Some?
    ensures Binds(g, LaneForGrant(lanes, g.resource, g.issuer).value)
  {
  }

  lemma GrantHasLane(s: State, code: Code)
    requires Invariant(s) && code in s.codes
    ensures LaneForGrant(s.lanes, s.codes[code].resource, s.codes[code].issuer).Some?
  {
    assert Binds(s.consents[code], s.lanes.dc) || Binds(s.consents[code], s.lanes.jc);
  }

  lemma RedeemStartKeeps(s: State, code: Code, hint: Option<Lane>)
    requires Invariant(s)
    ensures Invariant(RedeemStart(s, code, hint).0) && Grows(s, RedeemStart(s, code, hint).0)
  {
    hide StoreOk, DiskOk, DiskGrows, OriginsOk, CodesOk, LineageOk, RedeemedOk, WrongLane, LaneForGrant, Binds;
    if code in s.codes {
      var g := s.codes[code];
      var lane := LaneForGrant(s.lanes, g.resource, g.issuer);
      GrantHasLane(s, code);
      GrantLaneBinds(s.lanes, g);
      TakeCode(s.codes, s.awaiting, s.consents, s.lanes, code, Awaiting(g, lane.value));
    }
    OnlyCodes(s, RedeemStart(s, code, hint).0);
  }

  // Minting in a family without an active token keeps the tables in order.

  lemma MintStore(records: Store, families: map<Family, seq<Token>>, tokens: set<Token>, token: Token, r: Record)
    requires StoreOk(records, families, tokens) && token !in tokens && r.family in families && WellFormed(r)
    requires forall t :: t in records ==> !Active(records, t, r.family)
    ensures StoreOk(records[token := r], families, tokens + {token})
  {
    hide WellFormed;
    var next := records[token := r];
    assert forall t, f :: t != token && Active(next, t, f) ==> Active(records, t, f);
  }

  lemma MintOrigins(s: State, token: Token, r: Record, m: Minted)
    requires OriginsOk(s.records, s.origin, s.access, s.consents) && m.code in s.consents
    requires RecordFrom(r, s.consents[m.code]) && AccessFrom(m.access, s.consents[m.code])
    ensures OriginsOk(s.records[token := r], s.origin[token := m.code], s.access[m.access.jti := m], s.consents)
  {
    hide RecordFrom, AccessFrom;
  }

  lemma MintLineage(s: State, token: Token, r: Record, m: Minted)
    requires LineageOk(s.records, s.origin, s.access, s.tokens) && token !in s.tokens && m.refresh == token
    requires s.records.Keys <= s.origin.Keys
    requires forall t :: t in s.records ==> SameLine(s.records, s.origin, t, r.family, m.code)
    ensures LineageOk(s.records[token := r], s.origin[token := m.code], s.access[m.access.jti := m], s.tokens + {token})
  {
    var records, origin := s.records[token := r], s.origin[token := m.code];
    forall t, u | t in records && u in records && u in origin ensures SameLine(records, origin, t, records[u].family, origin[u]) {
      if t != token { assert SameLine(s.records, s.origin, t, r.family, m.code); }
      if u != token { assert SameLine(s.records, s.origin, u, r.family, m.code); }
      if t != token && u != token { assert SameLine(s.records, s.origin, t, s.records[u].family, s.origin[u]); }
    }
  }

  lemma MintRedeemed(s: State, token: Token, code: Code)
    requires RedeemedOk(s.origin, s.codes, s.awaiting, s.consents) && Spent(s, code)
    ensures RedeemedOk(s.origin[token := code], s.codes, s.awaiting, s.consents)
  {
    hide SpentCode;
  }

  lemma OriginsCover(s: State)
    requires Invariant(s)
    ensures s.records.Keys <= s.origin.Keys
  {
    hide DiskOk, StoreOk, CodesOk, LineageOk, RedeemedOk;
  }

  lemma MintDisk(disk: Store, records: Store, token: Token, r: Record)
    requires DiskOk(disk, records) && token !in disk
    ensures DiskOk(disk, records[token := r])
  {
    hide Later;
  }

  lemma StoreOkMoreTokens(records: Store, families: map<Family, seq<Token>>, tokens: set<Token>, token: Token)
    requires StoreOk(records, families, tokens)
    ensures StoreOk(records, families, tokens + {token})
  {
  }

  lemma MintKeeps(s: State, lane: Lane, client: string, scope: string, family: Family, token: Token, jti: Jti, code: Code)
    requires Invariant(s) && token !in s.tokens && Spent(s, code)
    requires family in s.families
    requires forall t :: t in s.records ==> !Active(s.records, t, family)
    requires forall t :: t in s.records ==> SameLine(s.records, s.origin, t, family, code)
    requires AccessFrom(NewAccess(jti, s.now, lane, client, scope), s.consents[code])
    ensures Invariant(Mint(s, lane, client, scope, family, token, jti, code))
    ensures Grows(s, Mint(s, lane, client, scope, family, token, jti, code))
  {
    hide StoreOk, CodesOk, DiskGrows, CodesGrow, DiskOk, OriginsOk, LineageOk, RedeemedOk, SameLine, Active;
    var t := Mint(s, lane, client, scope, family, token, jti, code);
    var m := Minted(NewAccess(jti, s.now, lane, client, scope), code, token);
    DiskStays(s, t);
    CodesStay(s, t);
    MintStore(s.records, s.families, s.tokens, token, NewRecord(s.now, lane, client, scope, family));
    StoreOkMoreTokens(s.disk, s.families, s.tokens, token);
    MintFresh(s, token);
    MintDisk(s.disk, s.records, token, t.records[token]);
    MintOrigins(s, token, t.records[token], m);
    OriginsCover(s);
    MintLineage(s, token, t.records[token], m);
    MintRedeemed(s, token, code);
  }

  lemma MintFresh(s: State, token: Token)
    requires Invariant(s) && token !in s.tokens
    ensures token !in s.disk && token !in s.records
  {
  }

  /** The request stops waiting; the new family is known. */
  function Woken(s: State, code: Code, families: map<Family, seq<Token>>): State {
    s.(awaiting := s.awaiting - {code}, families := families)
  }

  lemma WokenCodes(s: State, code: Code)
    requires CodesOk(s.codes, s.awaiting, s.consents, s.lanes) && RedeemedOk(s.origin, s.codes, s.awaiting, s.consents)
    ensures CodesOk(s.codes, s.awaiting - {code}, s.consents, s.lanes)
    ensures RedeemedOk(s.origin, s.codes, s.awaiting - {code}, s.consents)
  {
    hide Binds;
  }

  lemma WokenStore(records: Store, families: map<Family, seq<Token>>, more: map<Family, seq<Token>>, tokens: set<Token>)
    requires StoreOk(records, families, tokens) && families.Keys <= more.Keys
    ensures StoreOk(records, more, tokens)
  {
    hide WellFormed, OneActive;
  }

  lemma WokenKeeps(s: State, code: Code, families: map<Family, seq<Token>>)
    requires Invariant(s) && code in s.awaiting && s.families.Keys <= families.Keys
    ensures Invariant(Woken(s, code, families)) && Grows(s, Woken(s, code, families))
  {
    hide DiskOk, OriginsOk, DiskGrows, LineageOk, CodesOk, RedeemedOk, StoreOk;
    DiskStays(s, Woken(s, code, families));
    WokenCodes(s, code);
    WokenStore(s.records, s.families, families, s.tokens);
    WokenStore(s.disk, s.families, families, s.tokens);
  }

  lemma ForgetFamily(s: State, families: map<Family, seq<Token>>)
    requires Invariant(s) && s.records == s.disk
    requires forall t :: t in s.disk ==> s.disk[t].family in families
    ensures Invariant(s.(families := families))
    ensures forall r :: Grows(r, s) ==> Grows(r, s.(families := families))
  {
    hide OriginsOk, CodesOk, DiskGrows, LineageOk, RedeemedOk;
  }

  lemma NewFamilyIsEmpty(s: State, family: Family)
    requires Invariant(s) && family !in s.families
    ensures forall t :: t in s.records ==> !Active(s.records, t, family)
    ensures forall t :: t in s.disk ==> s.disk[t].family in s.families
  {
  }

  lemma AwaitedGrant(s: State, code: Code)
    requires Invariant(s) && code in s.awaiting
    ensures code in s.consents && s.awaiting[code].grant == s.consents[code]
    ensures Binds(s.consents[code], s.awaiting[code].lane)
  {
  }

  /** A code still waiting has produced no token, and a new family holds none. */
  lemma NewLine(s: State, code: Code, family: Family)
    requires Invariant(s) && code in s.awaiting && family !in s.families
    ensures forall t :: t in s.records ==> SameLine(s.records, s.origin, t, family, code)
    ensures code !in s.codes && code in s.consents
  {
    hide DiskOk, LineageOk;
  }

  lemma RedeemFinishKeeps(s: State, code: Code, p: Redemption, token: Token, family: Family, jti: Jti, save: Save)
    requires Invariant(s) && Enabled(s, RedeemResumes(code, p, token, family, jti, save))
    ensures Invariant(RedeemFinish(s, code, p, token, family, jti, save).0)
    ensures Grows(s, RedeemFinish(s, code, p, token, family, jti, save).0)
  {
    hide Invariant, DiskGrows, CodesGrow, SameLine;
    var Awaiting(g, lane) := s.awaiting[code];
    var t := Woken(s, code, s.families[family := [token]]);
    WokenKeeps(s, code, s.families);
    WokenKeeps(s, code, s.families[family := [token]]);
    AwaitedGrant(s, code);
    NewFamilyIsEmpty(s, family);
    NewLine(s, code, family);
    if RedemptionOk(g, lane, p) {
      var m := Mint(t, lane, g.client, g.scope, family, token, jti, code);
      MintKeeps(t, lane, g.client, g.scope, family, token, jti, code);
      SaveKeeps(m, save);
      GrowsTransitive(s, t, m);
      GrowsTransitive(s, m, SaveTokens(m, save));
      if save.CrashedBefore? {
        ForgetFamily(SaveTokens(m, save), s.families);
      }
    }
  }

  // A record may move forward in memory.

  lemma LaterTransitive(a: Record, b: Record, c: Record)
    requires Later(a, b) && Later(b, c)
    ensures Later(a, c)
  {
  }

  lemma ReplaceDisk(disk: Store, records: Store, t: Token, q: Record)
    requires DiskOk(disk, records) && t in records && Later(records[t], q)
    ensures DiskOk(disk, records[t := q])
  {
    hide Later;
    if t in disk {
      LaterTransitive(disk[t], records[t], q);
    }
  }

  lemma ReplaceStore(records: Store, families: map<Family, seq<Token>>, tokens: set<Token>, t: Token, q: Record)
    requires StoreOk(records, families, tokens) && t in records && Later(records[t], q) && WellFormed(q)
    ensures StoreOk(records[t := q], families, tokens)
  {
    hide WellFormed;
    var next := records[t := q];
    assert forall u, f :: Active(next, u, f) ==> Active(records, u, f);
    assert OneActive(next);
    forall u | u in next ensures WellFormed(next[u]) && next[u].family in families {
      assert next[u].family == records[u].family;
    }
  }

  lemma ReplaceOrigins(s: State, t: Token, q: Record)
    requires OriginsOk(s.records, s.origin, s.access, s.consents) && t in s.records && Later(s.records[t], q)
    ensures OriginsOk(s.records[t := q], s.origin, s.access, s.consents)
  {
    hide AccessFrom;
  }

  lemma ReplaceLineage(s: State, t: Token, q: Record)
    requires LineageOk(s.records, s.origin, s.access, s.tokens) && t in s.records && q.family == s.records[t].family
    ensures LineageOk(s.records[t := q], s.origin, s.access, s.tokens)
  {
    var next := s.records[t := q];
    forall u, v | u in next && v in next && v in s.origin ensures SameLine(next, s.origin, u, next[v].family, s.origin[v]) {
      assert SameLine(s.records, s.origin, u, s.records[v].family, s.origin[v]);
    }
  }

  lemma ReplaceKeeps(s: State, t: Token, q: Record)
    requires Invariant(s) && t in s.records && Later(s.records[t], q) && WellFormed(q)
    ensures Invariant(s.(records := s.records[t := q])) && Grows(s, s.(records := s.records[t := q]))
  {
    hide StoreOk, CodesOk, DiskGrows, CodesGrow, DiskOk, OriginsOk, LineageOk, RedeemedOk, WellFormed;
    var u := s.(records := s.records[t := q]);
    DiskStays(s, u);
    CodesStay(s, u);
    ReplaceDisk(s.disk, s.records, t, q);
    ReplaceStore(s.records, s.families, s.tokens, t, q);
    ReplaceOrigins(s, t, q);
    ReplaceLineage(s, t, q);
  }

  /** Marking a record used, in memory, is the first thing a refresh does. */
  lemma SpendKeeps(s: State, spent: Token)
    requires Invariant(s) && spent in s.records && s.records[spent].active
    ensures Invariant(Marked(s, spent)) && Grows(s, Marked(s, spent))
    ensures forall t :: t in s.records ==> !Active(Marked(s, spent).records, t, s.records[spent].family)
  {
    hide Invariant, Grows;
    ReplaceKeeps(s, spent, Marked(s, spent).records[spent]) by { OriginOfRecord(s, spent); }
    forall t | t in s.records ensures !Active(Marked(s, spent).records, t, s.records[spent].family) {
      if s.records[t].active {
        OnlyActive(s, spent, t);
      }
    }
  }

  lemma OnlyActive(s: State, t: Token, u: Token)
    requires Invariant(s) && t in s.records && u in s.records && s.records[t].active && s.records[u].active
    ensures s.records[t].family == s.records[u].family ==> t == u
  {
    assert Active(s.records, t, s.records[t].family) && Active(s.records, u, s.records[u].family);
  }

  function Marked(s: State, spent: Token): State
    requires spent in s.records
  {
    s.(records := s.records[spent := s.records[spent].(active := false, rotatedAt := Some(s.now))])
  }

  lemma OriginOfRecord(s: State, t: Token)
    requires Invariant(s) && t in s.records
    ensures t in s.origin && s.origin[t] in s.consents && RecordFrom(s.records[t], s.consents[s.origin[t]])
    ensures s.records[t].family in s.families && WellFormed(s.records[t]) && Spent(s, s.origin[t])
    ensures forall u :: u in s.records ==> SameLine(s.records, s.origin, u, s.records[t].family, s.origin[t])
  {
    hide DiskOk, CodesOk;
  }

  lemma RotateKeeps(s: State, spent: Token, token: Token, jti: Jti, lane: Lane)
    requires Invariant(s) && token !in s.tokens && spent in s.records && s.records[spent].active
    requires s.records[spent].resource == lane.resource && s.records[spent].issuer == lane.issuer
    ensures Invariant(Rotate(s, spent, token, jti, lane)) && Grows(s, Rotate(s, spent, token, jti, lane))
    ensures var r := Rotate(s, spent, token, jti, lane).records;
            spent in r && !r[spent].active && r[spent].successor.None? && r[spent].rotatedAt == Some(s.now)
  {
    hide Invariant, DiskGrows, CodesGrow, SameLine;
    var r := s.records[spent];
    SpendKeeps(s, spent);
    OriginOfRecord(s, spent);
    OriginOfRecord(Marked(s, spent), spent);
    MintFresh(s, token);
    MintKeeps(Marked(s, spent), lane, r.client, r.scope, r.family, token, jti, s.origin[spent]);
    GrowsTransitive(s, Marked(s, spent), Rotate(s, spent, token, jti, lane));
  }

  lemma LinkKeeps(s: State, spent: Token, token: Token)
    requires Invariant(s) && spent in s.records && !s.records[spent].active && s.records[spent].successor.None?
    ensures Invariant(Link(s, spent, token)) && Grows(s, Link(s, spent, token))
  {
    hide Invariant, Grows;
    var q := s.records[spent].(successor := Some(token));
    var u := s.(records := s.records[spent := q]);
    ReplaceKeeps(s, spent, q) by { OriginOfRecord(s, spent); }
    MoreFamilies(s, u, Link(s, spent, token));
  }

  lemma MoreFamilies(s: State, t: State, u: State)
    requires Invariant(t) && Grows(s, t) && u == t.(families := u.families) && t.families.Keys <= u.families.Keys
    ensures Invariant(u) && Grows(s, u)
  {
    hide DiskOk, OriginsOk, CodesOk, DiskGrows, WellFormed, OneActive, LineageOk, RedeemedOk;
  }

  /** What an accepted refresh found. */
  lemma TargetIsActive(s: State, q: RefreshRequest)
    requires RefreshTarget(s, q).Some?
    ensures q.token.Some? && q.token.value in s.records && RefreshTarget(s, q).value == s.records[q.token.value]
    ensures s.records[q.token.value].active
    ensures LaneForGrant(s.lanes, s.records[q.token.value].resource, s.records[q.token.value].issuer).Some?
  {
  }

  /** An accepted refresh, up to and including its first save. */
  lemma RefreshFirstKeeps(s: State, q: RefreshRequest, token: Token, jti: Jti, lane: Lane, first: Save)
    requires Invariant(s) && token !in s.tokens && RefreshTarget(s, q).Some?
    requires LaneForGrant(s.lanes, RefreshTarget(s, q).value.resource, RefreshTarget(s, q).value.issuer) == Some(lane)
    ensures q.token.Some? && q.token.value in s.records
    ensures var n := SaveTokens(Rotate(s, q.token.value, token, jti, lane), first);
            && Invariant(n) && Grows(s, n)
            && (first.Saved? ==>
                q.token.value in n.records && n.disk == n.records && n.now == s.now
                && !n.records[q.token.value].active && n.records[q.token.value].successor.None?
                && n.records[q.token.value].rotatedAt == Some(s.now))
  {
    hide Invariant, DiskGrows, CodesGrow, Rotate;
    TargetIsActive(s, q);
    var m := Rotate(s, q.token.value, token, jti, lane);
    RotateKeeps(s, q.token.value, token, jti, lane);
    SaveKeeps(m, first);
    GrowsTransitive(s, m, SaveTokens(m, first));
    assert m.now == s.now by { RotateClock(s, q.token.value, token, jti, lane); }
  }

  lemma RotateClock(s: State, spent: Token, token: Token, jti: Jti, lane: Lane)
    requires spent in s.records
    ensures Rotate(s, spent, token, jti, lane).now == s.now
  {
  }

  lemma RefreshKeeps(s: State, q: RefreshRequest, token: Token, jti: Jti, first: Save, second: Save)
    requires Invariant(s) && token !in s.tokens
    ensures Invariant(Refresh(s, q, token, jti, first, second).0) && Grows(s, Refresh(s, q, token, jti, first, second).0)
  {
    hide Invariant, DiskGrows, CodesGrow, Rotate, Link, RefreshTarget, SaveTokens;
    if RefreshTarget(s, q).None? {
      DiskStays(s, s);
      CodesStay(s, s);
    } else {
      TargetIsActive(s, q);
      var spent, r := q.token.value, RefreshTarget(s, q).value;
      var lane := LaneForGrant(s.lanes, r.resource, r.issuer).value;
      RefreshFirstKeeps(s, q, token, jti, lane, first);
      if first.Saved? {
        var n := SaveTokens(Rotate(s, spent, token, jti, lane), first);
        LinkKeeps(n, spent, token);
        SaveKeeps(Link(n, spent, token), second);
        GrowsTransitive(s, n, Link(n, spent, token));
        GrowsTransitive(s, Link(n, spent, token), SaveTokens(Link(n, spent, token), second));
      }
    }
  }

  lemma TickKeeps(s: State, now: int)
    requires Invariant(s) && now >= s.now
    ensures Invariant(s.(now := now)) && Grows(s, s.(now := now))
  {
    hide StoreOk, DiskOk, OriginsOk, CodesOk, DiskGrows, LineageOk, RedeemedOk;
    DiskStays(s, s.(now := now));
  }

  lemma StepKeeps(s: State, e: Event)
    requires Invariant(s) && Enabled(s, e)
    ensures Invariant(Step(s, e)) && Grows(s, Step(s, e))
  {
    hide Invariant, DiskGrows, CodesGrow, Consent, RedeemStart, RedeemFinish, Refresh, SweepCodes, Restart;
    match e
    case Tick(_) => TickKeeps(s, e.now);
    case Sweeps => SweepKeeps(s);
    case Consents(code, hint, client, asked, grant) => ConsentKeeps(s, code, hint, client, asked, grant);
    case Redeems(code, hint) => RedeemStartKeeps(s, code, hint);
    case RedeemResumes(code, p, token, family, jti, save) => RedeemFinishKeeps(s, code, p, token, family, jti, save);
    case Refreshes(q, token, jti, first, second) => RefreshKeeps(s, q, token, jti, first, second);
    case Crashes => RestartKeeps(s);
  }

  lemma {:induction false} RunKeeps(s: State, es: seq<Event>)
    requires Invariant(s) && IsRun(s, es)
    ensures Invariant(After(s, es)) && Grows(s, After(s, es))
    decreases |es|
  {
    hide Invariant, DiskGrows, CodesGrow, Step;
    if es == [] {
      DiskStays(s, s);
      CodesStay(s, s);
    } else {
      StepKeeps(s, es[0]);
      RunKeeps(Step(s, es[0]), es[1..]);
      GrowsTransitive(s, Step(s, es[0]), After(s, es));
    }
  }
}
