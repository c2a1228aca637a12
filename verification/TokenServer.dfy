/**
 The token endpoints as the handlers they are: they update the code table and the refresh-token
 table in place and rewrite the tokens file, branch by branch.  Each may be called whenever its event
 is enabled, takes exactly the step of `TokenState` it stands for, and keeps the store invariant;
 `Drive` runs any sequence of requests, failed saves and crashes on the object.

 Line numbers refer to apps/dc-mcp-gateway/server.js.
 */
module TokenServer {
  import opened Basics
  import opened TokenState
  import opened AtomicJson
  import TokenSafety
  import TokenTheorems

  class Server {
    const lanes: Lanes
    var clock: int
    var codes: map<Code, Grant>
    var awaiting: map<Code, Awaiting>
    var records: Store
    var disk: Store
    ghost var consents: map<Code, Grant>
    ghost var tokens: set<Token>
    ghost var origin: map<Token, Code>
    ghost var families: map<Family, seq<Token>>
    ghost var access: map<Jti, Minted>

    ghost function View(): State
      reads this
    {
      State(lanes, clock, codes, awaiting, records, disk, consents, tokens, origin, families, access)
    }

    ghost predicate Valid()
      reads this
    {
      TokenSafety.Invariant(View())
    }

    constructor (lanes: Lanes)
      ensures View() == Initial(lanes) && Valid()
    {
      this.lanes := lanes;
      clock := 0;
      codes, awaiting, records, disk := map[], map[], map[], map[];
      consents, tokens, origin, families, access := map[], {}, map[], map[], map[];
      new;
      TokenSafety.InitiallyInvariant(lanes);
    }

    /** The clock moves on. */
    method AdvanceClock(now: int)
      requires Valid() && Enabled(View(), Tick(now))
      modifies `clock
      ensures View() == Step(old(View()), Tick(now)) && Valid()
    {
      hide TokenSafety.Invariant, TokenSafety.Grows;
      TokenSafety.StepKeeps(View(), Tick(now));
      clock := now;
    }

    method RecordGrant(code: Code, grant: Grant)
      modifies `codes, `consents
      ensures View() == old(View()).(codes := old(codes)[code := grant], consents := old(consents)[code := grant])
    {
      codes := codes[code := grant];
      consents := consents[code := grant];
    }

    /** `handleConsent` (433-446). */
    method HandleConsent(code: Code, hint: Option<Lane>, client: Client, asked: Option<string>, g: Grant) returns (reply: Reply)
      requires Valid() && Enabled(View(), Consents(code, hint, client, asked, g))
      modifies `codes, `consents
      ensures (View(), reply) == StepReply(old(View()), Consents(code, hint, client, asked, g)) && Valid()
    {
      hide TokenSafety.Invariant, TokenSafety.Grows, LaneForClientResource;
      TokenSafety.StepKeeps(View(), Consents(code, hint, client, asked, g));
      var lane := hint;
      if lane.None? {
        lane := LaneForClientResource(lanes, client, asked);
      }
      if lane.None? { return Refused; }
      var resource := if Given(asked) then asked.value else lane.value.resource;
      if resource != lane.value.resource { return Refused; }
      RecordGrant(code, g.(resource := resource, issuer := lane.value.issuer, exp := clock + CODE_TTL_S));
      return Redirected(code);
    }

    /** Line 450: visits every code and deletes the expired ones. */
    method DeleteExpired()
      modifies `codes
      ensures codes == Unexpired(old(codes), clock)
    {
      ghost var before := codes;
      var left := codes.Keys;
      while left != {}
        invariant left <= before.Keys
        invariant codes == map c | c in before && (c in left || before[c].exp >= clock) :: before[c]
        decreases |left|
      {
        ghost var some := SomeElement(left);
        var c :| c in left;
        if codes[c].exp < clock {
          codes := codes - {c};
        }
        left := left - {c};
      }
    }

    /** The periodic sweep. */
    method Sweep()
      requires Valid()
      modifies `codes
      ensures View() == Step(old(View()), Sweeps) && Valid()
    {
      hide TokenSafety.Invariant, TokenSafety.Grows, Unexpired;
      TokenSafety.StepKeeps(View(), Sweeps);
      DeleteExpired();
    }

    method SpendCode(code: Code)
      modifies `codes
      ensures View() == old(View()).(codes := old(codes) - {code})
    {
      codes := codes - {code};
    }

    /** `handleToken` (495-502): the code is taken before the first await. */
    method TakeCode(code: Code, hint: Option<Lane>) returns (reply: Reply)
      requires Valid()
      modifies `codes, `awaiting
      ensures (View(), reply) == StepReply(old(View()), Redeems(code, hint)) && Valid()
    {
      hide TokenSafety.Invariant, TokenSafety.Grows, LaneForGrant;
      TokenSafety.StepKeeps(View(), Redeems(code, hint));
      if code !in codes { return Refused; }
      var g := codes[code];
      SpendCode(code);
      var lane := LaneForGrant(lanes, g.resource, g.issuer);
      if lane.None? { return Refused; }
      if hint.Some? && (lane.value.resource != hint.value.resource || lane.value.issuer != hint.value.issuer) {
        return Refused;
      }
      awaiting := awaiting[code := Awaiting(g, lane.value)];
      return NoReply;
    }

    /** `saveJson(tokensFile, refreshTokens)` with its outcome; after a crash the process starts over. */
    method Save(save: Save)
      modifies this
      ensures View() == SaveTokens(old(View()), save)
    {
      if save.Saved? || save.CrashedAfter? {
        disk := records;
      }
      if save.CrashedBefore? || save.CrashedAfter? {
        records, codes, awaiting := disk, map[], map[];
      }
    }

    /** `issueTokens` (452-460), up to its save. */
    method Issue(lane: Lane, client: string, scope: string, family: Family, token: Token, jti: Jti, ghost code: Code) returns (a: Access)
      modifies this
      ensures View() == Mint(old(View()), lane, client, scope, family, token, jti, code)
      ensures a == NewAccess(jti, old(clock), lane, client, scope)
    {
      a := NewAccess(jti, clock, lane, client, scope);
      records := records[token := NewRecord(clock, lane, client, scope, family)];
      access := access[jti := Minted(a, code, token)];
      tokens := tokens + {token};
      origin := origin[token := code];
    }

    /** Lines 503-510: the checks after the await, in order. */
    static method Checks(g: Grant, lane: Lane, p: Redemption) returns (ok: bool)
      ensures ok == RedemptionOk(g, lane, p)
    {
      if p.client.None? { return false; }
      if Given(p.clientId) && p.clientId.value != g.client { return false; }
      if Given(p.client.value.secret) && !EqualSecrets(p.client.value.secret, p.secret) { return false; }
      if p.redirect != Some(g.redirect) { return false; }
      if p.proof.None? { return false; }
      if p.proof.value != g.challenge { return false; }
      if Given(p.resource) && p.resource.value != lane.resource { return false; }
      return true;
    }

    method Forget(code: Code)
      modifies `awaiting
      ensures View() == old(View()).(awaiting := old(awaiting) - {code})
    {
      awaiting := awaiting - {code};
    }

    method StartFamily(family: Family, token: Token)
      modifies `families
      ensures View() == old(View()).(families := old(families)[family := [token]])
    {
      families := families[family := [token]];
    }

    /** `handleToken` (503-513), after the await. */
    method Redeem(code: Code, p: Redemption, token: Token, family: Family, jti: Jti, save: Save) returns (reply: Reply)
      requires Valid() && Enabled(View(), RedeemResumes(code, p, token, family, jti, save))
      modifies this
      ensures (View(), reply) == StepReply(old(View()), RedeemResumes(code, p, token, family, jti, save)) && Valid()
    {
      hide TokenSafety.Invariant, TokenSafety.Grows, RedemptionOk, Mint, SaveTokens;
      ghost var s := View();
      TokenSafety.StepKeeps(s, RedeemResumes(code, p, token, family, jti, save));
      var Awaiting(g, lane) := awaiting[code];
      Forget(code);
      var ok := Checks(g, lane, p);
      if !ok { return Refused; }
      var a := Issue(lane, g.client, g.scope, family, token, jti, code);
      ghost var minted := View();
      Save(save);
      assert View().families == s.families by { KeepsFamilies(s.(awaiting := s.awaiting - {code}), lane, g, family, token, jti, code, save); }
      if !save.CrashedBefore? { StartFamily(family, token); }
      reply := SaveReply(save, Issued(a, token));
    }

    /** `handleToken` (517-542), after the await: the record to rotate, if nothing speaks against it. */
    method ChooseRecord(q: RefreshRequest) returns (target: Option<Record>)
      ensures target == RefreshTarget(View(), q)
    {
      hide LaneForGrant, ResolveRefresh;
      var known := q.token.Some? && q.token.value in records;
      if known && q.client.None? && !q.httpsId { return None; }
      var secret := if q.client.Some? then q.client.value.secret else None;
      var verdict := ResolveRefresh(records, q.token, clock, secret, q.presented);
      if !verdict.Accepted? { return None; }
      var lane := LaneForGrant(lanes, verdict.record.resource, verdict.record.issuer);
      if WrongLane(lane, q.hint) { return None; }
      if Given(q.resource) && q.resource.value != lane.value.resource { return None; }
      return Some(verdict.record);
    }

    /** Lines 543-545: spend the record and mint its successor. */
    method RotateRecord(spent: Token, token: Token, jti: Jti, lane: Lane) returns (a: Access)
      requires spent in records
      modifies this
      ensures View() == Rotate(old(View()), spent, token, jti, lane)
      ensures a == NewAccess(jti, old(clock), lane, old(records)[spent].client, old(records)[spent].scope)
    {
      hide Mint, NewRecord;
      var r := records[spent];
      records := records[spent := r.(active := false, rotatedAt := Some(clock))];
      a := Issue(lane, r.client, r.scope, r.family, token, jti, OriginOf(View(), spent));
    }

    /** `handleToken` (543-549): spend, issue, save, link, save again. */
    method HandleRefresh(q: RefreshRequest, token: Token, jti: Jti, first: Save, second: Save) returns (reply: Reply)
      requires Valid() && Enabled(View(), Refreshes(q, token, jti, first, second))
      modifies this
      ensures (View(), reply) == StepReply(old(View()), Refreshes(q, token, jti, first, second)) && Valid()
    {
      hide TokenSafety.Invariant, TokenSafety.Grows, LaneForGrant, RefreshTarget, Rotate, Link, SaveTokens;
      TokenSafety.StepKeeps(View(), Refreshes(q, token, jti, first, second));
      var target := ChooseRecord(q);
      if target.None? { return Refused; }
      TokenSafety.TargetIsActive(View(), q);
      var lane := LaneForGrant(lanes, target.value.resource, target.value.issuer).value;
      var a := RotateRecord(q.token.value, token, jti, lane);
      Save(first);
      if !first.Saved? { return SaveReply(first, Refused); }
      assert q.token.value in records by { StaysKnown(old(View()), q.token.value, token, jti, lane); }
      LinkSuccessor(q.token.value, token);
      Save(second);
      reply := SaveReply(second, Issued(a, token));
    }

    /** The process dies between two requests and starts again from the tokens file. */
    method Crash()
      requires Valid()
      modifies `records, `codes, `awaiting
      ensures View() == Step(old(View()), Crashes) && Valid()
    {
      hide TokenSafety.Invariant, TokenSafety.Grows;
      TokenSafety.StepKeeps(View(), Crashes);
      records, codes, awaiting := disk, map[], map[];
    }

    /** Line 546. */
    method LinkSuccessor(spent: Token, token: Token)
      requires spent in records
      modifies this
      ensures View() == Link(old(View()), spent, token)
    {
      ghost var f := records[spent].family;
      records := records[spent := records[spent].(successor := Some(token))];
      families := if f in families then families[f := families[f] + [token]] else families;
    }

    // ---- Runs ------------------------------------------------------------------------------------

    /** One turn of the event loop. */
    method Handle(e: Event) returns (reply: Reply)
      requires Valid() && Enabled(View(), e)
      modifies this
      ensures (View(), reply) == StepReply(old(View()), e) && Valid()
    {
      hide TokenSafety.Invariant, TokenSafety.Grows, Consent, SweepCodes, RedeemStart, RedeemFinish, Refresh, Restart;
      reply := NoReply;
      match e
      case Tick(now) => AdvanceClock(now);
      case Consents(code, hint, client, asked, grant) => reply := HandleConsent(code, hint, client, asked, grant);
      case Sweeps => Sweep();
      case Redeems(code, hint) => reply := TakeCode(code, hint);
      case RedeemResumes(code, p, token, family, jti, save) => reply := Redeem(code, p, token, family, jti, save);
      case Refreshes(q, token, jti, first, second) => reply := HandleRefresh(q, token, jti, first, second);
      case Crashes => Crash();
    }

    /** Any run of the transition system is a run of the object, and ends in the same state. */
    method Drive(es: seq<Event>)
      requires Valid() && IsRun(View(), es)
      modifies this
      ensures View() == After(old(View()), es) && Valid()
    {
      hide TokenSafety.Invariant, TokenSafety.Grows, StepReply, Enabled;
      for k := 0 to |es|
        invariant Valid() && IsRun(View(), es[k..]) && After(View(), es[k..]) == After(old(View()), es)
      {
        assert es[k..][0] == es[k] && es[k..][1..] == es[k + 1..];
        var reply := Handle(es[k]);
      }
    }
  }

  /** The object, started afresh and driven through any run, is in a reachable state: all guarantees hold of it. */
  method Serve(lanes: Lanes, es: seq<Event>) returns (server: Server)
    requires IsRun(Initial(lanes), es)
    ensures fresh(server) && server.View() == After(Initial(lanes), es) && TokenTheorems.Reachable(server.View())
  {
    server := new Server(lanes);
    server.Drive(es);
  }

  /** What a restart after a crash at this moment of the file system finds is what one of the two crash outcomes leaves. */
  ghost predicate Restarts(decode: Bytes -> Option<Store>, moment: Files, name: string, s: State) {
    forall found :: Survives(moment, found) ==>
      exists save :: (save == CrashedBefore || save == CrashedAfter)
                  && SaveTokens(s, save).records == Load(decode, found, name, map[])
                  && SaveTokens(s, save).disk == Load(decode, found, name, map[])
  }

  /**
   `saveJson(tokensFile, refreshTokens)` on the file system itself, for any encoding that can be read
   back: it ends as `Saved` or `Threw`, and a crash at any moment of it as `CrashedBefore` or
   `CrashedAfter`, so the four outcomes of `SaveTokens` are all there are.
   */
  method SaveStore(d: Disk, name: string, tmp: string, encode: Store -> Bytes, ghost decode: Bytes -> Option<Store>,
                   records: Store, ghost s: State, io: Io) returns (ok: bool)
    requires d.Valid() && name != tmp && records == s.records && Holds(encode, d.files, name, s.disk, map[])
    requires forall x :: decode(encode(x)) == Some(x)
    modifies d
    ensures d.Valid() && Holds(encode, d.files, name, SaveTokens(s, if ok then Saved else Threw).disk, map[])
    ensures |d.past| >= |old(d.past)|
    ensures forall i :: |old(d.past)| <= i < |d.past| ==> Restarts(decode, d.past[i], name, s)
    ensures io.removes && io.opens && io.chmods && io.flushes && io.renames && (forall k: nat :: io.write(k) > 0) ==> ok
  {
    hide Survives, Load, SaveTokens;
    ghost var start := d.files;
    ok := d.SaveJson(name, tmp, encode(records), io);
    forall i | |old(d.past)| <= i < |d.past| ensures Restarts(decode, d.past[i], name, s) {
      forall found | Survives(d.past[i], found)
        ensures exists save :: (save == CrashedBefore || save == CrashedAfter)
                            && SaveTokens(s, save).records == Load(decode, found, name, map[])
                            && SaveTokens(s, save).disk == Load(decode, found, name, map[])
      {
        TokenTheorems.CrashDuringSave(encode, decode, start, d.past[i], found, name, s);
      }
    }
    SavedOrNot(s);
  }

  lemma SavedOrNot(s: State)
    ensures SaveTokens(s, Saved).disk == s.records && SaveTokens(s, Threw).disk == s.disk
  {
  }

  /** Minting and saving leave the history of families alone. */
  lemma KeepsFamilies(s: State, lane: Lane, g: Grant, family: Family, token: Token, jti: Jti, code: Code, save: Save)
    ensures SaveTokens(Mint(s, lane, g.client, g.scope, family, token, jti, code), save).families == s.families
  {
  }

  lemma StaysKnown(s: State, spent: Token, token: Token, jti: Jti, lane: Lane)
    requires spent in s.records
    ensures spent in SaveTokens(Rotate(s, spent, token, jti, lane), Saved).records
  {
  }
}
