/** The oauth_flows and auth_codes tables of internal/store/oauth.go. */
module OAuthStores {
  import opened Prelude

  const OAUTH_FLOW_TTL: Time := 10 * MINUTE
  const AUTH_CODE_TTL: Time := 60 * SECOND
  const PRUNE_AFTER: Time := HOUR

  /** State values and codes stand for their digests. */
  type Token = string

  datatype Flow = Flow(
    provider: string, clientId: ClientId, redirectUri: string, appState: string, codeVerifier: string,
    linkUserId: Option<UserId>)

  datatype FlowRow = FlowRow(flow: Flow, createdAt: Time, expiresAt: Time, consumedAt: Option<Time>)

  datatype AuthCode = AuthCode(userId: UserId, clientId: ClientId, redirectUri: string)

  datatype CodeRow = CodeRow(code: AuthCode, expiresAt: Time, consumedAt: Option<Time>)

  datatype Db = Db(flows: map<Token, FlowRow>, codes: map<Token, CodeRow>)

  datatype Call =
    | CreateFlow(state: Token, flow: Flow, at: Time)
    | ConsumeFlow(state: Token, at: Time)
    | CreateCode(token: Token, code: AuthCode, at: Time)
    | ConsumeCode(token: Token, at: Time)
    | Prune(at: Time)

  /** `Taken` is the violation of a primary key. */
  datatype Reply = Stored | Taken | GotFlow(flow: Flow) | GotCode(code: AuthCode) | NotFound

  predicate FlowUsable(d: Db, state: Token, now: Time) {
    state in d.flows && d.flows[state].consumedAt.None? && now <= d.flows[state].expiresAt
  }

  predicate CodeUsable(d: Db, tok: Token, now: Time) {
    tok in d.codes && d.codes[tok].consumedAt.None? && now <= d.codes[tok].expiresAt
  }

  function Apply(d: Db, c: Call): (Db, Reply) {
    match c
    case CreateFlow(state, f, at) =>
      if state in d.flows then (d, Taken)
      else (d.(flows := d.flows[state := FlowRow(f, at, at + OAUTH_FLOW_TTL, None)]), Stored)
    case ConsumeFlow(state, at) =>
      if FlowUsable(d, state, at) then
        (d.(flows := d.flows[state := d.flows[state].(consumedAt := Some(at))]), GotFlow(d.flows[state].flow))
      else
        (d, NotFound)
    case CreateCode(tok, code, at) =>
      if tok in d.codes then (d, Taken)
      else (d.(codes := d.codes[tok := CodeRow(code, at + AUTH_CODE_TTL, None)]), Stored)
    case ConsumeCode(tok, at) =>
      if CodeUsable(d, tok, at) then
        (d.(codes := d.codes[tok := d.codes[tok].(consumedAt := Some(at))]), GotCode(d.codes[tok].code))
      else
        (d, NotFound)
    case Prune(at) =>
      (Db(map k | k in d.flows && at - PRUNE_AFTER <= d.flows[k].expiresAt :: d.flows[k],
          map k | k in d.codes && at - PRUNE_AFTER <= d.codes[k].expiresAt :: d.codes[k]), Stored)
  }

  function TokensMinted(c: Call): set<Token> {
    match c
    case CreateFlow(state, _, _) => {state}
    case CreateCode(tok, _, _) => {tok}
    case _ => {}
  }

  /** The clock does not run backwards, and no minted token is minted again. */
  predicate ValidRun(now: Time, minted: set<Token>, calls: seq<Call>)
    decreases |calls|
  {
    calls == [] ||
    (now <= calls[0].at && TokensMinted(calls[0]) !! minted &&
     ValidRun(calls[0].at, minted + TokensMinted(calls[0]), calls[1..]))
  }

  function Replies(d: Db, calls: seq<Call>): seq<Reply>
    decreases |calls|
  {
    if calls == [] then []
    else (if calls[0].Prune? then [] else [Apply(d, calls[0]).1]) + Replies(Apply(d, calls[0]).0, calls[1..])
  }

  function NoPrunes(calls: seq<Call>): seq<Call> {
    if calls == [] then [] else (if calls[0].Prune? then [] else [calls[0]]) + NoPrunes(calls[1..])
  }

  /** The first table lacks nothing of the second but rows that have expired. */
  ghost predicate LacksFlows(rows: map<Token, FlowRow>, rows': map<Token, FlowRow>, minted: set<Token>, now: Time) {
    && rows'.Keys <= minted
    && (forall k :: k in rows ==> k in rows' && rows'[k] == rows[k])
    && (forall k :: k in rows' && k !in rows ==> rows'[k].expiresAt < now)
  }

  ghost predicate LacksCodes(rows: map<Token, CodeRow>, rows': map<Token, CodeRow>, minted: set<Token>, now: Time) {
    && rows'.Keys <= minted
    && (forall k :: k in rows ==> k in rows' && rows'[k] == rows[k])
    && (forall k :: k in rows' && k !in rows ==> rows'[k].expiresAt < now)
  }

  ghost predicate Lacks(d: Db, d': Db, minted: set<Token>, now: Time) {
    LacksFlows(d.flows, d'.flows, minted, now) && LacksCodes(d.codes, d'.codes, minted, now)
  }

  lemma FlowCallLacks(d: Db, d': Db, minted: set<Token>, now: Time, c: Call)
    requires Lacks(d, d', minted, now) && now <= c.at && TokensMinted(c) !! minted
    requires c.CreateFlow? || c.ConsumeFlow?
    ensures Lacks(Apply(d, c).0, Apply(d', c).0, minted + TokensMinted(c), c.at) && Apply(d, c).1 == Apply(d', c).1
  {
  }

  lemma CodeCallLacks(d: Db, d': Db, minted: set<Token>, now: Time, c: Call)
    requires Lacks(d, d', minted, now) && now <= c.at && TokensMinted(c) !! minted
    requires c.CreateCode? || c.ConsumeCode?
    ensures Lacks(Apply(d, c).0, Apply(d', c).0, minted + TokensMinted(c), c.at) && Apply(d, c).1 == Apply(d', c).1
  {
  }

  lemma PruneLacks(d: Db, d': Db, minted: set<Token>, now: Time, at: Time)
    requires Lacks(d, d', minted, now) && now <= at
    ensures Lacks(Apply(d, Prune(at)).0, d', minted, at)
  {
  }

  lemma {:induction false} LackingReplies(d: Db, d': Db, minted: set<Token>, now: Time, calls: seq<Call>)
    requires Lacks(d, d', minted, now) && ValidRun(now, minted, calls)
    ensures Replies(d, calls) == Replies(d', NoPrunes(calls))
    decreases |calls|
  {
    hide Lacks, Apply;
    if calls == [] {
    } else {
      var c, rest := calls[0], calls[1..];
      if c.Prune? {
        PruneLacks(d, d', minted, now, c.at);
        assert minted + TokensMinted(c) == minted;
        LackingReplies(Apply(d, c).0, d', minted, c.at, rest);
        assert NoPrunes(calls) == NoPrunes(rest);
      } else {
        if c.CreateFlow? || c.ConsumeFlow? {
          FlowCallLacks(d, d', minted, now, c);
        } else {
          CodeCallLacks(d, d', minted, now, c);
        }
        LackingReplies(Apply(d, c).0, Apply(d', c).0, minted + TokensMinted(c), c.at, rest);
        assert NoPrunes(calls)[0] == c && NoPrunes(calls)[1..] == NoPrunes(rest);
      }
    }
  }

  /** Pruning flows and codes at any points of any run changes no reply. */
  lemma PruningIsInvisible(d: Db, minted: set<Token>, now: Time, calls: seq<Call>)
    requires d.flows.Keys <= minted && d.codes.Keys <= minted && ValidRun(now, minted, calls)
    ensures Replies(d, calls) == Replies(d, NoPrunes(calls))
  {
    LackingReplies(d, d, minted, now, calls);
  }

  class OAuthStore {
    var db: Db

    constructor ()
      ensures db == Db(map[], map[])
    {
      db := Db(map[], map[]);
    }

    method CreateOAuthFlow(state: Token, f: Flow, now: Time) returns (r: Reply)
      modifies this
      ensures (db, r) == Apply(old(db), CreateFlow(state, f, now))
      ensures r.Stored? ==> db.flows[state].flow == f && forall t :: FlowUsable(db, state, t) <==> t <= now + 10 * MINUTE
      ensures r.Stored? <==> state !in old(db).flows
    {
      if state in db.flows {
        return Taken;
      }
      r := Stored;
      db := db.(flows := db.flows[state := FlowRow(f, now, now + OAUTH_FLOW_TTL, None)]);
    }

    /** A state value is redeemed once. */
    method ConsumeOAuthFlow(state: Token, now: Time) returns (r: Reply)
      modifies this
      ensures (db, r) == Apply(old(db), ConsumeFlow(state, now))
      ensures r.GotFlow? <==> FlowUsable(old(db), state, now)
      ensures r.GotFlow? ==> r.flow == old(db).flows[state].flow
      ensures forall later :: now <= later ==> !FlowUsable(db, state, later)
      ensures db.codes == old(db).codes && db.flows - {state} == old(db).flows - {state}
    {
      if state in db.flows && db.flows[state].consumedAt.None? {
        var row := db.flows[state];
        if row.expiresAt < now {
          r := NotFound;
        } else {
          db := db.(flows := db.flows[state := row.(consumedAt := Some(now))]);
          r := GotFlow(row.flow);
        }
      } else {
        r := NotFound;
      }
    }

    method CreateAuthCode(tok: Token, c: AuthCode, now: Time) returns (r: Reply)
      modifies this
      ensures (db, r) == Apply(old(db), CreateCode(tok, c, now))
      ensures r.Stored? ==> db.codes[tok].code == c && forall t :: CodeUsable(db, tok, t) <==> t <= now + MINUTE
      ensures r.Stored? <==> tok !in old(db).codes
    {
      if tok in db.codes {
        return Taken;
      }
      r := Stored;
      db := db.(codes := db.codes[tok := CodeRow(c, now + AUTH_CODE_TTL, None)]);
    }

    /** A code is redeemed once. */
    method ConsumeAuthCode(tok: Token, now: Time) returns (r: Reply)
      modifies this
      ensures (db, r) == Apply(old(db), ConsumeCode(tok, now))
      ensures r.GotCode? <==> CodeUsable(old(db), tok, now)
      ensures r.GotCode? ==> r.code == old(db).codes[tok].code
      ensures forall later :: now <= later ==> !CodeUsable(db, tok, later)
      ensures db.flows == old(db).flows && db.codes - {tok} == old(db).codes - {tok}
    {
      if tok in db.codes && db.codes[tok].consumedAt.None? {
        var row := db.codes[tok];
        if row.expiresAt < now {
          r := NotFound;
        } else {
          db := db.(codes := db.codes[tok := row.(consumedAt := Some(now))]);
          r := GotCode(row.code);
        }
      } else {
        r := NotFound;
      }
    }

    method PruneOAuth(now: Time)
      modifies this
      ensures db == Apply(old(db), Prune(now)).0
      ensures forall k :: k in db.flows <==> k in old(db).flows && old(db).flows[k].expiresAt + HOUR >= now
      ensures forall k :: k in db.codes <==> k in old(db).codes && old(db).codes[k].expiresAt + HOUR >= now
    {
      var cutoff := now - PRUNE_AFTER;
      db := db.(flows := map k | k in db.flows && cutoff <= db.flows[k].expiresAt :: db.flows[k]);
      db := db.(codes := map k | k in db.codes && cutoff <= db.codes[k].expiresAt :: db.codes[k]);
    }
  }
}
