/** From started flow to auth code to session, at the granularity of store calls: any number of callbacks
    and exchanges run at once (internal/httpapi/oauth.go). */
module OAuthHandoff {
  import opened Prelude
  import opened OAuthStores

  type Pid = nat
  type Sid = nat

  /** A callback that has redeemed a state value, and then settled on a user. */
  datatype Callback = Callback(state: Token, flow: Flow, userId: Option<UserId>)

  /** An exchange that has redeemed a code issued to its client. */
  datatype Exchange = Exchange(token: Token, code: AuthCode)

  datatype FlowBirth = FlowBirth(flow: Flow, at: Time)
  /** `state` is what the callback that minted the code had redeemed. */
  datatype CodeBirth = CodeBirth(code: AuthCode, state: Token, at: Time)
  /** `token` is the code the exchange had redeemed. */
  datatype Login = Login(userId: UserId, clientId: ClientId, token: Token, at: Time)
  /** Who redeemed a token, and when. */
  datatype Taking = Taking(who: Pid, at: Time)

  type Clients = map<ClientId, seq<string>>

  /** Every flow ever begun, every state value ever redeemed, and the callbacks in progress. */
  datatype Front = Front(flows: map<Token, FlowBirth>, taken: map<Token, Taking>, callbacks: map<Pid, Callback>)

  /** Every code ever minted and redeemed, the exchanges in progress and the sessions they created. */
  datatype Back = Back(codes: map<Token, CodeBirth>, taken: map<Token, Taking>, exchanges: map<Pid, Exchange>,
                       sessions: map<Sid, Login>)

  datatype World = World(clients: Clients, db: Db, front: Front, back: Back, pids: set<Pid>, clock: Time)

  datatype Event =
    | Register(clientId: ClientId, redirectUris: seq<string>, at: Time)
    /** handleOAuthStart or handleLinkStart, through beginFlow. */
    | Begin(state: Token, provider: string, clientId: ClientId, redirectUri: string, appState: string,
            codeVerifier: string, linkUserId: Option<UserId>, at: Time)
    /** handleOAuthCallback recovers the flow. */
    | Recover(pid: Pid, state: Token, provider: string, at: Time)
    /** It settles on a user: the linking one, or the one Resolve names; or it gives up. */
    | Settle(pid: Pid, resolved: Option<UserId>, at: Time)
    /** It mints the code. */
    | Mint(pid: Pid, token: Token, at: Time)
    /** handleTokenExchange, past the check of the client secret, redeems the code. */
    | Present(pid: Pid, clientId: ClientId, token: Token, at: Time)
    /** It creates the session, unless the user cannot be loaded or is disabled. */
    | Finish(pid: Pid, userOk: bool, sid: Sid, at: Time)
    | PruneTables(at: Time)

  /** A lone registered URI stands in for a missing one. */
  function ChosenRedirect(uris: seq<string>, uri: string): string {
    if uri == "" && |uris| == 1 then uris[0] else uri
  }

  /** The clock does not run backwards; pids, state values, codes and session ids are new. */
  ghost predicate Enabled(w: World, e: Event) {
    && w.clock <= e.at
    && match e
       case Begin(state, _, _, _, _, _, _, _) => state !in w.front.flows
       case Recover(pid, _, _, _) => pid !in w.pids
       case Settle(pid, _, _) => pid in w.front.callbacks && w.front.callbacks[pid].userId.None?
       case Mint(pid, tok, _) =>
         pid in w.front.callbacks && w.front.callbacks[pid].userId.Some? && tok !in w.back.codes
       case Present(pid, _, _, _) => pid !in w.pids
       case Finish(pid, _, sid, _) => pid in w.back.exchanges && sid !in w.back.sessions
       case _ => true
  }

  /** The flow beginFlow records: only for a registered client, and only with an exact registered URI. */
  function FlowOf(clients: Clients, e: Event): Option<Flow>
    requires e.Begin?
  {
    if e.clientId != "" && e.clientId in clients && ChosenRedirect(clients[e.clientId], e.redirectUri) in clients[e.clientId] then
      Some(Flow(e.provider, e.clientId, ChosenRedirect(clients[e.clientId], e.redirectUri), e.appState,
                e.codeVerifier, e.linkUserId))
    else
      None
  }

  function Begun(f: Front, state: Token, flow: Flow, at: Time): Front {
    Front(f.flows[state := FlowBirth(flow, at)], f.taken, f.callbacks)
  }

  /** A state value that belongs to another provider is spent all the same. */
  function Recovered(f: Front, e: Event, flow: Flow): Front
    requires e.Recover?
  {
    Front(f.flows, f.taken[e.state := Taking(e.pid, e.at)],
          if flow.provider == e.provider then f.callbacks[e.pid := Callback(e.state, flow, None)] else f.callbacks)
  }

  function Settled(f: Front, e: Event): Front
    requires e.Settle? && e.pid in f.callbacks
  {
    var cb := f.callbacks[e.pid];
    Front(f.flows, f.taken,
          if e.resolved.None? then f.callbacks - {e.pid}
          else f.callbacks[e.pid := Callback(cb.state, cb.flow, if cb.flow.linkUserId.Some? then cb.flow.linkUserId else e.resolved)])
  }

  function CodeOf(cb: Callback): AuthCode
    requires cb.userId.Some?
  {
    AuthCode(cb.userId.value, cb.flow.clientId, cb.flow.redirectUri)
  }

  function Ended(f: Front, pid: Pid): Front {
    Front(f.flows, f.taken, f.callbacks - {pid})
  }

  function Minted(b: Back, cb: Callback, tok: Token, at: Time): Back
    requires cb.userId.Some?
  {
    Back(b.codes[tok := CodeBirth(CodeOf(cb), cb.state, at)], b.taken, b.exchanges, b.sessions)
  }

  /** A code presented by a client it was not issued to is spent all the same. */
  function Presented(b: Back, e: Event, code: AuthCode): Back
    requires e.Present?
  {
    Back(b.codes, b.taken[e.token := Taking(e.pid, e.at)],
         if code.clientId == e.clientId then b.exchanges[e.pid := Exchange(e.token, code)] else b.exchanges, b.sessions)
  }

  function Finished(b: Back, e: Event): Back
    requires e.Finish? && e.pid in b.exchanges
  {
    var x := b.exchanges[e.pid];
    Back(b.codes, b.taken, b.exchanges - {e.pid},
         if e.userOk then b.sessions[e.sid := Login(x.code.userId, x.code.clientId, x.token, e.at)] else b.sessions)
  }

  ghost function Next(w: World, e: Event): World
    requires Enabled(w, e)
  {
    match e
    case Register(c, uris, at) =>
      // A client id that is taken is refused.
      World(if c in w.clients then w.clients else w.clients[c := uris], w.db, w.front, w.back, w.pids, at)
    case Begin(state, _, _, _, _, _, _, at) =>
      var flow := FlowOf(w.clients, e);
      if flow.None? then World(w.clients, w.db, w.front, w.back, w.pids, at)
      else
        World(w.clients, Apply(w.db, CreateFlow(state, flow.value, at)).0, Begun(w.front, state, flow.value, at),
              w.back, w.pids, at)
    case Recover(pid, state, _, at) =>
      World(w.clients, Apply(w.db, ConsumeFlow(state, at)).0,
            if FlowUsable(w.db, state, at) then Recovered(w.front, e, w.db.flows[state].flow) else w.front,
            w.back, w.pids + {pid}, at)
    case Settle(_, _, at) => World(w.clients, w.db, Settled(w.front, e), w.back, w.pids, at)
    case Mint(pid, tok, at) =>
      var cb := w.front.callbacks[pid];
      World(w.clients, Apply(w.db, CreateCode(tok, CodeOf(cb), at)).0, Ended(w.front, pid),
            Minted(w.back, cb, tok, at), w.pids, at)
    case Present(pid, clientId, tok, at) =>
      if clientId !in w.clients then World(w.clients, w.db, w.front, w.back, w.pids + {pid}, at)
      else
        World(w.clients, Apply(w.db, ConsumeCode(tok, at)).0, w.front,
              if CodeUsable(w.db, tok, at) then Presented(w.back, e, w.db.codes[tok].code) else w.back,
              w.pids + {pid}, at)
    case Finish(_, _, _, at) => World(w.clients, w.db, w.front, Finished(w.back, e), w.pids, at)
    case PruneTables(at) => World(w.clients, Apply(w.db, Prune(at)).0, w.front, w.back, w.pids, at)
  }

  function Start(now: Time): World {
    World(map[], Db(map[], map[]), Front(map[], map[], map[]), Back(map[], map[], map[], map[]), {}, now)
  }

  ghost predicate ValidHandoff(w: World, evs: seq<Event>)
    decreases |evs|
  {
    evs == [] || (Enabled(w, evs[0]) && ValidHandoff(Next(w, evs[0]), evs[1..]))
  }

  ghost function Final(w: World, evs: seq<Event>): World
    requires ValidHandoff(w, evs)
    decreases |evs|
  {
    if evs == [] then w else Final(Next(w, evs[0]), evs[1..])
  }

  // --- The invariant --------------------------------------------------------------------------------

  /** Each flow begun is for a redirect URI registered by its client. */
  ghost predicate RegisteredInv(clients: Clients, f: Front) {
    forall k :: k in f.flows ==>
      f.flows[k].flow.clientId in clients && f.flows[k].flow.redirectUri in clients[f.flows[k].flow.clientId]
  }

  /** Stored flows are the ones begun, and those not consumed have not been redeemed. */
  ghost predicate FlowTableInv(rows: map<Token, FlowRow>, f: Front) {
    forall k :: k in rows ==>
      && k in f.flows
      && rows[k].flow == f.flows[k].flow
      && rows[k].expiresAt == f.flows[k].at + OAUTH_FLOW_TTL
      && (rows[k].consumedAt.None? ==> k !in f.taken)
  }

  /** State values are redeemed in time. */
  ghost predicate FlowTakenInv(f: Front, pids: set<Pid>, clock: Time) {
    && (forall k :: k in f.flows ==> f.flows[k].at <= clock)
    && (forall k :: k in f.taken ==>
          && k in f.flows
          && f.flows[k].at <= f.taken[k].at <= f.flows[k].at + OAUTH_FLOW_TTL
          && f.taken[k].at <= clock
          && f.taken[k].who in pids)
  }

  /** A linking flow settles on the linking user. */
  predicate RightUser(f: Flow, userId: Option<UserId>) {
    userId.Some? && f.linkUserId.Some? ==> userId == f.linkUserId
  }

  /** A callback in progress is the one that redeemed its state value. */
  ghost predicate CallbackInv(f: Front) {
    forall p :: p in f.callbacks ==>
      && f.callbacks[p].state in f.taken
      && f.taken[f.callbacks[p].state].who == p
      && f.callbacks[p].state in f.flows
      && f.callbacks[p].flow == f.flows[f.callbacks[p].state].flow
      && RightUser(f.callbacks[p].flow, f.callbacks[p].userId)
  }

  ghost predicate MintedFor(f: Front, c: CodeBirth) {
    && c.state in f.flows && c.state in f.taken
    && f.taken[c.state].who !in f.callbacks
    && f.taken[c.state].at <= c.at
    && c.code.clientId == f.flows[c.state].flow.clientId
    && c.code.redirectUri == f.flows[c.state].flow.redirectUri
    && RightUser(f.flows[c.state].flow, Some(c.code.userId))
  }

  /** A code was minted by the callback that redeemed its state value, which is then over. */
  ghost predicate CodeInv(f: Front, codes: map<Token, CodeBirth>) {
    && (forall t :: t in codes ==> MintedFor(f, codes[t]))
    && (forall t, t' :: t in codes && t' in codes && codes[t].state == codes[t'].state ==> t == t')
  }

  /** Stored codes are the ones minted, and those not consumed have not been redeemed. */
  ghost predicate CodeTableInv(rows: map<Token, CodeRow>, b: Back) {
    forall t :: t in rows ==>
      && t in b.codes
      && rows[t].code == b.codes[t].code
      && rows[t].expiresAt == b.codes[t].at + AUTH_CODE_TTL
      && (rows[t].consumedAt.None? ==> t !in b.taken)
  }

  /** Codes are redeemed in time. */
  ghost predicate CodeTakenInv(b: Back, pids: set<Pid>, clock: Time) {
    && (forall t :: t in b.codes ==> b.codes[t].at <= clock)
    && (forall t :: t in b.taken ==>
          && t in b.codes
          && b.codes[t].at <= b.taken[t].at <= b.codes[t].at + AUTH_CODE_TTL
          && b.taken[t].at <= clock
          && b.taken[t].who in pids)
  }

  /** An exchange in progress is the one that redeemed its code. */
  ghost predicate ExchangeInv(b: Back) {
    forall p :: p in b.exchanges ==>
      && b.exchanges[p].token in b.taken
      && b.taken[b.exchanges[p].token].who == p
      && b.exchanges[p].token in b.codes
      && b.exchanges[p].code == b.codes[b.exchanges[p].token].code
  }

  ghost predicate CreatedFor(b: Back, s: Login) {
    && s.token in b.codes && s.token in b.taken
    && b.taken[s.token].who !in b.exchanges
    && b.taken[s.token].at <= s.at
    && s.userId == b.codes[s.token].code.userId
    && s.clientId == b.codes[s.token].code.clientId
  }

  /** A session was created by the exchange that redeemed its code, which is then over. */
  ghost predicate SessionInv(b: Back) {
    && (forall s :: s in b.sessions ==> CreatedFor(b, b.sessions[s]))
    && (forall s, s' :: s in b.sessions && s' in b.sessions && b.sessions[s].token == b.sessions[s'].token ==> s == s')
  }

  ghost predicate WorldInv(w: World) {
    && RegisteredInv(w.clients, w.front)
    && FlowTableInv(w.db.flows, w.front)
    && FlowTakenInv(w.front, w.pids, w.clock)
    && CallbackInv(w.front)
    && CodeInv(w.front, w.back.codes)
    && CodeTableInv(w.db.codes, w.back)
    && CodeTakenInv(w.back, w.pids, w.clock)
    && ExchangeInv(w.back)
    && SessionInv(w.back)
  }

  // --- What each step keeps ---------------------------------------------------------------------------

  lemma BeginKeepsTable(w: World, state: Token, flow: Flow, at: Time)
    requires state !in w.front.flows && FlowTableInv(w.db.flows, w.front) && FlowTakenInv(w.front, w.pids, w.clock)
    ensures FlowTableInv(Apply(w.db, CreateFlow(state, flow, at)).0.flows, Begun(w.front, state, flow, at))
  {
  }

  lemma BeginKeeps(w: World, e: Event, flow: Flow)
    requires e.Begin? && e.state !in w.front.flows && w.clock <= e.at && FlowOf(w.clients, e) == Some(flow)
    requires RegisteredInv(w.clients, w.front) && FlowTakenInv(w.front, w.pids, w.clock)
    ensures RegisteredInv(w.clients, Begun(w.front, e.state, flow, e.at))
    ensures FlowTakenInv(Begun(w.front, e.state, flow, e.at), w.pids, e.at)
  {
  }

  lemma BeginKeepsCodes(f: Front, codes: map<Token, CodeBirth>, state: Token, flow: Flow, at: Time)
    requires CallbackInv(f) && CodeInv(f, codes) && state !in f.flows
    ensures CallbackInv(Begun(f, state, flow, at)) && CodeInv(Begun(f, state, flow, at), codes)
  {
    forall t | t in codes ensures MintedFor(Begun(f, state, flow, at), codes[t]) {
      assert MintedFor(f, codes[t]);
    }
  }

  lemma RecoverKeepsTable(w: World, e: Event)
    requires e.Recover? && FlowUsable(w.db, e.state, e.at) && FlowTableInv(w.db.flows, w.front)
    ensures FlowTableInv(Apply(w.db, ConsumeFlow(e.state, e.at)).0.flows, Recovered(w.front, e, w.db.flows[e.state].flow))
  {
  }

  lemma RecoverKeepsTaken(f: Front, row: FlowRow, e: Event, pids: set<Pid>, clock: Time)
    requires e.Recover? && e.state in f.flows && row.flow == f.flows[e.state].flow
    requires e.at <= f.flows[e.state].at + OAUTH_FLOW_TTL && clock <= e.at && FlowTakenInv(f, pids, clock)
    ensures FlowTakenInv(Recovered(f, e, row.flow), pids + {e.pid}, e.at)
  {
  }

  lemma RecoverKeepsCallbacks(f: Front, row: FlowRow, e: Event, pids: set<Pid>, clock: Time)
    requires e.Recover? && e.state in f.flows && row.flow == f.flows[e.state].flow
    requires e.state !in f.taken && e.pid !in pids && FlowTakenInv(f, pids, clock) && CallbackInv(f)
    ensures CallbackInv(Recovered(f, e, row.flow))
  {
  }

  lemma RecoverKeeps(w: World, e: Event)
    requires e.Recover? && FlowUsable(w.db, e.state, e.at) && e.pid !in w.pids && w.clock <= e.at
    requires RegisteredInv(w.clients, w.front) && FlowTableInv(w.db.flows, w.front)
    requires FlowTakenInv(w.front, w.pids, w.clock) && CallbackInv(w.front)
    ensures var f := Recovered(w.front, e, w.db.flows[e.state].flow);
      && RegisteredInv(w.clients, f) && FlowTakenInv(f, w.pids + {e.pid}, e.at) && CallbackInv(f)
      && FlowTableInv(Apply(w.db, ConsumeFlow(e.state, e.at)).0.flows, f)
  {
    hide FlowTakenInv, CallbackInv, Apply;
    RecoverKeepsTable(w, e);
    RecoverKeepsTaken(w.front, w.db.flows[e.state], e, w.pids, w.clock);
    RecoverKeepsCallbacks(w.front, w.db.flows[e.state], e, w.pids, w.clock);
  }

  lemma RecoverKeepsCodes(f: Front, codes: map<Token, CodeBirth>, e: Event, flow: Flow, pids: set<Pid>, clock: Time)
    requires e.Recover? && e.state !in f.taken && e.pid !in pids && FlowTakenInv(f, pids, clock) && CodeInv(f, codes)
    ensures CodeInv(Recovered(f, e, flow), codes)
  {
    forall t | t in codes ensures MintedFor(Recovered(f, e, flow), codes[t]) {
      assert MintedFor(f, codes[t]);
    }
  }

  lemma SettleKeeps(f: Front, codes: map<Token, CodeBirth>, e: Event)
    requires e.Settle? && e.pid in f.callbacks && CallbackInv(f) && CodeInv(f, codes)
    ensures CallbackInv(Settled(f, e)) && CodeInv(Settled(f, e), codes)
  {
    forall t | t in codes ensures MintedFor(Settled(f, e), codes[t]) {
      assert MintedFor(f, codes[t]);
    }
  }

  lemma MintKeeps(f: Front, b: Back, pid: Pid, tok: Token, pids: set<Pid>, clock: Time, at: Time)
    requires pid in f.callbacks && f.callbacks[pid].userId.Some? && tok !in b.codes && clock <= at
    requires FlowTakenInv(f, pids, clock) && CallbackInv(f) && CodeInv(f, b.codes)
    ensures CallbackInv(Ended(f, pid))
    ensures CodeInv(Ended(f, pid), Minted(b, f.callbacks[pid], tok, at).codes)
  {
    var n := Minted(b, f.callbacks[pid], tok, at).codes;
    forall t | t in n ensures MintedFor(Ended(f, pid), n[t]) {
      if t != tok { assert MintedFor(f, b.codes[t]); }
    }
    forall t | t in b.codes ensures b.codes[t].state != f.callbacks[pid].state {
      assert MintedFor(f, b.codes[t]);
    }
  }

  lemma MintKeepsTable(w: World, cb: Callback, tok: Token, at: Time)
    requires cb.userId.Some? && tok !in w.back.codes && w.clock <= at
    requires CodeTableInv(w.db.codes, w.back) && CodeTakenInv(w.back, w.pids, w.clock) && ExchangeInv(w.back)
    ensures var b := Minted(w.back, cb, tok, at);
      && CodeTableInv(Apply(w.db, CreateCode(tok, CodeOf(cb), at)).0.codes, b)
      && CodeTakenInv(b, w.pids, at) && ExchangeInv(b)
  {
  }

  lemma MintKeepsSessions(b: Back, cb: Callback, tok: Token, at: Time)
    requires cb.userId.Some? && tok !in b.codes && SessionInv(b)
    ensures SessionInv(Minted(b, cb, tok, at))
  {
    forall s | s in b.sessions ensures CreatedFor(Minted(b, cb, tok, at), b.sessions[s]) {
      assert CreatedFor(b, b.sessions[s]);
    }
  }

  lemma PresentKeepsTable(w: World, e: Event)
    requires e.Present? && CodeUsable(w.db, e.token, e.at) && CodeTableInv(w.db.codes, w.back)
    ensures CodeTableInv(Apply(w.db, ConsumeCode(e.token, e.at)).0.codes, Presented(w.back, e, w.db.codes[e.token].code))
  {
  }

  lemma PresentKeeps(w: World, e: Event)
    requires e.Present? && CodeUsable(w.db, e.token, e.at) && e.pid !in w.pids && w.clock <= e.at
    requires CodeTableInv(w.db.codes, w.back) && CodeTakenInv(w.back, w.pids, w.clock) && ExchangeInv(w.back)
    ensures CodeTakenInv(Presented(w.back, e, w.db.codes[e.token].code), w.pids + {e.pid}, e.at)
    ensures ExchangeInv(Presented(w.back, e, w.db.codes[e.token].code))
  {
  }

  lemma PresentKeepsSessions(b: Back, e: Event, code: AuthCode, pids: set<Pid>, clock: Time)
    requires e.Present? && e.token !in b.taken && e.pid !in pids && CodeTakenInv(b, pids, clock) && SessionInv(b)
    ensures SessionInv(Presented(b, e, code))
  {
    forall s | s in b.sessions ensures CreatedFor(Presented(b, e, code), b.sessions[s]) {
      assert CreatedFor(b, b.sessions[s]);
    }
  }

  lemma FinishKeeps(b: Back, e: Event, pids: set<Pid>, clock: Time)
    requires e.Finish? && e.pid in b.exchanges && e.sid !in b.sessions && clock <= e.at
    requires CodeTakenInv(b, pids, clock) && ExchangeInv(b) && SessionInv(b)
    ensures CodeTakenInv(Finished(b, e), pids, e.at) && ExchangeInv(Finished(b, e)) && SessionInv(Finished(b, e))
  {
    var n := Finished(b, e);
    forall s | s in n.sessions ensures CreatedFor(n, n.sessions[s]) {
      if s in b.sessions { assert CreatedFor(b, b.sessions[s]); }
    }
    forall s | s in b.sessions ensures b.sessions[s].token != b.exchanges[e.pid].token {
      assert CreatedFor(b, b.sessions[s]);
    }
  }

  lemma LaterKeeps(w: World, pids: set<Pid>, clock: Time)
    requires w.pids <= pids && w.clock <= clock
    ensures FlowTakenInv(w.front, w.pids, w.clock) ==> FlowTakenInv(w.front, pids, clock)
    ensures CodeTakenInv(w.back, w.pids, w.clock) ==> CodeTakenInv(w.back, pids, clock)
  {
  }

  lemma StepKeepsInv(w: World, e: Event)
    requires WorldInv(w) && Enabled(w, e)
    ensures WorldInv(Next(w, e))
  {
    hide FlowTableInv, FlowTakenInv, CallbackInv, CodeInv, CodeTableInv, CodeTakenInv, ExchangeInv, SessionInv;
    var n := Next(w, e);
    LaterKeeps(w, n.pids, n.clock);
    match e
    case Register(_, _, _) =>
    case Begin(state, _, _, _, _, _, _, at) =>
      if FlowOf(w.clients, e).Some? {
        BeginKeeps(w, e, FlowOf(w.clients, e).value);
        BeginKeepsTable(w, state, FlowOf(w.clients, e).value, at);
        BeginKeepsCodes(w.front, w.back.codes, state, FlowOf(w.clients, e).value, at);
      }
    case Recover(_, state, _, at) =>
      if FlowUsable(w.db, state, at) {
        RecoverKeeps(w, e);
        UsableNotTaken(w, state);
        RecoverKeepsCodes(w.front, w.back.codes, e, w.db.flows[state].flow, w.pids, w.clock);
      }
    case Settle(_, _, _) =>
      SettleKeeps(w.front, w.back.codes, e);
      EndedKeeps(w.db.flows, w.front, n.front, w.pids, n.clock);
    case Mint(pid, tok, at) =>
      MintKeeps(w.front, w.back, pid, tok, w.pids, w.clock, at);
      EndedKeeps(w.db.flows, w.front, n.front, w.pids, at);
      MintKeepsTable(w, w.front.callbacks[pid], tok, at);
      MintKeepsSessions(w.back, w.front.callbacks[pid], tok, at);
    case Present(_, clientId, tok, at) =>
      if clientId in w.clients && CodeUsable(w.db, tok, at) {
        PresentKeepsTable(w, e);
        PresentKeeps(w, e);
        UsableCodeNotTaken(w, tok);
        PresentKeepsSessions(w.back, e, w.db.codes[tok].code, w.pids, w.clock);
      }
    case Finish(_, _, _, _) =>
      FinishKeeps(w.back, e, w.pids, w.clock);
      FinishKeepsTable(w.db.codes, w.back, e);
    case PruneTables(_) => PruneKeepsTables(w, e);
  }

  lemma UsableNotTaken(w: World, state: Token)
    requires FlowTableInv(w.db.flows, w.front) && state in w.db.flows && w.db.flows[state].consumedAt.None?
    ensures state !in w.front.taken
  {
  }

  lemma UsableCodeNotTaken(w: World, tok: Token)
    requires CodeTableInv(w.db.codes, w.back) && tok in w.db.codes && w.db.codes[tok].consumedAt.None?
    ensures tok !in w.back.taken
  {
  }

  lemma EndedKeeps(rows: map<Token, FlowRow>, f: Front, f': Front, pids: set<Pid>, clock: Time)
    requires f'.flows == f.flows && f'.taken == f.taken && FlowTableInv(rows, f) && FlowTakenInv(f, pids, clock)
    ensures FlowTableInv(rows, f') && FlowTakenInv(f', pids, clock)
  {
  }

  lemma FinishKeepsTable(rows: map<Token, CodeRow>, b: Back, e: Event)
    requires e.Finish? && e.pid in b.exchanges && CodeTableInv(rows, b)
    ensures CodeTableInv(rows, Finished(b, e))
  {
  }

  lemma PruneKeepsTables(w: World, e: Event)
    requires FlowTableInv(w.db.flows, w.front) && CodeTableInv(w.db.codes, w.back)
    ensures FlowTableInv(Apply(w.db, Prune(e.at)).0.flows, w.front)
    ensures CodeTableInv(Apply(w.db, Prune(e.at)).0.codes, w.back)
  {
  }

  // --- Provenance ----------------------------------------------------------------------------------------

  lemma {:induction false} RunKeepsInv(w: World, evs: seq<Event>)
    requires WorldInv(w) && ValidHandoff(w, evs)
    ensures WorldInv(Final(w, evs))
    decreases |evs|
  {
    hide WorldInv, Next, Enabled;
    if evs == [] {
    } else {
      StepKeepsInv(w, evs[0]);
      RunKeepsInv(Next(w, evs[0]), evs[1..]);
    }
  }

  lemma StartInv(now: Time)
    ensures WorldInv(Start(now))
  {
  }

  /** Every session made by token exchange goes back to one code, redeemed within 60 seconds of its minting
      by the client of the session, and that code to one flow, redeemed within 10 minutes of its start by a
      browser of the same client, with a redirect URI registered for that client. A linking flow leads to
      the linking user. */
  lemma SessionProvenance(now: Time, evs: seq<Event>, sid: Sid)
    requires ValidHandoff(Start(now), evs) && sid in Final(Start(now), evs).back.sessions
    ensures var w := Final(Start(now), evs);
      var s := w.back.sessions[sid];
      && s.token in w.back.codes && s.token in w.back.taken
      && var c := w.back.codes[s.token];
      && c.state in w.front.flows && c.state in w.front.taken
      && var f := w.front.flows[c.state];
      && s.clientId == c.code.clientId == f.flow.clientId
      && s.userId == c.code.userId && (f.flow.linkUserId.Some? ==> f.flow.linkUserId.value == s.userId)
      && c.code.redirectUri == f.flow.redirectUri
      && s.clientId in w.clients && c.code.redirectUri in w.clients[s.clientId]
      && f.at <= w.front.taken[c.state].at <= f.at + 10 * MINUTE
      && w.front.taken[c.state].at <= c.at <= w.back.taken[s.token].at <= c.at + MINUTE
      && w.back.taken[s.token].at <= s.at
  {
    hide Final, FlowTableInv, CallbackInv, CodeTableInv, ExchangeInv;
    StartInv(now);
    RunKeepsInv(Start(now), evs);
    var w := Final(Start(now), evs);
    assert CreatedFor(w.back, w.back.sessions[sid]);
    assert MintedFor(w.front, w.back.codes[w.back.sessions[sid].token]);
  }

  /** One flow yields at most one code and one code at most one session, replays included. */
  lemma OneSessionPerFlow(now: Time, evs: seq<Event>, sid: Sid, sid': Sid)
    requires ValidHandoff(Start(now), evs)
    requires var b := Final(Start(now), evs).back;
      && sid in b.sessions && sid' in b.sessions
      && b.sessions[sid].token in b.codes && b.sessions[sid'].token in b.codes
      && b.codes[b.sessions[sid].token].state == b.codes[b.sessions[sid'].token].state
    ensures sid == sid'
  {
    hide Final, FlowTableInv, FlowTakenInv, CallbackInv, CodeTableInv, CodeTakenInv, ExchangeInv;
    StartInv(now);
    RunKeepsInv(Start(now), evs);
  }

  // --- Burned codes ------------------------------------------------------------------------------------------

  /** The code has been redeemed and nobody is about to turn it into a session. */
  ghost predicate Burned(w: World, tok: Token) {
    && tok in w.back.taken
    && w.back.taken[tok].who in w.pids
    && w.back.taken[tok].who !in w.back.exchanges
    && forall s :: s in w.back.sessions ==> w.back.sessions[s].token != tok
  }

  /** A client presenting a code that was issued to another client burns it. */
  lemma WrongClientBurns(w: World, e: Event)
    requires WorldInv(w) && Enabled(w, e) && e.Present? && e.clientId in w.clients
    requires CodeUsable(w.db, e.token, e.at) && w.db.codes[e.token].code.clientId != e.clientId
    ensures Burned(Next(w, e), e.token)
  {
    hide FlowTableInv, FlowTakenInv, CallbackInv, CodeInv;
    UsableCodeNotTaken(w, e.token);
    forall s | s in w.back.sessions ensures w.back.sessions[s].token != e.token {
      assert CreatedFor(w.back, w.back.sessions[s]);
    }
  }

  lemma BurnedStep(w: World, e: Event, tok: Token)
    requires CodeTableInv(w.db.codes, w.back) && ExchangeInv(w.back) && Enabled(w, e) && Burned(w, tok)
    ensures Burned(Next(w, e), tok)
  {
    if e.Present? && CodeUsable(w.db, e.token, e.at) {
      UsableCodeNotTaken(w, e.token);
    }
  }

  /** A burned code never becomes a session, whatever is presented afterwards. */
  lemma {:induction false} BurnedForGood(w: World, evs: seq<Event>, tok: Token)
    requires WorldInv(w) && ValidHandoff(w, evs) && Burned(w, tok)
    ensures Burned(Final(w, evs), tok)
    decreases |evs|
  {
    hide Next, Enabled, Burned, FlowTableInv, FlowTakenInv, CallbackInv, CodeInv, CodeTableInv, CodeTakenInv, ExchangeInv, SessionInv;
    if evs == [] {
    } else {
      StepKeepsInv(w, evs[0]);
      BurnedStep(w, evs[0], tok);
      BurnedForGood(Next(w, evs[0]), evs[1..], tok);
    }
  }

  lemma StepFirst(w: World, e: Event, rest: seq<Event>)
    requires Enabled(w, e) && ValidHandoff(Next(w, e), rest)
    ensures ValidHandoff(w, [e] + rest) && Final(w, [e] + rest) == Final(Next(w, e), rest)
  {
    hide Next, Enabled;
    assert ([e] + rest)[1..] == rest;
  }

  /** A flow that is begun and recovered, by callback 0. */
  lemma FrontHalf(now: Time, c: ClientId, uri: string, appState: string, verifier: string, link: Option<UserId>, u: UserId, back: Time)
    returns (begin: Event, recover: Event, settle: Event, w0: World, w: World)
    requires c != "" && now <= back <= now + 10 * MINUTE
    ensures begin == Begin("s", "p", c, uri, appState, verifier, link, now)
    ensures w0 == Next(Start(now), Register(c, [uri], now))
    ensures Enabled(Start(now), Register(c, [uri], now)) && Enabled(w0, begin) && Enabled(Next(w0, begin), recover)
    ensures Enabled(Next(Next(w0, begin), recover), settle) && w == Next(Next(Next(w0, begin), recover), settle)
    ensures w.clients == map[c := [uri]] && w.pids == {0} && w.clock == back && w.db.codes == map[]
    ensures w.back == Back(map[], map[], map[], map[])
    ensures w.front.callbacks ==
            map[0 := Callback("s", Flow("p", c, uri, appState, verifier, link), if link.Some? then link else Some(u))]
  {
    begin := Begin("s", "p", c, uri, appState, verifier, link, now);
    recover := Recover(0, "s", "p", back);
    settle := Settle(0, Some(u), back);
    w0 := Next(Start(now), Register(c, [uri], now));
    w := Next(Next(Next(w0, begin), recover), settle);
  }

  /** The code that is minted and exchanged, by exchange 1. */
  lemma BackHalf(w: World, cb: Callback, c: ClientId, at: Time) returns (mint: Event, present: Event, finish: Event, w': World)
    requires w.pids == {0} && c in w.clients && w.db.codes == map[] && w.back == Back(map[], map[], map[], map[])
    requires w.front.callbacks == map[0 := cb] && cb.userId.Some? && cb.flow.clientId == c && w.clock <= at <= w.clock + MINUTE
    ensures Enabled(w, mint) && Enabled(Next(w, mint), present) && Enabled(Next(Next(w, mint), present), finish)
    ensures w' == Next(Next(Next(w, mint), present), finish) && w'.back.sessions == map[2 := Login(cb.userId.value, c, "t", at)]
  {
    mint := Mint(0, "t", w.clock);
    present := Present(1, c, "t", at);
    finish := Finish(1, true, 2, at);
    w' := Next(Next(Next(w, mint), present), finish);
  }

  /** And there is a run that gets there: a client that is registered, a flow that comes back within ten minutes and a
      code that is exchanged within the next minute lead to a session of the linking user, or else of the one
      the callback settles on. */
  lemma HandoffCompletes(now: Time, c: ClientId, uri: string, appState: string, verifier: string, link: Option<UserId>, u: UserId, back: Time, at: Time)
    returns (evs: seq<Event>)
    requires c != "" && now <= back <= now + 10 * MINUTE && back <= at <= back + MINUTE
    ensures ValidHandoff(Start(now), evs)
    ensures Final(Start(now), evs).back.sessions == map[2 := Login(if link.Some? then link.value else u, c, "t", at)]
  {
    hide Next, Enabled, ValidHandoff, Final;
    var begin, recover, settle, w0, w := FrontHalf(now, c, uri, appState, verifier, link, u, back);
    var mint, present, finish, w' := BackHalf(w, w.front.callbacks[0], c, at);
    NothingLeft(w');
    StepFirst(Next(Next(w, mint), present), finish, []);
    StepFirst(Next(w, mint), present, [finish] + []);
    StepFirst(w, mint, [present] + ([finish] + []));
    var rest := [mint] + ([present] + ([finish] + []));
    StepFirst(Next(Next(w0, begin), recover), settle, rest);
    StepFirst(Next(w0, begin), recover, [settle] + rest);
    StepFirst(w0, begin, [recover] + ([settle] + rest));
    StepFirst(Start(now), Register(c, [uri], now), [begin] + ([recover] + ([settle] + rest)));
    evs := [Register(c, [uri], now)] + ([begin] + ([recover] + ([settle] + rest)));
  }

  lemma NothingLeft(w: World)
    ensures ValidHandoff(w, []) && Final(w, []) == w
  {
  }
}
