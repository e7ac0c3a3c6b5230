/** The sign-in through a provider as one round trip over requests: what is begun can be called back, and what the
    callback mints can be exchanged, whatever else happens in between. */
module ServiceHandoff {
  import opened Prelude
  import opened Accounts
  import opened Passwords
  import opened Service
  import opened ServiceRuns
  import opened ServiceReplies
  import CodeRuns
  import OAuthStores
  import OAuthHandoff
  import SessionRuns

  type Token = OAuthStores.Token

  // --- Rows nobody presents ---------------------------------------------------------------------------------

  /** The row is as it was, or has been pruned after its expiry. */
  predicate FlowStands(d: OAuthStores.Db, state: Token, row: OAuthStores.FlowRow, now: Time) {
    if state in d.flows then d.flows[state] == row else row.expiresAt < now
  }

  predicate CodeStands(d: OAuthStores.Db, tok: Token, row: OAuthStores.CodeRow, now: Time) {
    if tok in d.codes then d.codes[tok] == row else row.expiresAt < now
  }

  predicate SparesFlow(c: OAuthStores.Call, state: Token) {
    !(c.CreateFlow? && c.state == state) && !(c.ConsumeFlow? && c.state == state)
  }

  predicate SparesCode(c: OAuthStores.Call, tok: Token) {
    !(c.CreateCode? && c.token == tok) && !(c.ConsumeCode? && c.token == tok)
  }

  lemma {:induction false} CallsSpareFlow(d: OAuthStores.Db, calls: seq<OAuthStores.Call>, state: Token, row: OAuthStores.FlowRow, now: Time, at: Time)
    requires FlowStands(d, state, row, now) && now <= at
    requires forall k :: 0 <= k < |calls| ==> calls[k].at == at && SparesFlow(calls[k], state)
    ensures FlowStands(OAuthAfter(d, calls), state, row, at)
    decreases |calls|
  {
    if calls == [] {
    } else {
      CallsSpareFlow(OAuthStores.Apply(d, calls[0]).0, calls[1..], state, row, at, at);
    }
  }

  lemma {:induction false} CallsSpareCode(d: OAuthStores.Db, calls: seq<OAuthStores.Call>, tok: Token, row: OAuthStores.CodeRow, now: Time, at: Time)
    requires CodeStands(d, tok, row, now) && now <= at
    requires forall k :: 0 <= k < |calls| ==> calls[k].at == at && SparesCode(calls[k], tok)
    ensures CodeStands(OAuthAfter(d, calls), tok, row, at)
    decreases |calls|
  {
    if calls == [] {
    } else {
      CallsSpareCode(OAuthStores.Apply(d, calls[0]).0, calls[1..], tok, row, at, at);
    }
  }

  /** A request's calls, and whose tokens they name. */
  lemma CallsOf(w: World, e: Request, kdf: Kdf)
    ensures forall k :: 0 <= k < |OAuthCalls(w, e, kdf)| ==>
      var c := OAuthCalls(w, e, kdf)[k];
      && c.at == e.at
      && (c.CreateFlow? ==> c.state in Drawn(e)) && (c.CreateCode? ==> c.token in Drawn(e))
      && (c.ConsumeFlow? ==> e.Callback? && c.state == e.state)
      && (c.ConsumeCode? ==> e.Exchange? && c.token == e.authCode)
  {
    hide CallbackReply, RightSecret, Admits;
  }

  /** No callback presents the state value, and no exchange the code. */
  predicate NoneReturns(evs: seq<Request>, state: Token) {
    forall k :: 0 <= k < |evs| && evs[k].Callback? ==> evs[k].state != state
  }

  predicate NoneExchanges(evs: seq<Request>, tok: Token) {
    forall k :: 0 <= k < |evs| && evs[k].Exchange? ==> evs[k].authCode != tok
  }

  lemma {:induction false} FlowStays(w: World, evs: seq<Request>, state: Token, row: OAuthStores.FlowRow, kdf: Kdf)
    requires ValidRun(w, evs, kdf) && NoneReturns(evs, state) && state in w.minted && FlowStands(w.oauth, state, row, w.clock)
    ensures FlowStands(Final(w, evs, kdf).oauth, state, row, Final(w, evs, kdf).clock)
    decreases |evs|
  {
    hide OAuthCalls, OAuthAfter, FlowStands;
    if evs == [] {
    } else {
      RequestSparesFlow(w, evs[0], state, row, kdf);
      FlowStays(Next(w, evs[0], kdf), evs[1..], state, row, kdf);
    }
  }

  lemma RequestSparesFlow(w: World, e: Request, state: Token, row: OAuthStores.FlowRow, kdf: Kdf)
    requires Enabled(w, e) && (e.Callback? ==> e.state != state) && state in w.minted && FlowStands(w.oauth, state, row, w.clock)
    ensures FlowStands(Next(w, e, kdf).oauth, state, row, Next(w, e, kdf).clock) && state in Next(w, e, kdf).minted
  {
    hide OAuthCalls, OAuthAfter, FlowStands, TablesAfter, SessionEvents, CodeEvents, CountsAfter, PasswordsAfter;
    CallsOf(w, e, kdf);
    CallsSpareFlow(w.oauth, OAuthCalls(w, e, kdf), state, row, w.clock, e.at);
  }

  lemma {:induction false} CodeStays(w: World, evs: seq<Request>, tok: Token, row: OAuthStores.CodeRow, kdf: Kdf)
    requires ValidRun(w, evs, kdf) && NoneExchanges(evs, tok) && tok in w.minted && CodeStands(w.oauth, tok, row, w.clock)
    ensures CodeStands(Final(w, evs, kdf).oauth, tok, row, Final(w, evs, kdf).clock)
    decreases |evs|
  {
    hide OAuthCalls, OAuthAfter, CodeStands;
    if evs == [] {
    } else {
      RequestSparesCode(w, evs[0], tok, row, kdf);
      CodeStays(Next(w, evs[0], kdf), evs[1..], tok, row, kdf);
    }
  }

  lemma RequestSparesCode(w: World, e: Request, tok: Token, row: OAuthStores.CodeRow, kdf: Kdf)
    requires Enabled(w, e) && (e.Exchange? ==> e.authCode != tok) && tok in w.minted && CodeStands(w.oauth, tok, row, w.clock)
    ensures CodeStands(Next(w, e, kdf).oauth, tok, row, Next(w, e, kdf).clock) && tok in Next(w, e, kdf).minted
  {
    hide OAuthCalls, OAuthAfter, CodeStands, TablesAfter, SessionEvents, CodeEvents, CountsAfter, PasswordsAfter;
    CallsOf(w, e, kdf);
    CallsSpareCode(w.oauth, OAuthCalls(w, e, kdf), tok, row, w.clock, e.at);
  }

  // --- From the start to the callback ---------------------------------------------------------------------------

  /** The flow is that of the start, field by field: its redirect URI is the one asked for, or the client's only one
      where none was, and registered for the client. */
  predicate RecordsStart(clients: map<ClientId, Client>, s: Request, f: OAuthStores.Flow)
    requires s.Start?
  {
    && f.provider == s.provider && f.clientId == s.clientId && f.appState == s.appState
    && f.codeVerifier == s.verifier && f.linkUserId == s.linkUserId
    && s.clientId in clients && f.redirectUri in clients[s.clientId].redirectUris
    && (s.redirectUri != "" ==> f.redirectUri == s.redirectUri)
    && (s.redirectUri == "" && f.redirectUri != "" ==> clients[s.clientId].redirectUris == [f.redirectUri])
  }

  /** What a start stores. */
  lemma StartStores(w: World, s: Request, kdf: Kdf)
    requires s.Start? && ReplyTo(w, s, kdf) == Done
    ensures OAuthHandoff.FlowOf(Registered(w.clients), BeginOf(s)).Some?
    ensures Next(w, s, kdf).oauth ==
            OAuthStores.Apply(w.oauth, OAuthStores.CreateFlow(s.state, OAuthHandoff.FlowOf(Registered(w.clients), BeginOf(s)).value, s.at)).0
    ensures s.state !in w.oauth.flows
  {
    hide TablesAfter, SessionEvents, CodeEvents, CountsAfter, PasswordsAfter, OAuthAfter, OAuthHandoff.FlowOf, Admits;
    OneCall(w.oauth, OAuthStores.CreateFlow(s.state, OAuthHandoff.FlowOf(Registered(w.clients), BeginOf(s)).value, s.at));
  }

  lemma FlowRecordsStart(w: World, s: Request)
    requires s.Start? && OAuthHandoff.FlowOf(Registered(w.clients), BeginOf(s)).Some?
    ensures RecordsStart(w.clients, s, OAuthHandoff.FlowOf(Registered(w.clients), BeginOf(s)).value)
  {
  }

  /** Whatever other requests run in between, and however often the pruning job: the first callback that presents a
      flow's state value recovers the flow as it was begun if and only if it comes within ten minutes. */
  lemma StartedReturns(w: World, s: Request, evs: seq<Request>, cb: Request, kdf: Kdf)
    requires Enabled(w, s) && s.Start? && ReplyTo(w, s, kdf) == Done
    requires ValidRun(Next(w, s, kdf), evs, kdf) && NoneReturns(evs, s.state)
    requires cb.Callback? && cb.state == s.state && Enabled(Final(Next(w, s, kdf), evs, kdf), cb)
    ensures var w' := Final(Next(w, s, kdf), evs, kdf);
      && (ReplyTo(w', cb, kdf) == Denied(InvalidState) <==> cb.provider != s.provider || s.at + 10 * MINUTE < cb.at)
      && (ReplyTo(w', cb, kdf) != Denied(InvalidState) ==>
            s.state in w'.oauth.flows && RecordsStart(w.clients, s, w'.oauth.flows[s.state].flow))
  {
    hide TablesAfter, SessionEvents, CodeEvents, CountsAfter, PasswordsAfter, OAuthAfter, OAuthCalls, Final, ValidRun, StartReply;
    StartStores(w, s, kdf);
    var n := Next(w, s, kdf);
    FlowStays(n, evs, s.state, n.oauth.flows[s.state], kdf);
    FlowRecordsStart(w, s);
  }

  // --- From the callback to the exchange ----------------------------------------------------------------------------

  /** What a callback stores for the app, and for whom. */
  lemma CallbackStores(w: World, cb: Request, u: UserId, kdf: Kdf)
    requires WorldOk(w) && Enabled(w, cb) && cb.Callback? && ReplyTo(w, cb, kdf) == CodeFor(u)
    ensures cb.state in w.oauth.flows
    ensures var f := w.oauth.flows[cb.state].flow; var n := Next(w, cb, kdf);
      && cb.authCode in n.oauth.codes
      && n.oauth.codes[cb.authCode] ==
           OAuthStores.CodeRow(OAuthStores.AuthCode(u, f.clientId, f.redirectUri), cb.at + MINUTE, None)
      && u in n.t.users
  {
    hide SessionEvents, CodeEvents, CountsAfter, PasswordsAfter, OAuthAfter, SessionRuns.Reachable, CodeRuns.Reachable, TablesInv, SessionRuns.Final, CodeRuns.Final;
    var f := w.oauth.flows[cb.state].flow;
    TwoCalls(w.oauth, OAuthStores.ConsumeFlow(cb.state, cb.at), OAuthStores.CreateCode(cb.authCode, OAuthStores.AuthCode(u, f.clientId, f.redirectUri), cb.at));
    CallbackExactly(w, cb, u, kdf);
    TablesStep(w, cb);
    OwnerIsThere(Next(w, cb, kdf).t, Pair(cb.provider, cb.profile.value.subject));
  }

  lemma OwnerIsThere(t: Tables, k: Pair)
    requires TablesInv(t) && k in t.identities
    ensures t.identities[k].userId in t.users
  {
  }

  lemma {:induction false} UserStays(w: World, evs: seq<Request>, u: UserId, kdf: Kdf)
    requires WorldOk(w) && ValidRun(w, evs, kdf) && u in w.t.users
    ensures u in Final(w, evs, kdf).t.users
    decreases |evs|
  {
    hide SessionRuns.Reachable, CodeRuns.Reachable, TablesInv, Enabled, TablesAfter, SessionEvents, CodeEvents, CountsAfter, PasswordsAfter, OAuthAfter, OAuthCalls;
    if evs == [] {
    } else {
      StepKeepsOk(w, evs[0], kdf);
      TablesStep(w, evs[0]);
      UserStays(Next(w, evs[0], kdf), evs[1..], u, kdf);
    }
  }

  /** Whatever other requests run in between, the first exchange that presents a minted code, with the secret of some
      client, signs in the callback's user, if and only if that client is the one of the flow, the code's minute is
      not over, and the user is not disabled by then. */
  lemma MintedExchanges(w: World, cb: Request, evs: seq<Request>, x: Request, u: UserId, kdf: Kdf)
    requires WorldOk(w) && Enabled(w, cb) && cb.Callback? && ReplyTo(w, cb, kdf) == CodeFor(u)
    requires ValidRun(Next(w, cb, kdf), evs, kdf) && NoneExchanges(evs, cb.authCode)
    requires x.Exchange? && x.authCode == cb.authCode && Enabled(Final(Next(w, cb, kdf), evs, kdf), x)
    requires Admits(Final(Next(w, cb, kdf), evs, kdf), x) && RightSecret(Final(Next(w, cb, kdf), evs, kdf), x, kdf)
    ensures cb.state in w.oauth.flows
    ensures ReplyTo(Final(Next(w, cb, kdf), evs, kdf), x, kdf) ==
            if x.clientId == w.oauth.flows[cb.state].flow.clientId && x.at <= cb.at + MINUTE then
              TokensFor(Final(Next(w, cb, kdf), evs, kdf), u, x.clientId, x.sid, x.raw)
            else Denied(InvalidCode)
  {
    hide SessionRuns.Reachable, CodeRuns.Reachable, TablesInv, TablesAfter, SessionEvents, CodeEvents, CountsAfter, PasswordsAfter, OAuthAfter, OAuthCalls;
    hide Final, ValidRun, CallbackReply, Admits, Verify;
    CallbackStores(w, cb, u, kdf);
    StepKeepsOk(w, cb, kdf);
    var n := Next(w, cb, kdf);
    CodeStays(n, evs, cb.authCode, n.oauth.codes[cb.authCode], kdf);
    UserStays(n, evs, u, kdf);
  }
}
