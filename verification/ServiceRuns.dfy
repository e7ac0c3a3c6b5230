/** Runs of the whole service: where every session comes from, and what disabling a user does. */
module ServiceRuns {
  import opened Prelude
  import opened Accounts
  import opened OtpIdentifiers
  import opened Passwords
  import opened Service
  import Codes
  import CodeRuns
  import OAuthStores
  import OAuthHandoff
  import Sessions
  import SessionRuns
  import SessionGuarantees
  import SessionStores
  import SessionHandlers

  ghost predicate ValidRun(w: World, evs: seq<Request>, kdf: Kdf)
    decreases |evs|
  {
    evs == [] || (Enabled(w, evs[0]) && ValidRun(Next(w, evs[0], kdf), evs[1..], kdf))
  }

  ghost function Final(w: World, evs: seq<Request>, kdf: Kdf): World
    decreases |evs|
  {
    if evs == [] then w else Final(Next(w, evs[0], kdf), evs[1..], kdf)
  }

  /** The stores are ones their own transactions leave behind, and agree with each other. */
  ghost predicate WorldOk(w: World) {
    && SessionRuns.Reachable(w.sessions) && w.sessions.clock <= w.clock
    && CodeRuns.Reachable(w.codes) && w.codes.clock <= w.clock
    && TablesInv(w.t)
    && w.disabled <= w.t.users.Keys
    && w.oauth.flows.Keys <= w.minted && w.oauth.codes.Keys <= w.minted
  }

  // --- Every request keeps the stores in order ------------------------------------------------------

  lemma OneSessionEvent(d: Sessions.Db, e: Sessions.Event)
    ensures SessionRuns.Final(d, [e]) == Sessions.Apply(d, e).0
    ensures Sessions.Enabled(d, e) ==> SessionRuns.ValidRun(d, [e])
  {
    assert [e][1..] == [];
    assert SessionRuns.Final(Sessions.Apply(d, e).0, []) == Sessions.Apply(d, e).0;
    assert SessionRuns.ValidRun(Sessions.Apply(d, e).0, []);
  }

  lemma TwoSessionEvents(d: Sessions.Db, e: Sessions.Event, e': Sessions.Event)
    ensures SessionRuns.Final(d, [e, e']) == Sessions.Apply(Sessions.Apply(d, e).0, e').0
    ensures Sessions.Enabled(d, e) && Sessions.Enabled(Sessions.Apply(d, e).0, e') ==> SessionRuns.ValidRun(d, [e, e'])
  {
    hide Sessions.Apply, Sessions.Enabled;
    assert [e, e'][1..] == [e'];
    OneSessionEvent(Sessions.Apply(d, e).0, e');
  }

  lemma OneCodeEvent(d: Codes.Db, e: Codes.Event)
    ensures CodeRuns.Final(d, [e]) == Codes.Apply(d, e).0
  {
    assert [e][1..] == [];
    assert CodeRuns.Final(Codes.Apply(d, e).0, []) == Codes.Apply(d, e).0;
  }

  lemma OneCall(d: OAuthStores.Db, c: OAuthStores.Call)
    ensures OAuthAfter(d, [c]) == OAuthStores.Apply(d, c).0
  {
    assert [c][1..] == [];
    assert OAuthAfter(OAuthStores.Apply(d, c).0, []) == OAuthStores.Apply(d, c).0;
  }

  lemma TwoCalls(d: OAuthStores.Db, c: OAuthStores.Call, c': OAuthStores.Call)
    ensures OAuthAfter(d, [c, c']) == OAuthStores.Apply(OAuthStores.Apply(d, c).0, c').0
  {
    hide OAuthStores.Apply;
    assert [c, c'][1..] == [c'];
    OneCall(OAuthStores.Apply(d, c).0, c');
  }

  lemma NoEvents(d: Sessions.Db, c: Codes.Db)
    ensures SessionRuns.Final(d, []) == d && CodeRuns.Final(c, []) == c
  {
  }

  lemma ClockOfSessions(d: Sessions.Db, e: Sessions.Event)
    ensures Sessions.Apply(d, e).0.clock == e.at
  {
  }

  lemma ClockOfCodes(d: Codes.Db, e: Codes.Event)
    ensures Codes.Apply(d, e).0.clock == e.at
  {
  }

  /** What a request asks of the sessions table are transactions it can run at that moment. */
  lemma SessionEventsValid(w: World, e: Request, kdf: Kdf)
    requires w.sessions.clock <= w.clock && Enabled(w, e)
    ensures SessionRuns.ValidRun(w.sessions, SessionEvents(w, e, kdf))
    ensures SessionRuns.Final(w.sessions, SessionEvents(w, e, kdf)).clock <= e.at
  {
    hide ReplyTo, RefreshReply, Sessions.Apply, Sessions.Fresh, Admits;
    var evs := SessionEvents(w, e, kdf);
    if evs == [] {
    } else if |evs| == 1 {
      OneSessionEvent(w.sessions, evs[0]);
      ClockOfSessions(w.sessions, evs[0]);
      assert evs == [evs[0]];
    } else {
      TwoSessionEvents(w.sessions, evs[0], evs[1]);
      ClockOfSessions(w.sessions, evs[0]);
      ClockOfSessions(Sessions.Apply(w.sessions, evs[0]).0, evs[1]);
      assert evs == [evs[0], evs[1]];
    }
  }

  lemma CodeEventsValid(w: World, e: Request)
    requires CodeRuns.Reachable(w.codes) && w.codes.clock <= w.clock && Enabled(w, e)
    ensures CodeRuns.Reachable(CodeRuns.Final(w.codes, CodeEvents(w, e)))
    ensures CodeRuns.Final(w.codes, CodeEvents(w, e)).clock <= e.at
  {
    hide Codes.Apply, CodeRuns.Reachable, Admits;
    var evs := CodeEvents(w, e);
    if evs == [] {
    } else {
      assert evs == [evs[0]];
      OneCodeEvent(w.codes, evs[0]);
      ClockOfCodes(w.codes, evs[0]);
      CodeRuns.ReachableStep(w.codes, evs[0]);
    }
  }

  lemma CallbackTables(w: World, e: Request)
    requires TablesInv(w.t) && Enabled(w, e) && e.Callback?
    ensures TablesInv(TablesAfter(w, e)) && w.t.users.Keys <= TablesAfter(w, e).users.Keys
  {
    hide TablesInv, Resolution, Attachment;
    if e.profile.Some? {
      ResolutionKeepsTables(w.t, e.provider, e.profile.value, e.newUserId, e.at);
      if OAuthStores.FlowUsable(w.oauth, e.state, e.at) && w.oauth.flows[e.state].flow.linkUserId.Some? {
        AttachmentKeepsTables(w.t, w.oauth.flows[e.state].flow.linkUserId.value, e.provider, e.profile.value);
      }
    }
  }

  lemma TablesStep(w: World, e: Request)
    requires TablesInv(w.t) && Enabled(w, e)
    ensures TablesInv(TablesAfter(w, e)) && w.t.users.Keys <= TablesAfter(w, e).users.Keys
  {
    hide Codes.Apply, Admits, TablesInv, Marked, WithUser;
    if e.Callback? {
      CallbackTables(w, e);
    } else if e.Register? {
      if EmailFree(w.t, e.email) {
        WithUserKeepsTables(w.t, e.newUserId, e.email);
        WithUserAdds(w.t, e.newUserId, e.email);
      }
    } else if e.VerifyEmail? {
      if Redemption(w, Codes.EmailVerify, e.token, e.at).Redeemed? {
        MarkedKeepsTables(w.t, Redemption(w, Codes.EmailVerify, e.token, e.at).identifier, e.at);
      }
    } else if e.OtpVerify? {
      NoOwnerIsFree(w.t, e.email);
      if UserByEmail(w.t, e.email).Some? {
        MarkedKeepsTables(w.t, UserByEmail(w.t, e.email).value, e.at);
      } else {
        WithUserKeepsTables(w.t, e.newUserId, e.email);
        WithUserAdds(w.t, e.newUserId, e.email);
        MarkedKeepsTables(WithUser(w.t, e.newUserId, User(e.email, None, None)), e.newUserId, e.at);
      }
    }
  }

  lemma WithUserAdds(t: Tables, id: UserId, email: string)
    ensures t.users.Keys <= WithUser(t, id, User(email, None, None)).users.Keys
  {
  }

  lemma CallKeys(d: OAuthStores.Db, c: OAuthStores.Call)
    ensures OAuthStores.Apply(d, c).0.flows.Keys <= d.flows.Keys + OAuthStores.TokensMinted(c)
    ensures OAuthStores.Apply(d, c).0.codes.Keys <= d.codes.Keys + OAuthStores.TokensMinted(c)
  {
  }

  lemma {:induction false} CallsKeys(d: OAuthStores.Db, calls: seq<OAuthStores.Call>, drawn: set<OAuthStores.Token>)
    requires forall k :: 0 <= k < |calls| ==> OAuthStores.TokensMinted(calls[k]) <= drawn
    ensures OAuthAfter(d, calls).flows.Keys <= d.flows.Keys + drawn && OAuthAfter(d, calls).codes.Keys <= d.codes.Keys + drawn
    decreases |calls|
  {
    hide OAuthStores.Apply;
    if calls == [] {
    } else {
      CallKeys(d, calls[0]);
      CallsKeys(OAuthStores.Apply(d, calls[0]).0, calls[1..], drawn);
    }
  }

  lemma CallsDraw(w: World, e: Request, kdf: Kdf)
    ensures forall k :: 0 <= k < |OAuthCalls(w, e, kdf)| ==> OAuthStores.TokensMinted(OAuthCalls(w, e, kdf)[k]) <= Drawn(e)
  {
    hide CallbackReply, Admits, RightSecret, OAuthHandoff.FlowOf;
  }

  lemma OAuthStep(w: World, e: Request, kdf: Kdf)
    requires Enabled(w, e) && w.oauth.flows.Keys <= w.minted && w.oauth.codes.Keys <= w.minted
    ensures Next(w, e, kdf).oauth.flows.Keys <= Next(w, e, kdf).minted && Next(w, e, kdf).oauth.codes.Keys <= Next(w, e, kdf).minted
  {
    hide OAuthCalls, OAuthAfter, TablesAfter, SessionEvents, CodeEvents, CountsAfter, PasswordsAfter;
    CallsDraw(w, e, kdf);
    CallsKeys(w.oauth, OAuthCalls(w, e, kdf), Drawn(e));
  }

  /** Every request keeps the stores in order. */
  lemma StepKeepsOk(w: World, e: Request, kdf: Kdf)
    requires WorldOk(w) && Enabled(w, e)
    ensures WorldOk(Next(w, e, kdf))
  {
    hide SessionRuns.Reachable, CodeRuns.Reachable, TablesInv, SessionEvents, CodeEvents, OAuthCalls, OAuthAfter, TablesAfter, CountsAfter, PasswordsAfter, Enabled;
    assert w.clock <= e.at by { EnabledClock(w, e); }
    SessionEventsValid(w, e, kdf);
    SessionGuarantees.ReachableRun(w.sessions, SessionEvents(w, e, kdf));
    CodeEventsValid(w, e);
    TablesStep(w, e);
    OAuthStep(w, e, kdf);
  }

  lemma EnabledClock(w: World, e: Request)
    requires Enabled(w, e)
    ensures w.clock <= e.at
  {
  }

  lemma {:induction false} RunKeepsOk(w: World, evs: seq<Request>, kdf: Kdf)
    requires WorldOk(w) && ValidRun(w, evs, kdf)
    ensures WorldOk(Final(w, evs, kdf))
    decreases |evs|
  {
    hide WorldOk, Enabled, Next;
    if evs == [] {
    } else {
      StepKeepsOk(w, evs[0], kdf);
      RunKeepsOk(Next(w, evs[0], kdf), evs[1..], kdf);
    }
  }

  lemma EmptyOk(now: Time)
    ensures WorldOk(Empty(now))
  {
    assert SessionRuns.ValidRun(Sessions.EmptyDb(now), []) && SessionRuns.Final(Sessions.EmptyDb(now), []) == Sessions.EmptyDb(now);
    assert CodeRuns.ValidRun(Codes.EmptyDb(now), []) && CodeRuns.Final(Codes.EmptyDb(now), []) == Codes.EmptyDb(now);
  }

  // --- Where sessions come from -------------------------------------------------------------------------

  /** The world in which request number `k` of the run is handled. */
  ghost function At(w: World, evs: seq<Request>, k: nat, kdf: Kdf): World
    requires k <= |evs|
    decreases k
  {
    if k == 0 then w else At(Next(w, evs[0], kdf), evs[1..], k - 1, kdf)
  }

  /** The request proves, in this world, that the user may sign in at the client: a code minted for both and
      redeemed with the client's secret, the address's login code, the password, or registering. */
  ghost predicate Proves(w: World, e: Request, u: UserId, c: ClientId, kdf: Kdf) {
    && c in w.clients && u !in w.disabled
    && match e
       case Exchange(_, authCode, clientId, secret, _, _, _, at) =>
         && c == clientId && u in w.t.users
         && Verify(w.clients[c].secretHash, secret, kdf) == Match
         && OAuthStores.CodeUsable(w.oauth, authCode, at)
         && w.oauth.codes[authCode].code.clientId == c && w.oauth.codes[authCode].code.userId == u
       case OtpVerify(_, clientId, email, code, newUserId, _, _, _, at) =>
         && c == clientId && RightCode(w.codes.rows, c, email, code, at)
         && if EmailFree(w.t, email) then u == newUserId else HasEmail(w.t, u, email)
       case Login(_, clientId, email, password, _, _, _, _) =>
         && c == clientId && HasEmail(w.t, u, email)
         && u in w.passwords && Verify(w.passwords[u], password, kdf) == Match
       case Register(_, clientId, email, _, _, newUserId, _, _, _, _) =>
         c == clientId && u == newUserId && u !in w.t.users && EmailFree(w.t, email)
       case _ => false
  }

  /** An outstanding, unexpired login code of the client and the address is this one. */
  ghost predicate RightCode(rows: Codes.Rows, c: ClientId, email: string, code: string, now: Time) {
    exists i :: CodeOf(rows, c, email, i) && rows[i].secret == code && now <= rows[i].expiresAt
  }

  ghost predicate CodeOf(rows: Codes.Rows, c: ClientId, email: string, i: Codes.Id) {
    Codes.Outstanding(rows, Codes.Key(OtpIdentifier(c, email), Codes.LoginOtp), i)
  }

  lemma AcceptedIsRight(w: World, e: Request)
    requires e.OtpVerify? && Codes.Apply(w.codes, OtpGuess(e)).1 == Codes.Accepted
    ensures RightCode(w.codes.rows, e.clientId, e.email, e.code, e.at)
  {
    var i := Codes.Current(w.codes.rows, OtpGuess(e).key).value;
    assert Codes.Newest(w.codes.rows, OtpGuess(e).key, i);
    assert CodeOf(w.codes.rows, e.clientId, e.email, i);
  }

  /** Tokens are handed out for a new family only to whom the request proves it for. */
  lemma TokensAreProved(w: World, e: Request, kdf: Kdf)
    requires WorldOk(w) && Enabled(w, e) && SignsIn(e) && ReplyTo(w, e, kdf).Tokens?
    ensures Proves(w, e, ReplyTo(w, e, kdf).userId, e.clientId, kdf)
  {
    hide SessionRuns.Reachable, CodeRuns.Reachable, Codes.Apply, Verify, Admits, RightCode;
    if e.OtpVerify? {
      AcceptedIsRight(w, e);
      NoOwnerIsFree(w.t, e.email);
    } else if e.Login? {
      NoOwnerIsFree(w.t, e.email);
    }
  }

  /** Families only ever start with a Create. */
  lemma FamiliesStep(d: Sessions.Db, e: Sessions.Event, f: Sessions.Id)
    requires SessionRuns.Reachable(d) && Sessions.Enabled(d, e)
    ensures f in d.families ==>
      && f in Sessions.Apply(d, e).0.families
      && Sessions.Apply(d, e).0.families[f].userId == d.families[f].userId
      && Sessions.Apply(d, e).0.families[f].clientId == d.families[f].clientId
    ensures f !in d.families && f in Sessions.Apply(d, e).0.families ==>
      && e.Create? && f == e.id
      && Sessions.Apply(d, e).0.families[f].userId == e.userId && Sessions.Apply(d, e).0.families[f].clientId == e.clientId
  {
    hide Sessions.TableInv, Sessions.IndexInv, Sessions.LinkInv, Sessions.ClockInv, Sessions.OrderInv;
    SessionRuns.ReachableInv(d);
    if e.Rotate? && Sessions.RowOfToken(d.rows, e.token).Some? {
      var i := Sessions.RowOfToken(d.rows, e.token).value;
      assert Sessions.HasToken(d.rows, i, e.token);
      hide Sessions.MemberInv;
      SessionRuns.FamilySharesUser(d, i);
    }
  }

  ghost predicate SameLogin(d: Sessions.Db, d': Sessions.Db, f: Sessions.Id) {
    f in d.families ==>
      f in d'.families && d'.families[f].userId == d.families[f].userId && d'.families[f].clientId == d.families[f].clientId
  }

  /** The only families a request adds are those it hands out tokens for. */
  lemma FamiliesRequest(w: World, e: Request, f: Sessions.Id, kdf: Kdf)
    requires WorldOk(w) && Enabled(w, e)
    ensures SameLogin(w.sessions, Next(w, e, kdf).sessions, f)
    ensures f !in w.sessions.families && f in Next(w, e, kdf).sessions.families ==>
      && SignsIn(e) && f == e.sid && ReplyTo(w, e, kdf).Tokens?
      && Next(w, e, kdf).sessions.families[f].userId == ReplyTo(w, e, kdf).userId
      && Next(w, e, kdf).sessions.families[f].clientId == e.clientId
  {
    hide SessionRuns.Reachable, CodeRuns.Reachable, ReplyTo, RefreshReply, Sessions.Apply, Sessions.Fresh, Admits, Sessions.Enabled;
    hide TablesAfter, CodeEvents, OAuthCalls, CountsAfter, PasswordsAfter, CodeRuns.Final, OAuthAfter;
    var d, evs := w.sessions, SessionEvents(w, e, kdf);
    SessionEventsValid(w, e, kdf);
    if evs == [] {
    } else if |evs| == 1 {
      assert evs == [evs[0]];
      OneSessionEvent(d, evs[0]);
      FamiliesStep(d, evs[0], f);
    } else {
      assert evs == [evs[0], evs[1]];
      TwoSessionEvents(d, evs[0], evs[1]);
      FamiliesStep(d, evs[0], f);
      SessionStores.ReachableStep(d, evs[0]);
      FamiliesStep(Sessions.Apply(d, evs[0]).0, evs[1], f);
    }
  }

  /** Request number `k` of the run opened family `f`, having proved that its user may sign in. */
  ghost predicate OpenedAt(w: World, evs: seq<Request>, k: nat, f: Sessions.Id, u: UserId, c: ClientId, kdf: Kdf)
    requires k < |evs|
  {
    SignsIn(evs[k]) && evs[k].sid == f && evs[k].clientId == c && Proves(At(w, evs, k, kdf), evs[k], u, c, kdf)
  }

  /** Every session family goes back to the one request of the run that opened it, for its user and its client:
      a code exchanged with the client's secret, a login code, a password or a registration, of a user who was
      not disabled. */
  lemma {:induction false} SessionOrigin(w: World, evs: seq<Request>, f: Sessions.Id, kdf: Kdf) returns (k: nat)
    requires WorldOk(w) && ValidRun(w, evs, kdf) && f !in w.sessions.families && f in Final(w, evs, kdf).sessions.families
    ensures k < |evs|
    ensures OpenedAt(w, evs, k, f, Final(w, evs, kdf).sessions.families[f].userId, Final(w, evs, kdf).sessions.families[f].clientId, kdf)
    decreases |evs|
  {
    hide WorldOk, Enabled, Next, Proves, ReplyTo;
    k := 0;
    if evs == [] {
    } else {
      var n := Next(w, evs[0], kdf);
      StepKeepsOk(w, evs[0], kdf);
      FamiliesRequest(w, evs[0], f, kdf);
      if f in n.sessions.families {
        TokensAreProved(w, evs[0], kdf);
        LoginStays(n, evs[1..], f, kdf);
      } else {
        var j := SessionOrigin(n, evs[1..], f, kdf);
        k := j + 1;
        assert At(w, evs, k, kdf) == At(n, evs[1..], j, kdf);
      }
    }
  }

  lemma {:induction false} LoginStays(w: World, evs: seq<Request>, f: Sessions.Id, kdf: Kdf)
    requires WorldOk(w) && ValidRun(w, evs, kdf)
    ensures SameLogin(w.sessions, Final(w, evs, kdf).sessions, f)
    decreases |evs|
  {
    hide WorldOk, Enabled, Next;
    if evs == [] {
    } else {
      StepKeepsOk(w, evs[0], kdf);
      FamiliesRequest(w, evs[0], f, kdf);
      LoginStays(Next(w, evs[0], kdf), evs[1..], f, kdf);
    }
  }

  // --- Where codes come from -----------------------------------------------------------------------------

  /** The callback minted the code, for a user who owns the provider's identity it presented. */
  ghost predicate Mints(w: World, e: Request, tok: OAuthStores.Token, c: OAuthStores.AuthCode) {
    && e.Callback? && e.authCode == tok && CallbackReply(w, e) == CodeFor(c.userId)
    && OAuthStores.FlowUsable(w.oauth, e.state, e.at)
    && w.oauth.flows[e.state].flow.clientId == c.clientId && w.oauth.flows[e.state].flow.redirectUri == c.redirectUri
  }

  predicate Creates(call: OAuthStores.Call, tok: OAuthStores.Token, c: OAuthStores.AuthCode) {
    call.CreateCode? && call.token == tok && call.code == c
  }

  lemma {:induction false} CallsAddCode(d: OAuthStores.Db, calls: seq<OAuthStores.Call>, tok: OAuthStores.Token)
    requires tok in OAuthAfter(d, calls).codes
    ensures
      || (tok in d.codes && OAuthAfter(d, calls).codes[tok].code == d.codes[tok].code)
      || exists k :: 0 <= k < |calls| && Creates(calls[k], tok, OAuthAfter(d, calls).codes[tok].code)
    decreases |calls|
  {
    if calls == [] {
    } else {
      var rest := calls[1..];
      CallsAddCode(OAuthStores.Apply(d, calls[0]).0, rest, tok);
      if k :| 0 <= k < |rest| && Creates(rest[k], tok, OAuthAfter(d, calls).codes[tok].code) {
        assert calls[k + 1] == rest[k];
      } else {
        assert Creates(calls[0], tok, OAuthAfter(d, calls).codes[tok].code) ||
               (tok in d.codes && OAuthAfter(d, calls).codes[tok].code == d.codes[tok].code);
      }
    }
  }

  lemma CodesRequest(w: World, e: Request, tok: OAuthStores.Token, kdf: Kdf)
    requires tok in Next(w, e, kdf).oauth.codes
    ensures var c := Next(w, e, kdf).oauth.codes[tok].code;
      (tok in w.oauth.codes && c == w.oauth.codes[tok].code) || Mints(w, e, tok, c)
  {
    hide OAuthAfter, TablesAfter, SessionEvents, CodeEvents, CountsAfter, PasswordsAfter;
    CallsAddCode(w.oauth, OAuthCalls(w, e, kdf), tok);
    CreatedByCallback(w, e, kdf);
  }

  lemma CreatedByCallback(w: World, e: Request, kdf: Kdf)
    ensures forall k :: 0 <= k < |OAuthCalls(w, e, kdf)| && OAuthCalls(w, e, kdf)[k].CreateCode? ==>
      Mints(w, e, OAuthCalls(w, e, kdf)[k].token, OAuthCalls(w, e, kdf)[k].code)
  {
    hide Admits, RightSecret, OAuthHandoff.FlowOf, LinkStep;
  }

  ghost predicate MintedAt(w: World, evs: seq<Request>, k: nat, tok: OAuthStores.Token, c: OAuthStores.AuthCode, kdf: Kdf) {
    k < |evs| && Mints(At(w, evs, k, kdf), evs[k], tok, c)
  }

  /** Every auth code in the table goes back to the callback of the run that minted it, for the user it settled
      on and with the client and redirect URI of the flow it recovered. */
  lemma {:induction false} CodeOrigin(w: World, evs: seq<Request>, tok: OAuthStores.Token, kdf: Kdf)
    requires ValidRun(w, evs, kdf) && tok in Final(w, evs, kdf).oauth.codes
    ensures var c := Final(w, evs, kdf).oauth.codes[tok].code;
      (tok in w.oauth.codes && w.oauth.codes[tok].code == c) || exists k :: MintedAt(w, evs, k, tok, c, kdf)
    decreases |evs|
  {
    hide Enabled, Next, Mints;
    if evs == [] {
    } else {
      var n, rest, c := Next(w, evs[0], kdf), evs[1..], Final(w, evs, kdf).oauth.codes[tok].code;
      CodeOrigin(n, rest, tok, kdf);
      if k: nat :| MintedAt(n, rest, k, tok, c, kdf) {
        assert At(w, evs, k + 1, kdf) == At(n, rest, k, kdf);
        assert MintedAt(w, evs, k + 1, tok, c, kdf);
      } else {
        CodesRequest(w, evs[0], tok, kdf);
        assert Mints(w, evs[0], tok, c) ==> MintedAt(w, evs, 0, tok, c, kdf);
      }
    }
  }

  /** The code will not be redeemed again. */
  predicate Gone(d: OAuthStores.Db, tok: OAuthStores.Token) {
    tok in d.codes ==> d.codes[tok].consumedAt.Some?
  }

  lemma {:induction false} CallsKeepGone(d: OAuthStores.Db, calls: seq<OAuthStores.Call>, tok: OAuthStores.Token)
    requires Gone(d, tok) && forall k :: 0 <= k < |calls| ==> tok !in OAuthStores.TokensMinted(calls[k])
    ensures Gone(OAuthAfter(d, calls), tok)
    decreases |calls|
  {
    if calls == [] {
    } else {
      assert tok !in OAuthStores.TokensMinted(calls[0]);
      CallsKeepGone(OAuthStores.Apply(d, calls[0]).0, calls[1..], tok);
    }
  }

  lemma GoneStep(w: World, e: Request, tok: OAuthStores.Token, kdf: Kdf)
    requires Enabled(w, e) && tok in w.minted && Gone(w.oauth, tok)
    ensures tok in Next(w, e, kdf).minted && Gone(Next(w, e, kdf).oauth, tok)
  {
    hide OAuthCalls, OAuthAfter, TablesAfter, SessionEvents, CodeEvents, CountsAfter, PasswordsAfter, Gone;
    CallsDraw(w, e, kdf);
    CallsKeepGone(w.oauth, OAuthCalls(w, e, kdf), tok);
  }

  lemma {:induction false} GoneForGood(w: World, evs: seq<Request>, tok: OAuthStores.Token, k: nat, kdf: Kdf)
    requires ValidRun(w, evs, kdf) && tok in w.minted && Gone(w.oauth, tok) && k <= |evs|
    ensures Gone(At(w, evs, k, kdf).oauth, tok)
    decreases k
  {
    hide Enabled, Next, Gone;
    if k == 0 {
    } else {
      GoneStep(w, evs[0], tok, kdf);
      GoneForGood(Next(w, evs[0], kdf), evs[1..], tok, k - 1, kdf);
    }
  }

  lemma ExchangeSpends(w: World, e: Request, u: UserId, c: ClientId, kdf: Kdf)
    requires WorldOk(w) && e.Exchange? && Proves(w, e, u, c, kdf) && Admits(w, e)
    ensures e.authCode in Next(w, e, kdf).minted && Gone(Next(w, e, kdf).oauth, e.authCode)
  {
    hide SessionRuns.Reachable, CodeRuns.Reachable, TablesInv, TablesAfter, SessionEvents, CodeEvents, CountsAfter, PasswordsAfter, Verify, Admits;
    var call := OAuthStores.ConsumeCode(e.authCode, e.at);
    assert OAuthCalls(w, e, kdf) == [call];
    assert [call][1..] == [] && OAuthAfter(OAuthStores.Apply(w.oauth, call).0, []) == OAuthStores.Apply(w.oauth, call).0;
    assert OAuthAfter(w.oauth, [call]) == OAuthStores.Apply(w.oauth, call).0;
  }

  /** A code opens one session family: of two exchanges of it in a run, the later one proves nothing. */
  lemma {:induction false} CodeOpensOnce(w: World, evs: seq<Request>, k: nat, l: nat, u: UserId, c: ClientId, u': UserId, c': ClientId, kdf: Kdf)
    requires WorldOk(w) && ValidRun(w, evs, kdf) && k < l < |evs|
    requires evs[k].Exchange? && evs[l].Exchange? && evs[k].authCode == evs[l].authCode
    requires Admits(At(w, evs, k, kdf), evs[k]) && Proves(At(w, evs, k, kdf), evs[k], u, c, kdf)
    ensures !Proves(At(w, evs, l, kdf), evs[l], u', c', kdf)
    decreases k
  {
    hide WorldOk, Enabled, Next, Admits, Gone;
    var n := Next(w, evs[0], kdf);
    if k == 0 {
      ExchangeSpends(w, evs[0], u, c, kdf);
      GoneForGood(n, evs[1..], evs[l].authCode, l - 1, kdf);
      GoneProvesNothing(At(w, evs, l, kdf), evs[l], u', c', kdf);
    } else {
      StepKeepsOk(w, evs[0], kdf);
      CodeOpensOnce(n, evs[1..], k - 1, l - 1, u, c, u', c', kdf);
    }
  }

  lemma GoneProvesNothing(w: World, e: Request, u: UserId, c: ClientId, kdf: Kdf)
    requires e.Exchange? && Gone(w.oauth, e.authCode)
    ensures !Proves(w, e, u, c, kdf)
  {
  }

  // --- Disabled users --------------------------------------------------------------------------------------

  /** A live session row of the user. */
  ghost predicate LiveRow(d: Sessions.Db, u: UserId, i: Sessions.Id) {
    i in d.rows && d.rows[i].userId == u && d.rows[i].revokedAt.None?
  }

  lemma SessionStepGains(d: Sessions.Db, e: Sessions.Event, u: UserId, i: Sessions.Id)
    requires SessionRuns.Reachable(d) && Sessions.Enabled(d, e) && LiveRow(Sessions.Apply(d, e).0, u, i) && !LiveRow(d, u, i)
    ensures e.Create? ==> e.userId == u
    ensures e.Rotate? ==> Sessions.Apply(d, e).1.Issued? && Sessions.Apply(d, e).1.session.userId == u
    ensures e.Create? || e.Rotate?
  {
    hide Sessions.MemberInv, Sessions.IndexInv, Sessions.LinkInv, Sessions.ClockInv, Sessions.OrderInv;
    SessionRuns.ReachableInv(d);
    if e.Rotate? && Sessions.RowOfToken(d.rows, e.token).Some? {
      var j := Sessions.RowOfToken(d.rows, e.token).value;
      assert Sessions.HasToken(d.rows, j, e.token);
    }
  }

  /** A request of whatever kind leaves a disabled user no session that was not live before. */
  lemma DisabledGainsNothing(w: World, e: Request, u: UserId, i: Sessions.Id, kdf: Kdf)
    requires WorldOk(w) && Enabled(w, e) && u in w.disabled && LiveRow(Next(w, e, kdf).sessions, u, i)
    ensures LiveRow(w.sessions, u, i)
  {
    hide SessionRuns.Reachable, CodeRuns.Reachable, ReplyTo, Sessions.Apply, Sessions.Fresh, Admits, Sessions.Enabled, Proves;
    hide TablesAfter, CodeEvents, OAuthCalls, CountsAfter, PasswordsAfter, CodeRuns.Final, OAuthAfter, RefreshReply;
    if !LiveRow(w.sessions, u, i) {
      var d, evs := w.sessions, SessionEvents(w, e, kdf);
      SessionEventsValid(w, e, kdf);
      if |evs| == 1 {
        assert evs == [evs[0]];
        OneSessionEvent(d, evs[0]);
        SessionStepGains(d, evs[0], u, i);
        if SignsIn(e) {
          TokensAreProved(w, e, kdf);
          ProvedIsEnabled(w, e, ReplyTo(w, e, kdf).userId, e.clientId, kdf);
        } else {
          RefreshOfDisabled(w, e, u);
        }
      } else if evs != [] {
        assert evs == [evs[0], evs[1]];
        TwoSessionEvents(d, evs[0], evs[1]);
        SessionStores.ReachableStep(d, evs[0]);
        if !LiveRow(Sessions.Apply(d, evs[0]).0, u, i) {
          SessionStepGains(Sessions.Apply(d, evs[0]).0, evs[1], u, i);
        } else {
          SessionStepGains(d, evs[0], u, i);
          RevokedIsNotLive(Sessions.Apply(d, evs[0]).0, evs[1], u, i);
        }
      }
    }
  }

  lemma ProvedIsEnabled(w: World, e: Request, u: UserId, c: ClientId, kdf: Kdf)
    requires Proves(w, e, u, c, kdf)
    ensures u !in w.disabled
  {
  }

  /** A refresh that issues a row for a disabled user goes on to revoke. */
  lemma RefreshOfDisabled(w: World, e: Request, u: UserId)
    requires e.Refresh? && Admits(w, e) && u in w.disabled && w.disabled <= w.t.users.Keys
    requires Sessions.Apply(w.sessions, RotateOf(e)).1.Issued? && Sessions.Apply(w.sessions, RotateOf(e)).1.session.userId == u
    ensures RefreshReply(w, e) == Denied(AccountDisabled)
  {
    hide Sessions.Apply, Admits;
  }

  lemma RevokedIsNotLive(d: Sessions.Db, e: Sessions.Event, u: UserId, i: Sessions.Id)
    requires e.RevokeAllForUser? && e.userId == u
    ensures !LiveRow(Sessions.Apply(d, e).0, u, i)
  {
  }

  /** Nobody clears the user's disabled_at. */
  predicate StaysDisabled(evs: seq<Request>, u: UserId) {
    forall k :: 0 <= k < |evs| && evs[k].SetDisabled? && evs[k].userId == u ==> evs[k].on
  }

  /** Over every run during which a user stays disabled, the user's live sessions are among those that were live
      when it began: none is opened, and none is rotated into a live one. */
  lemma {:induction false} DisabledStaysOut(w: World, evs: seq<Request>, u: UserId, i: Sessions.Id, kdf: Kdf)
    requires WorldOk(w) && ValidRun(w, evs, kdf) && u in w.disabled && StaysDisabled(evs, u)
    requires LiveRow(Final(w, evs, kdf).sessions, u, i)
    ensures LiveRow(w.sessions, u, i)
    decreases |evs|
  {
    hide WorldOk, Enabled, Next, LiveRow;
    if evs == [] {
    } else {
      var n := Next(w, evs[0], kdf);
      StepKeepsOk(w, evs[0], kdf);
      assert u in n.disabled by { StillDisabled(w, evs[0], u, kdf); }
      DisabledStaysOut(n, evs[1..], u, i, kdf);
      DisabledGainsNothing(w, evs[0], u, i, kdf);
    }
  }

  lemma StillDisabled(w: World, e: Request, u: UserId, kdf: Kdf)
    requires u in w.disabled && (e.SetDisabled? && e.userId == u ==> e.on)
    ensures u in Next(w, e, kdf).disabled
  {
    hide TablesAfter, SessionEvents, CodeEvents, OAuthCalls, CountsAfter, PasswordsAfter;
  }

  // --- What ends an access token -----------------------------------------------------------------------------

  /** The transactions a run of requests asks of the sessions table. */
  ghost function SessionRun(w: World, evs: seq<Request>, kdf: Kdf): seq<Sessions.Event>
    decreases |evs|
  {
    if evs == [] then [] else SessionEvents(w, evs[0], kdf) + SessionRun(Next(w, evs[0], kdf), evs[1..], kdf)
  }

  lemma {:induction false} SessionRunIsRun(w: World, evs: seq<Request>, kdf: Kdf)
    requires WorldOk(w) && ValidRun(w, evs, kdf)
    ensures SessionRuns.ValidRun(w.sessions, SessionRun(w, evs, kdf))
    ensures SessionRuns.Final(w.sessions, SessionRun(w, evs, kdf)) == Final(w, evs, kdf).sessions
    decreases |evs|
  {
    hide SessionEvents, TablesAfter, CodeEvents, OAuthCalls, CountsAfter, PasswordsAfter, Enabled, SessionRuns.Reachable, CodeRuns.Reachable, TablesInv;
    if evs == [] {
    } else {
      StepKeepsOk(w, evs[0], kdf);
      SessionEventsValid(w, evs[0], kdf);
      SessionRunIsRun(Next(w, evs[0], kdf), evs[1..], kdf);
      SessionGuarantees.ValidConcat(w.sessions, SessionEvents(w, evs[0], kdf), SessionRun(Next(w, evs[0], kdf), evs[1..], kdf));
    }
  }

  /** Disabling a user does not stop an access token: it ends nothing. The user's next refresh does. */
  lemma DisablingEndsNothing(w: World, u: UserId, i: Sessions.Id, at: Time, kdf: Kdf)
    requires WorldOk(w) && u in w.t.users && LiveRow(w.sessions, u, i) && w.clock <= at
    ensures u in Next(w, SetDisabled(u, true, at), kdf).disabled
    ensures ReplyTo(Next(w, SetDisabled(u, true, at), kdf), Access(Some(i), at), kdf) == Checked(SessionHandlers.Admitted)
  {
    hide SessionRuns.Reachable, CodeRuns.Reachable, TablesInv;
  }
}
