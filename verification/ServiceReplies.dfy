/** When each handler says yes, exactly, and what the caller can then rely on. */
module ServiceReplies {
  import opened Prelude
  import opened Accounts
  import opened OtpIdentifiers
  import opened Passwords
  import opened Service
  import opened ServiceRuns
  import Base64
  import Codes
  import CodeRuns
  import OAuthStores
  import OAuthHandoff
  import Sessions
  import SessionRuns
  import SessionGuarantees
  import SessionHandlers

  // --- internal/httpapi/oauth.go ------------------------------------------------------------------------

  /** A flow is begun if and only if the limit admits the request, the client is known, and the chosen URI is
      among its registered ones. */
  lemma StartExactly(w: World, e: Request, kdf: Kdf)
    requires WorldOk(w) && Enabled(w, e) && e.Start?
    ensures ReplyTo(w, e, kdf) == Done <==>
            (Admits(w, e) && KnownClient(w, e.clientId) &&
             var uris := w.clients[e.clientId].redirectUris;
             e.redirectUri in uris || (e.redirectUri == "" && |uris| == 1))
  {
    hide SessionRuns.Reachable, CodeRuns.Reachable, TablesInv, Admits;
  }

  /** The callback settles on this user: the linking user who gets the provider's identity, or the one it
      resolves to, unless disabled. */
  ghost predicate SettlesOn(w: World, e: Request, u: UserId)
    requires e.Callback?
  {
    && OAuthStores.FlowUsable(w.oauth, e.state, e.at) && e.profile.Some?
    && var f := w.oauth.flows[e.state].flow;
    && f.provider == e.provider && LinkStep(w, e, f).1.Resolved? && LinkStep(w, e, f).1.userId == u
    && (f.linkUserId.None? ==> u !in w.disabled)
  }

  /** A code is minted if and only if the callback settles on its user. That user then owns the provider's
      identity, and is the linking user of a linking flow. */
  lemma CallbackExactly(w: World, e: Request, u: UserId, kdf: Kdf)
    requires WorldOk(w) && Enabled(w, e) && e.Callback?
    ensures ReplyTo(w, e, kdf) == CodeFor(u) <==> SettlesOn(w, e, u)
    ensures SettlesOn(w, e, u) ==>
      var k := Pair(e.provider, e.profile.value.subject);
      && k in Next(w, e, kdf).t.identities && Next(w, e, kdf).t.identities[k].userId == u
      && OAuthHandoff.RightUser(w.oauth.flows[e.state].flow, Some(u))
  {
    hide SessionRuns.Reachable, CodeRuns.Reachable, TablesInv, OAuthAfter, OAuthCalls, CodeRuns.Final, SessionRuns.Final;
    if SettlesOn(w, e, u) {
      ResolvedOwns(w, e, u);
    }
  }

  lemma ResolvedOwns(w: World, e: Request, u: UserId)
    requires e.Callback? && SettlesOn(w, e, u)
    ensures var k := Pair(e.provider, e.profile.value.subject);
      && k in TablesAfter(w, e).identities && TablesAfter(w, e).identities[k].userId == u
      && OAuthHandoff.RightUser(w.oauth.flows[e.state].flow, Some(u))
  {
  }

  /** The state value is spent by any callback, whatever comes of it. */
  lemma CallbackSpendsState(w: World, e: Request, later: Time, kdf: Kdf)
    requires e.Callback? && e.at <= later
    ensures !OAuthStores.FlowUsable(Next(w, e, kdf).oauth, e.state, later)
  {
    hide CallbackReply, TablesAfter, CodeRuns.Final, SessionRuns.Final, OAuthAfter;
    var calls := OAuthCalls(w, e, kdf);
    OneCall(w.oauth, calls[0]);
    if |calls| == 2 {
      assert calls == [calls[0], calls[1]];
      TwoCalls(w.oauth, calls[0], calls[1]);
    } else {
      assert calls == [calls[0]];
    }
  }

  /** Tokens are exchanged for a code if and only if the client's secret is right and the code is usable, was
      issued to this client, and is for a user who is there and enabled; they are that user's. */
  lemma ExchangeExactly(w: World, e: Request, kdf: Kdf)
    requires e.Exchange?
    ensures ReplyTo(w, e, kdf).Tokens? <==>
            (Admits(w, e) && RightSecret(w, e, kdf) && OAuthStores.CodeUsable(w.oauth, e.authCode, e.at) &&
             Deserves(w, w.oauth.codes[e.authCode].code, e.clientId))
    ensures ReplyTo(w, e, kdf).Tokens? ==>
            ReplyTo(w, e, kdf) == Tokens(w.oauth.codes[e.authCode].code.userId, w.clients[e.clientId].audience, e.sid, e.raw)
  {
    hide Admits, Verify;
  }

  /** And what it is told otherwise. */
  lemma ExchangeRefusals(w: World, e: Request, kdf: Kdf)
    requires e.Exchange? && Admits(w, e)
    ensures !RightSecret(w, e, kdf) ==> ReplyTo(w, e, kdf) == Denied(InvalidClient)
    ensures RightSecret(w, e, kdf) && !OAuthStores.CodeUsable(w.oauth, e.authCode, e.at) ==> ReplyTo(w, e, kdf) == Denied(InvalidCode)
    ensures RightSecret(w, e, kdf) <==>
            e.clientId in w.clients && Verify(w.clients[e.clientId].secretHash, e.secret, kdf) == Match
  {
    hide Admits, Verify;
  }

  predicate Deserves(w: World, c: OAuthStores.AuthCode, clientId: ClientId) {
    c.clientId == clientId && c.userId in w.t.users && c.userId !in w.disabled
  }

  /** The right secret spends the code, whoever's it is; without it the code stays as it was. */
  lemma ExchangeSpendsCode(w: World, e: Request, later: Time, kdf: Kdf)
    requires e.Exchange? && e.at <= later
    ensures if Admits(w, e) && RightSecret(w, e, kdf) then !OAuthStores.CodeUsable(Next(w, e, kdf).oauth, e.authCode, later)
            else Next(w, e, kdf).oauth == w.oauth
  {
    hide ExchangeReply, TablesAfter, CodeRuns.Final, SessionRuns.Final, Admits, RightSecret;
    OneCall(w.oauth, OAuthStores.ConsumeCode(e.authCode, e.at));
  }

  // --- internal/httpapi/auth.go ---------------------------------------------------------------------------

  /** Some outstanding, unexpired row holds the emailed token, and was issued to this identifier. */
  ghost predicate Redeemable(rows: Codes.Rows, p: Codes.Purpose, tok: string, now: Time, identifier: string) {
    exists i :: Codes.HoldsToken(rows, p, tok, i) && now <= rows[i].expiresAt && rows[i].key.identifier == identifier
  }

  lemma RedeemedExactly(d: Codes.Db, p: Codes.Purpose, tok: string, now: Time, identifier: string)
    requires CodeRuns.Reachable(d) && Codes.Emailed(p)
    ensures Codes.Apply(d, Codes.Redeem(p, tok, now)).1 == Codes.Redeemed(identifier) <==> Redeemable(d.rows, p, tok, now, identifier)
  {
    hide CodeRuns.Reachable;
    if i :| Codes.HoldsToken(d.rows, p, tok, i) {
      CodeRuns.TokenFindsOneRow(d, p, tok, i);
    }
  }

  /** A reset succeeds if and only if the password is long enough, the limit admits the request and the token
      is redeemable. */
  lemma ResetExactly(w: World, e: Request, kdf: Kdf)
    requires WorldOk(w) && e.Reset?
    ensures ReplyTo(w, e, kdf).Done? <==>
            (10 <= |e.password| && Admits(w, e) &&
             exists u :: Redeemable(w.codes.rows, Codes.PasswordReset, e.token, e.at, u))
  {
    hide SessionRuns.Reachable, CodeRuns.Reachable, TablesInv, Admits, Codes.Apply, Redeemable;
    var r := Redemption(w, Codes.PasswordReset, e.token, e.at);
    if r.Redeemed? {
      RedeemedExactly(w.codes, Codes.PasswordReset, e.token, e.at, r.identifier);
    }
    forall u ensures Redeemable(w.codes.rows, Codes.PasswordReset, e.token, e.at, u) ==> r == Codes.Redeemed(u) {
      RedeemedExactly(w.codes, Codes.PasswordReset, e.token, e.at, u);
    }
  }

  /** After it the new password is the user's, nobody else's password has changed, no session of the user is
      live and no row holds the token. */
  lemma ResetTakesEffect(w: World, e: Request, u: UserId, kdf: Kdf)
    requires WorldOk(w) && Enabled(w, e) && e.Reset? && GivesKeys(kdf) && ReplyTo(w, e, kdf).Done?
    requires Redemption(w, Codes.PasswordReset, e.token, e.at) == Codes.Redeemed(u)
    ensures var n := Next(w, e, kdf);
      && (u in w.t.users ==> u in n.passwords && Verify(n.passwords[u], e.password, kdf) == Match)
      && (forall v :: v != u ==> (v in n.passwords <==> v in w.passwords) && (v in n.passwords ==> n.passwords[v] == w.passwords[v]))
      && SessionHandlers.NoLiveSession(n.sessions.rows, u)
      && Codes.RowOfToken(n.codes.rows, Codes.PasswordReset, e.token) == None
  {
    hide SessionRuns.Reachable, CodeRuns.Reachable, TablesInv, Admits, Codes.Apply, Sessions.Apply, HashWithParams, Verify, OAuthAfter;
    hide SessionRuns.Final, CodeRuns.Final, SessionHandlers.NoLiveSession, Codes.RowOfToken;
    var redeem, revoke := Codes.Redeem(Codes.PasswordReset, e.token, e.at), Sessions.RevokeAllForUser(u, e.at);
    OneCodeEvent(w.codes, redeem);
    CodeRuns.RedeemedIsSpent(w.codes, Codes.PasswordReset, e.token, e.at);
    OneSessionEvent(w.sessions, revoke);
    RevokingAllLeavesNone(w.sessions, u, e.at);
    HashRoundTrip(e.password, e.password, DEFAULT_PARAMS, e.salt, kdf);
  }

  lemma RevokingAllLeavesNone(d: Sessions.Db, u: UserId, now: Time)
    ensures SessionHandlers.NoLiveSession(Sessions.Apply(d, Sessions.RevokeAllForUser(u, now)).0.rows, u)
  {
  }

  /** An address is verified by a link if and only if the limit admits the request and the token is redeemable;
      then the user it was issued to is marked, and nobody else. */
  lemma VerifyEmailExactly(w: World, e: Request, kdf: Kdf)
    requires WorldOk(w) && e.VerifyEmail?
    ensures ReplyTo(w, e, kdf).Done? <==>
            (Admits(w, e) && exists u :: Redeemable(w.codes.rows, Codes.EmailVerify, e.token, e.at, u))
    ensures ReplyTo(w, e, kdf).Done? ==>
      forall u :: Redeemable(w.codes.rows, Codes.EmailVerify, e.token, e.at, u) ==> Next(w, e, kdf).t == Marked(w.t, u, e.at)
    ensures !ReplyTo(w, e, kdf).Done? ==> Next(w, e, kdf).t == w.t
  {
    hide SessionRuns.Reachable, CodeRuns.Reachable, TablesInv, Admits, Codes.Apply, Redeemable, CodeRuns.Final, SessionRuns.Final, OAuthAfter;
    var r := Redemption(w, Codes.EmailVerify, e.token, e.at);
    if r.Redeemed? {
      RedeemedExactly(w.codes, Codes.EmailVerify, e.token, e.at, r.identifier);
    }
    forall u ensures Redeemable(w.codes.rows, Codes.EmailVerify, e.token, e.at, u) ==> r == Codes.Redeemed(u) {
      RedeemedExactly(w.codes, Codes.EmailVerify, e.token, e.at, u);
    }
  }

  /** Tokens are handed out for a password if and only if the limits admit the request, the client is known and
      the address belongs to an enabled user whose stored hash the password matches. */
  lemma LoginExactly(w: World, e: Request, u: UserId, kdf: Kdf)
    requires WorldOk(w) && e.Login?
    ensures ReplyTo(w, e, kdf).Tokens? && ReplyTo(w, e, kdf).userId == u <==>
            (Admits(w, e) && KnownClient(w, e.clientId) && HasEmail(w.t, u, e.email) && u !in w.disabled &&
             u in w.passwords && Verify(w.passwords[u], e.password, kdf) == Match)
  {
    hide SessionRuns.Reachable, CodeRuns.Reachable, Admits, Verify;
    NoOwnerIsFree(w.t, e.email);
  }

  /** Who has registered can log in, with that password or one that derives the same key. */
  lemma RegisteredCanLogIn(w: World, e: Request, l: Request, kdf: Kdf)
    requires WorldOk(w) && Enabled(w, e) && e.Register? && GivesKeys(kdf) && ReplyTo(w, e, kdf).Tokens?
    requires l.Login? && l.email == e.email && l.clientId == e.clientId && Admits(Next(w, e, kdf), l)
    ensures ReplyTo(Next(w, e, kdf), l, kdf) ==
            if SameKey(l.password, e.password, e.salt, kdf) then Tokens(e.newUserId, w.clients[e.clientId].audience, l.sid, l.raw)
            else Denied(InvalidCredentials)
  {
    hide SessionRuns.Reachable, CodeRuns.Reachable, Admits, Verify, HashWithParams, SessionRuns.Final, CodeRuns.Final, OAuthAfter, TablesInv;
    TablesStep(w, e);
    UserByEmailUnique(Next(w, e, kdf).t, e.newUserId, e.email);
    HashRoundTrip(e.password, l.password, DEFAULT_PARAMS, e.salt, kdf);
  }

  predicate SameKey(guess: string, password: string, salt: seq<Base64.Byte>, kdf: Kdf) {
    kdf(guess, salt, DEFAULT_PARAMS.time, DEFAULT_PARAMS.memory, DEFAULT_PARAMS.parallelism, DEFAULT_PARAMS.keyLen) ==
    kdf(password, salt, DEFAULT_PARAMS.time, DEFAULT_PARAMS.memory, DEFAULT_PARAMS.parallelism, DEFAULT_PARAMS.keyLen)
  }

  // --- internal/httpapi/otp.go ----------------------------------------------------------------------------

  /** A login code is sent if and only if both limits admit the request and the client is known; it is then the
      only outstanding one of its client and address. */
  lemma OtpRequestExactly(w: World, e: Request, kdf: Kdf)
    requires WorldOk(w) && Enabled(w, e) && e.OtpRequest?
    ensures ReplyTo(w, e, kdf).Done? <==> (Admits(w, e) && KnownClient(w, e.clientId))
    ensures ReplyTo(w, e, kdf).Done? ==>
      && (forall i :: CodeOf(Next(w, e, kdf).codes.rows, e.clientId, e.email, i) <==> i == e.id)
      && RightCode(Next(w, e, kdf).codes.rows, e.clientId, e.email, e.code, e.at + 10 * MINUTE)
    ensures !ReplyTo(w, e, kdf).Done? ==> Next(w, e, kdf).codes == w.codes
  {
    hide SessionRuns.Reachable, CodeRuns.Reachable, TablesInv, Admits, SessionRuns.Final, CodeRuns.Final, OAuthAfter, Codes.Apply, CodeOf, RightCode;
    NoEvents(w.sessions, w.codes);
    if Admits(w, e) && KnownClient(w, e.clientId) {
      OneCodeEvent(w.codes, CodeEvents(w, e)[0]);
      IssuedAlone(w.codes, CodeEvents(w, e)[0], e.clientId, e.email);
    }
  }

  lemma IssuedAlone(d: Codes.Db, issue: Codes.Event, c: ClientId, email: string)
    requires CodeRuns.Reachable(d) && Codes.Enabled(d, issue) && issue.Issue?
    requires issue.key == Codes.Key(OtpIdentifier(c, email), Codes.LoginOtp)
    ensures var rows := Codes.Apply(d, issue).0.rows;
      (forall i :: CodeOf(rows, c, email, i) <==> i == issue.id) && RightCode(rows, c, email, issue.secret, issue.at + issue.ttl)
  {
    hide CodeRuns.Reachable;
    var rows := Codes.Apply(d, issue).0.rows;
    var m := CodeRuns.ReachableRefines(d);
    CodeRuns.IssueLeavesOneExactly(d, issue);
    assert CodeOf(rows, c, email, issue.id);
  }

  lemma AcceptedExactly(w: World, e: Request)
    requires CodeRuns.Reachable(w.codes) && e.OtpVerify?
    ensures Codes.Apply(w.codes, OtpGuess(e)).1 == Codes.Accepted <==> RightCode(w.codes.rows, e.clientId, e.email, e.code, e.at)
  {
    hide CodeRuns.Reachable;
    if Codes.Apply(w.codes, OtpGuess(e)).1 == Codes.Accepted {
      AcceptedIsRight(w, e);
    }
    if i :| CodeOf(w.codes.rows, e.clientId, e.email, i) && w.codes.rows[i].secret == e.code && e.at <= w.codes.rows[i].expiresAt {
      CodeRuns.AtMostOneOutstanding(w.codes, OtpGuess(e).key, i, i);
      CodeRuns.OutstandingHasAttemptsLeft(w.codes, OtpGuess(e).key, i);
    }
  }

  /** The right code, within the limit and for a known client, and nothing else, signs in the user of the
      address, unless disabled; and leaves the address with a verified user. */
  lemma OtpVerifyExactly(w: World, e: Request, kdf: Kdf)
    requires WorldOk(w) && Enabled(w, e) && e.OtpVerify?
    ensures (ReplyTo(w, e, kdf).Tokens? || ReplyTo(w, e, kdf) == Denied(AccountDisabled)) <==>
            (Admits(w, e) && KnownClient(w, e.clientId) && RightCode(w.codes.rows, e.clientId, e.email, e.code, e.at))
    ensures ReplyTo(w, e, kdf) == Denied(AccountDisabled) ==> OtpUser(w, e) in w.disabled
    ensures ReplyTo(w, e, kdf).Tokens? ==>
            ReplyTo(w, e, kdf) == Tokens(OtpUser(w, e), w.clients[e.clientId].audience, e.sid, e.raw) && OtpUser(w, e) !in w.disabled
  {
    hide SessionRuns.Reachable, CodeRuns.Reachable, TablesInv, Admits, Codes.Apply, RightCode, OtpUser;
    AcceptedExactly(w, e);
  }

  /** What it leaves the users as. */
  lemma OtpVerifyProvesAddress(w: World, e: Request, kdf: Kdf)
    requires WorldOk(w) && Enabled(w, e) && e.OtpVerify?
    ensures var n, ok := Next(w, e, kdf).t, ReplyTo(w, e, kdf).Tokens? || ReplyTo(w, e, kdf) == Denied(AccountDisabled);
      && (ok ==> HasEmail(n, OtpUser(w, e), e.email) && n.users[OtpUser(w, e)].verifiedAt.Some?)
      && (!ok ==> n == w.t)
      && forall u :: u in w.t.users && w.t.users[u].email != e.email ==> u in n.users && n.users[u] == w.t.users[u]
  {
    hide SessionRuns.Reachable, CodeRuns.Reachable, TablesInv, Admits, Codes.Apply, SessionRuns.Final, CodeRuns.Final, OAuthAfter;
    NoOwnerIsFree(w.t, e.email);
  }

  // --- internal/httpapi/sessions.go -------------------------------------------------------------------------

  /** The row's user, who is enabled, and its client are known. */
  predicate MaySignIn(w: World, row: Sessions.Session) {
    row.userId in w.t.users && row.userId !in w.disabled && row.clientId in w.clients
  }

  /** A refresh hands out tokens if and only if the row holding the token can be exchanged and its user, who is
      enabled, and its client are known; they are that user's, for that client. A replay is reported as such. */
  lemma RefreshExactly(w: World, e: Request, i: Sessions.Id, kdf: Kdf)
    requires WorldOk(w) && Enabled(w, e) && e.Refresh? && Admits(w, e) && Sessions.HasToken(w.sessions.rows, i, e.refreshToken)
    ensures var row := w.sessions.rows[i];
      && (ReplyTo(w, e, kdf).Tokens? <==>
            Sessions.Rotatable(row, e.at) && MaySignIn(w, row))
      && (ReplyTo(w, e, kdf).Tokens? ==> ReplyTo(w, e, kdf) == Tokens(row.userId, w.clients[row.clientId].audience, e.sid, e.raw))
      && (ReplyTo(w, e, kdf) == Denied(ReuseDetected) <==> row.usedAt.Some?)
      && (ReplyTo(w, e, kdf) == Denied(AccountDisabled) <==> Sessions.Rotatable(row, e.at) && row.userId in w.disabled)
  {
    hide SessionRuns.Reachable, CodeRuns.Reachable, TablesInv, Admits, Sessions.Apply, Sessions.Fresh;
    SessionGuarantees.RotationOutcome(w.sessions, RotateOf(e), i);
  }

  /** A disabled user who refreshes is left without a live session, and other users' rows as they were. */
  lemma DisabledRefreshRevokes(w: World, e: Request, i: Sessions.Id, kdf: Kdf)
    requires WorldOk(w) && Enabled(w, e) && e.Refresh? && Sessions.HasToken(w.sessions.rows, i, e.refreshToken)
    requires ReplyTo(w, e, kdf) == Denied(AccountDisabled)
    ensures var u, rows := w.sessions.rows[i].userId, Next(w, e, kdf).sessions.rows;
      && SessionHandlers.NoLiveSession(rows, u)
      && forall j :: j in w.sessions.rows && w.sessions.rows[j].userId != u ==> j in rows && rows[j] == w.sessions.rows[j]
  {
    hide SessionRuns.Reachable, CodeRuns.Reachable, TablesInv, Admits, OAuthAfter, CodeRuns.Final, SessionRuns.Final, SessionHandlers.NoLiveSession;
    var rotate, d := RotateOf(e), w.sessions;
    SessionGuarantees.RotationOutcome(d, rotate, i);
    hide Sessions.ApplyRotate;
    var revoke := Sessions.RevokeAllForUser(Sessions.Apply(d, rotate).1.session.userId, e.at);
    TwoSessionEvents(d, rotate, revoke);
    RevokingAllLeavesNone(Sessions.Apply(d, rotate).0, d.rows[i].userId, e.at);
    SessionHandlers.NewRowIsNew(d, rotate, i);
    forall j | j in d.rows && d.rows[j].userId != d.rows[i].userId
      ensures j in Sessions.Apply(d, rotate).0.rows && Sessions.Apply(d, rotate).0.rows[j] == d.rows[j]
    {
      SessionHandlers.NewRowIsNew(d, rotate, j);
    }
  }

  /** A session is deleted if and only if it is the caller's own; then its family is dead, and every row of
      another user is as it was. */
  lemma DeleteSessionExactly(w: World, e: Request, kdf: Kdf)
    requires WorldOk(w) && Enabled(w, e) && e.DeleteSession?
    ensures ReplyTo(w, e, kdf).Done? <==> Owns(w, e.subject, e.id)
    ensures ReplyTo(w, e, kdf).Done? ==> SessionRuns.Dead(Next(w, e, kdf).sessions, w.sessions.rows[e.id].familyId)
    ensures !ReplyTo(w, e, kdf).Done? ==> Next(w, e, kdf).sessions == w.sessions
    ensures forall j :: j in w.sessions.rows && w.sessions.rows[j].userId != e.subject ==>
      j in Next(w, e, kdf).sessions.rows && Next(w, e, kdf).sessions.rows[j] == w.sessions.rows[j]
  {
    hide SessionRuns.Reachable, CodeRuns.Reachable, TablesInv, OAuthAfter, CodeRuns.Final, SessionRuns.Final, SessionRuns.Dead, Sessions.Apply;
    NoEvents(w.sessions, w.codes);
    if Owns(w, e.subject, e.id) {
      RevokedFamilyIsDead(w, e, e.id, kdf);
    }
  }

  /** Revoking the family of a row, as logging out and deleting a session do. */
  lemma RevokedFamilyIsDead(w: World, e: Request, i: Sessions.Id, kdf: Kdf)
    requires WorldOk(w) && Enabled(w, e) && i in w.sessions.rows
    requires SessionEvents(w, e, kdf) == [Sessions.RevokeFamily(w.sessions.rows[i].familyId, e.at)]
    ensures SessionRuns.Dead(Next(w, e, kdf).sessions, w.sessions.rows[i].familyId)
    ensures forall j :: j in w.sessions.rows && w.sessions.rows[j].userId != w.sessions.rows[i].userId ==>
      j in Next(w, e, kdf).sessions.rows && Next(w, e, kdf).sessions.rows[j] == w.sessions.rows[j]
  {
    hide SessionRuns.Reachable, CodeRuns.Reachable, TablesInv, SessionEvents, CodeEvents, OAuthCalls, OAuthAfter, CodeRuns.Final, SessionRuns.Final;
    hide SessionRuns.Dead, Sessions.Apply, TablesAfter, PasswordsAfter, CountsAfter, Sessions.Inv;
    var revoke := Sessions.RevokeFamily(w.sessions.rows[i].familyId, e.at);
    OneSessionEvent(w.sessions, revoke);
    SessionRuns.ReachableInv(w.sessions);
    FamilyIsThere(w.sessions, i);
    SessionRuns.RevokeFamilyKills(w.sessions, revoke);
    forall j | j in w.sessions.rows && w.sessions.rows[j].userId != w.sessions.rows[i].userId
      ensures j in Sessions.Apply(w.sessions, revoke).0.rows && Sessions.Apply(w.sessions, revoke).0.rows[j] == w.sessions.rows[j]
    {
      SessionHandlers.RevokingAFamilySparesOthers(w.sessions, i, e.at, j);
    }
  }

  lemma FamilyIsThere(d: Sessions.Db, i: Sessions.Id)
    requires Sessions.Inv(d) && i in d.rows
    ensures d.rows[i].familyId in d.families
  {
    hide Sessions.IndexInv, Sessions.LinkInv, Sessions.ClockInv, Sessions.OrderInv;
    SessionRuns.FamilySharesUser(d, i);
  }

  /** Over every later run of requests, a session of a dead family is never admitted and its refresh tokens
      never exchanged. */
  lemma DeadForGood(w: World, f: Sessions.Id, i: Sessions.Id, evs: seq<Request>, at: Time, e: Request, kdf: Kdf)
    requires WorldOk(w) && SessionRuns.Dead(w.sessions, f) && i in w.sessions.born && w.sessions.born[i].row.familyId == f
    requires ValidRun(w, evs, kdf) && Enabled(Final(w, evs, kdf), e)
    requires e.Refresh? && e.refreshToken == w.sessions.born[i].row.token
    ensures ReplyTo(Final(w, evs, kdf), Access(Some(i), at), kdf) != Checked(SessionHandlers.Admitted)
    ensures !ReplyTo(Final(w, evs, kdf), e, kdf).Tokens?
  {
    hide SessionRuns.Reachable, CodeRuns.Reachable, TablesInv, Sessions.Apply, SessionRuns.Dead, ValidRun, Final, Admits, Sessions.Fresh;
    SessionRunIsRun(w, evs, kdf);
    RunKeepsOk(w, evs, kdf);
    SessionHandlers.DeadFamilyIsShutOut(w.sessions, f, i, SessionRun(w, evs, kdf), RotateOf(e));
  }
}
