/** The handlers as they are written, over the stores they call: internal/httpapi/oauth.go, otp.go, auth.go,
    sessions.go and middleware.go, and the pruning job of cmd/authsvc/main.go. Each is proved to reply and to
    leave behind what the service's step does. */
module Handlers {
  import opened Prelude
  import opened Accounts
  import opened OtpIdentifiers
  import opened Passwords
  import opened Service
  import opened ServiceRuns
  import opened ServicePruning
  import opened ServiceReplies
  import Base64
  import RateLimits
  import Codes
  import CodeRuns
  import GuessBound
  import OAuthStores
  import OAuthHandoff
  import Sessions
  import SessionRuns
  import SessionStores
  import SessionHandlers

  /** Exact match against the registered list. */
  method AllowsRedirect(uris: seq<string>, uri: string) returns (ok: bool)
    ensures ok <==> uri in uris
  {
    for i := 0 to |uris|
      invariant uri !in uris[..i]
    {
      if uris[i] == uri {
        return true;
      }
    }
    return false;
  }

  const DUMMY_PASSWORD := "this password matches nothing at all"

  lemma NoCharge(c: RateLimits.Counts)
    ensures Passes(c, []) && Charged(c, []) == c
  {
  }

  lemma OneCharge(c: RateLimits.Counts, e: RateLimits.Event)
    requires e.Allow?
    ensures Passes(c, [e]) == RateLimits.Allowed(c, e) && Charged(c, [e]) == RateLimits.Apply(c, e)
  {
    assert [e][1..] == [];
    assert Passes(RateLimits.Apply(c, e), []) && Charged(RateLimits.Apply(c, e), []) == RateLimits.Apply(c, e);
  }

  lemma TwoCharges(c: RateLimits.Counts, e: RateLimits.Event, e': RateLimits.Event)
    requires e.Allow? && e'.Allow?
    ensures Passes(c, [e, e']) == (RateLimits.Allowed(c, e) && RateLimits.Allowed(RateLimits.Apply(c, e), e'))
    ensures Charged(c, [e, e']) == if RateLimits.Allowed(c, e) then RateLimits.Apply(RateLimits.Apply(c, e), e') else RateLimits.Apply(c, e)
  {
    hide RateLimits.Allowed, RateLimits.Apply;
    assert [e, e'][1..] == [e'];
    OneCharge(RateLimits.Apply(c, e), e');
  }

  lemma MarkedAgain(t: Tables, id: UserId, now: Time)
    requires id in t.users && t.users[id].verifiedAt.Some?
    ensures Marked(t, id, now) == t
  {
    assert t.users[id := t.users[id].(verifiedAt := Coalesce(t.users[id].verifiedAt, now))] == t.users;
  }

  /** Proving control of an inbox finds or creates the account, and verifies it. */
  method ProveAddress(s: Directory, email: string, newUserId: UserId, now: Time) returns (userId: UserId)
    requires TablesInv(s.t) && newUserId !in s.t.users
    modifies s
    ensures TablesInv(s.t) && HasEmail(s.t, userId, email) && s.t.users[userId].verifiedAt.Some?
    ensures HasEmail(old(s.t), userId, email) || (userId == newUserId && EmailFree(old(s.t), email))
    ensures forall u :: u in old(s.t).users && u != userId ==> u in s.t.users && s.t.users[u] == old(s.t).users[u]
    ensures s.t.identities == old(s.t).identities
    ensures userId == if UserByEmail(old(s.t), email).Some? then UserByEmail(old(s.t), email).value else newUserId
    ensures s.t == Marked(if EmailFree(old(s.t), email) then WithUser(old(s.t), newUserId, User(email, None, None)) else old(s.t), userId, now)
  {
    NoOwnerIsFree(s.t, email);
    if u :| u in s.t.users && s.t.users[u].email == email {
      UserByEmailUnique(s.t, u, email);
      userId := u;
    } else {
      userId := newUserId;
      assert EmailFree(s.t, email);
      var created := s.CreateUser(email, newUserId);
    }
    if s.t.users[userId].verifiedAt.None? {
      s.MarkEmailVerified(userId, now);
    } else {
      MarkedAgain(s.t, userId, now);
    }
  }

  // --- What each request comes to ---------------------------------------------------------------------

  lemma StartEffect(w: World, e: Request, kdf: Kdf)
    requires e.Start?
    ensures ReplyTo(w, e, kdf) == StartReply(w, e)
    ensures var f := OAuthHandoff.FlowOf(Registered(w.clients), BeginOf(e));
      && Next(w, e, kdf) == World(w.clients, w.t, w.passwords, w.disabled, w.sessions, w.codes,
           if Admits(w, e) && f.Some? then OAuthStores.Apply(w.oauth, OAuthStores.CreateFlow(e.state, f.value, e.at)).0 else w.oauth,
           Charged(w.counts, Charges(e)), w.minted + {e.state}, e.at)
  {
    hide Admits, OAuthHandoff.FlowOf, OAuthStores.Apply, Charges, Sessions.Apply, Codes.Apply;
    var f := OAuthHandoff.FlowOf(Registered(w.clients), BeginOf(e));
    if f.Some? {
      OneCall(w.oauth, OAuthStores.CreateFlow(e.state, f.value, e.at));
    }
  }

  lemma StartCharges(c: RateLimits.Counts, e: Request)
    requires e.Start?
    ensures Passes(c, Charges(e)) == (e.limited.Some? ==> RateLimits.Allowed(c, RateLimits.Allow("oauth:ip:" + e.limited.value, 60, HOUR, e.at)))
    ensures Charged(c, Charges(e)) ==
            if e.limited.Some? then RateLimits.Apply(c, RateLimits.Allow("oauth:ip:" + e.limited.value, 60, HOUR, e.at)) else c
  {
    if e.limited.Some? {
      OneCharge(c, RateLimits.Allow("oauth:ip:" + e.limited.value, 60, HOUR, e.at));
    }
  }

  lemma CallbackEffect(w: World, e: Request, kdf: Kdf)
    requires e.Callback?
    ensures ReplyTo(w, e, kdf) == CallbackReply(w, e)
    ensures var consumed := OAuthStores.Apply(w.oauth, OAuthStores.ConsumeFlow(e.state, e.at)).0;
      && Next(w, e, kdf) == World(w.clients, TablesAfter(w, e), w.passwords, w.disabled, w.sessions, w.codes,
           if CallbackReply(w, e).CodeFor? then OAuthStores.Apply(consumed, OAuthStores.CreateCode(e.authCode, CodeMinted(w, e), e.at)).0 else consumed,
           w.counts, w.minted + {e.authCode}, e.at)
  {
    hide OAuthStores.Apply, Sessions.Apply, Codes.Apply, LinkStep;
    OneCall(w.oauth, OAuthStores.ConsumeFlow(e.state, e.at));
    if CallbackReply(w, e).CodeFor? {
      TwoCalls(w.oauth, OAuthStores.ConsumeFlow(e.state, e.at), OAuthStores.CreateCode(e.authCode, CodeMinted(w, e), e.at));
    }
  }

  ghost function CodeMinted(w: World, e: Request): OAuthStores.AuthCode
    requires e.Callback? && CallbackReply(w, e).CodeFor?
  {
    OAuthStores.AuthCode(CallbackReply(w, e).userId, w.oauth.flows[e.state].flow.clientId, w.oauth.flows[e.state].flow.redirectUri)
  }

  /** A request that can end in tokens, by its reply. */
  lemma SignInEffect(w: World, e: Request, kdf: Kdf)
    requires SignsIn(e)
    ensures Next(w, e, kdf) == World(w.clients, TablesAfter(w, e), PasswordsAfter(w, e, kdf), w.disabled,
      if ReplyTo(w, e, kdf).Tokens? then Sessions.Apply(w.sessions, CreateOf(e, ReplyTo(w, e, kdf).userId)).0 else w.sessions,
      CodeRuns.Final(w.codes, CodeEvents(w, e)), OAuthAfter(w.oauth, OAuthCalls(w, e, kdf)),
      Charged(w.counts, Charges(e)), w.minted, e.at)
  {
    hide OAuthStores.Apply, Sessions.Apply, Codes.Apply, ReplyTo, Admits, Charges, CodeEvents, OAuthCalls, TablesAfter, PasswordsAfter, CodeRuns.Final, OAuthAfter;
    assert w.minted + Drawn(e) == w.minted;
    if ReplyTo(w, e, kdf).Tokens? {
      OneSessionEvent(w.sessions, CreateOf(e, ReplyTo(w, e, kdf).userId));
    }
  }

  function CreateOf(e: Request, u: UserId): Sessions.Event
    requires SignsIn(e)
  {
    Sessions.Create(u, e.clientId, e.sid, e.raw, e.meta, e.at)
  }

  lemma ExchangeEffect(w: World, e: Request, kdf: Kdf)
    requires e.Exchange?
    ensures ReplyTo(w, e, kdf) == ExchangeReply(w, e, kdf)
    ensures Next(w, e, kdf) == World(w.clients, w.t, w.passwords, w.disabled,
      if ExchangeReply(w, e, kdf).Tokens? then Sessions.Apply(w.sessions, CreateOf(e, ExchangeReply(w, e, kdf).userId)).0 else w.sessions,
      w.codes,
      if Admits(w, e) && RightSecret(w, e, kdf) then OAuthStores.Apply(w.oauth, OAuthStores.ConsumeCode(e.authCode, e.at)).0 else w.oauth,
      Charged(w.counts, Charges(e)), w.minted, e.at)
  {
    hide OAuthStores.Apply, Sessions.Apply, Codes.Apply, ExchangeReply, Admits, RightSecret, Charges, Next;
    SignInEffect(w, e, kdf);
    OneCall(w.oauth, OAuthStores.ConsumeCode(e.authCode, e.at));
  }

  lemma RegisterEffect(w: World, e: Request, kdf: Kdf)
    requires e.Register?
    ensures ReplyTo(w, e, kdf) == RegisterReply(w, e)
    ensures var ok := RegisterReply(w, e).Tokens?;
      Next(w, e, kdf) == World(w.clients, if ok then WithUser(w.t, e.newUserId, User(e.email, None, None)) else w.t,
        if ok then w.passwords[e.newUserId := HashWithParams(e.password, DEFAULT_PARAMS, e.salt, kdf)] else w.passwords, w.disabled,
        if ok then Sessions.Apply(w.sessions, CreateOf(e, e.newUserId)).0 else w.sessions,
        w.codes, w.oauth, Charged(w.counts, Charges(e)), w.minted, e.at)
  {
    hide OAuthStores.Apply, Sessions.Apply, Codes.Apply, Admits, Charges, HashWithParams, Next;
    SignInEffect(w, e, kdf);
  }

  lemma LoginEffect(w: World, e: Request, kdf: Kdf)
    requires e.Login?
    ensures ReplyTo(w, e, kdf) == LoginReply(w, e, kdf)
    ensures Next(w, e, kdf) == World(w.clients, w.t, w.passwords, w.disabled,
      if LoginReply(w, e, kdf).Tokens? then Sessions.Apply(w.sessions, CreateOf(e, LoginReply(w, e, kdf).userId)).0 else w.sessions,
      w.codes, w.oauth, Charged(w.counts, Charges(e)), w.minted, e.at)
  {
    hide OAuthStores.Apply, Sessions.Apply, Codes.Apply, LoginReply, Charges, Next;
    SignInEffect(w, e, kdf);
  }

  lemma OtpVerifyEffect(w: World, e: Request, kdf: Kdf)
    requires e.OtpVerify?
    ensures ReplyTo(w, e, kdf) == OtpVerifyReply(w, e)
    ensures Next(w, e, kdf) == World(w.clients, TablesAfter(w, e), w.passwords, w.disabled,
      if OtpVerifyReply(w, e).Tokens? then Sessions.Apply(w.sessions, CreateOf(e, OtpVerifyReply(w, e).userId)).0 else w.sessions,
      if Admits(w, e) && KnownClient(w, e.clientId) then Codes.Apply(w.codes, OtpGuess(e)).0 else w.codes,
      w.oauth, Charged(w.counts, Charges(e)), w.minted, e.at)
  {
    hide OAuthStores.Apply, Sessions.Apply, Codes.Apply, OtpVerifyReply, Admits, KnownClient, Charges, Next, TablesAfter;
    SignInEffect(w, e, kdf);
    OneCodeEvent(w.codes, OtpGuess(e));
  }

  /** Requests that touch codes and users only. */
  lemma CodeEffect(w: World, e: Request, kdf: Kdf)
    requires e.SendVerification? || e.VerifyEmail? || e.Forgot? || e.OtpRequest?
    ensures ReplyTo(w, e, kdf) ==
            if !e.SendVerification? && !Admits(w, e) then Denied(RateLimited)
            else if e.VerifyEmail? && !Redemption(w, Codes.EmailVerify, e.token, e.at).Redeemed? then Denied(InvalidToken)
            else if e.OtpRequest? && !KnownClient(w, e.clientId) then Denied(UnknownClient)
            else Done
    ensures Next(w, e, kdf) == World(w.clients, TablesAfter(w, e), w.passwords, w.disabled, w.sessions,
      if CodeEvents(w, e) == [] then w.codes else Codes.Apply(w.codes, CodeEvents(w, e)[0]).0,
      w.oauth, Charged(w.counts, Charges(e)), w.minted, e.at)
  {
    hide OAuthStores.Apply, Sessions.Apply, Codes.Apply, Admits, Charges, TablesAfter;
    assert w.minted + Drawn(e) == w.minted;
    if CodeEvents(w, e) != [] {
      assert CodeEvents(w, e) == [CodeEvents(w, e)[0]];
      OneCodeEvent(w.codes, CodeEvents(w, e)[0]);
    }
  }

  lemma ResetEffect(w: World, e: Request, kdf: Kdf)
    requires e.Reset?
    ensures ReplyTo(w, e, kdf) == ResetReply(w, e)
    ensures var tried, redeemed := MIN_PASSWORD_LEN <= |e.password| && Admits(w, e), Redemption(w, Codes.PasswordReset, e.token, e.at);
      && Next(w, e, kdf) == World(w.clients, w.t,
           if tried && redeemed.Redeemed? && redeemed.identifier in w.t.users then
             w.passwords[redeemed.identifier := HashWithParams(e.password, DEFAULT_PARAMS, e.salt, kdf)]
           else w.passwords,
           w.disabled,
           if tried && redeemed.Redeemed? then Sessions.Apply(w.sessions, Sessions.RevokeAllForUser(redeemed.identifier, e.at)).0 else w.sessions,
           if tried then Codes.Apply(w.codes, Codes.Redeem(Codes.PasswordReset, e.token, e.at)).0 else w.codes,
           w.oauth, Charged(w.counts, Charges(e)), w.minted, e.at)
  {
    hide OAuthStores.Apply, Sessions.Apply, Codes.Apply, Admits, Charges, HashWithParams;
    assert w.minted + Drawn(e) == w.minted;
    OneCodeEvent(w.codes, Codes.Redeem(Codes.PasswordReset, e.token, e.at));
    if Redemption(w, Codes.PasswordReset, e.token, e.at).Redeemed? {
      OneSessionEvent(w.sessions, Sessions.RevokeAllForUser(Redemption(w, Codes.PasswordReset, e.token, e.at).identifier, e.at));
    }
  }

  lemma RefreshEffect(w: World, e: Request, kdf: Kdf)
    requires e.Refresh?
    ensures ReplyTo(w, e, kdf) == RefreshReply(w, e)
    ensures var rotated := Sessions.Apply(w.sessions, RotateOf(e));
      && Next(w, e, kdf) == World(w.clients, w.t, w.passwords, w.disabled,
           if !Admits(w, e) then w.sessions
           else if RefreshReply(w, e) == Denied(AccountDisabled) then
             Sessions.Apply(rotated.0, Sessions.RevokeAllForUser(rotated.1.session.userId, e.at)).0
           else rotated.0,
           w.codes, w.oauth, Charged(w.counts, Charges(e)), w.minted, e.at)
  {
    hide OAuthStores.Apply, Sessions.Apply, Codes.Apply, Admits, Charges;
    assert w.minted + Drawn(e) == w.minted;
    OneSessionEvent(w.sessions, RotateOf(e));
    if Admits(w, e) && RefreshReply(w, e) == Denied(AccountDisabled) {
      TwoSessionEvents(w.sessions, RotateOf(e), Sessions.RevokeAllForUser(Sessions.Apply(w.sessions, RotateOf(e)).1.session.userId, e.at));
    }
  }

  /** Requests that revoke, or only look. */
  lemma SessionEffect(w: World, e: Request, kdf: Kdf)
    requires e.Access? || e.Logout? || e.LogoutAll? || e.DeleteSession? || e.ListSessions?
    ensures Next(w, e, kdf) == World(w.clients, w.t, w.passwords, w.disabled,
      if SessionEvents(w, e, kdf) == [] then w.sessions else Sessions.Apply(w.sessions, SessionEvents(w, e, kdf)[0]).0,
      w.codes, w.oauth, w.counts, w.minted, e.at)
  {
    hide OAuthStores.Apply, Sessions.Apply, Codes.Apply;
    assert w.minted + Drawn(e) == w.minted;
    if SessionEvents(w, e, kdf) != [] {
      assert SessionEvents(w, e, kdf) == [SessionEvents(w, e, kdf)[0]];
      OneSessionEvent(w.sessions, SessionEvents(w, e, kdf)[0]);
    }
  }

  lemma PruneEffect(w: World, at: Time, kdf: Kdf)
    ensures Next(w, PruneOnce(at), kdf) == World(w.clients, w.t, w.passwords, w.disabled,
      Sessions.Apply(w.sessions, Sessions.Prune(SESSION_GRACE, at)).0, Codes.Apply(w.codes, Codes.Prune(CODE_GRACE, at)).0,
      OAuthStores.Apply(w.oauth, OAuthStores.Prune(at)).0, RateLimits.Apply(w.counts, RateLimits.Prune(WINDOW_GRACE, at)), w.minted, at)
  {
    hide OAuthStores.Apply, Sessions.Apply, Codes.Apply, RateLimits.Apply;
    assert w.minted + Drawn(PruneOnce(at)) == w.minted;
    OneSessionEvent(w.sessions, Sessions.Prune(SESSION_GRACE, at));
    OneCodeEvent(w.codes, Codes.Prune(CODE_GRACE, at));
    OneCall(w.oauth, OAuthStores.Prune(at));
  }

  /** A clock reading that is not before the service's is not before the stores'. */
  lemma ReadyStores(w: World, e: Request)
    requires WorldOk(w) && Enabled(w, e)
    ensures w.clock <= e.at && w.sessions.clock <= e.at && w.codes.clock <= e.at && TablesInv(w.t)
    ensures forall tok :: tok in Drawn(e) ==> tok !in w.oauth.flows && tok !in w.oauth.codes
    ensures SignsIn(e) || e.Refresh? ==> Sessions.Fresh(w.sessions, e.sid, e.raw)
    ensures e.Callback? || e.Register? || e.OtpVerify? ==> e.newUserId !in w.t.users && e.newUserId !in w.disabled
    ensures CodeEvents(w, e) != [] ==> Codes.Enabled(w.codes, CodeEvents(w, e)[0])
  {
    hide SessionRuns.Reachable, CodeRuns.Reachable, TablesInv, Admits, KnownClient;
  }

  class Api {
    const sessions: SessionStores.SessionStore
    const codes: CodeRuns.CodeStore
    const oauth: OAuthStores.OAuthStore
    const limits: RateLimits.RateLimiter
    const directory: Directory
    const kdf: Kdf
    /** The salt of the hash a login without an account is verified against. */
    const dummySalt: seq<Base64.Byte>
    var clients: map<ClientId, Client>
    var passwords: map<UserId, string>
    var disabled: set<UserId>
    ghost var minted: set<OAuthStores.Token>
    ghost var clock: Time

    /** Everything the service stores. */
    ghost function State(): World
      reads this, sessions, codes, oauth, limits, directory
    {
      World(clients, directory.t, passwords, disabled, sessions.db, codes.db, oauth.db, limits.counts, minted, clock)
    }

    ghost predicate Valid()
      reads this, sessions, codes, oauth, limits, directory
    {
      sessions.Valid() && codes.Valid() && WorldOk(State()) && GivesKeys(kdf)
    }

    constructor (kdf: Kdf, dummySalt: seq<Base64.Byte>, ghost now: Time)
      requires GivesKeys(kdf)
      ensures Valid() && State() == Empty(now) && this.kdf == kdf
    {
      sessions := new SessionStores.SessionStore(now);
      codes := new CodeRuns.CodeStore(now);
      oauth := new OAuthStores.OAuthStore();
      limits := new RateLimits.RateLimiter();
      directory := new Directory();
      this.kdf, this.dummySalt := kdf, dummySalt;
      clients, passwords, disabled, minted, clock := map[], map[], {}, {}, now;
      new;
      EmptyOk(now);
    }

    // --- internal/httpapi/oauth.go --------------------------------------------------------------------

    /** handleOAuthStart, handleLinkStart and beginFlow. */
    method HandleStart(limited: Option<string>, provider: string, clientId: ClientId, requested: string, appState: string,
                       verifier: string, linkUserId: Option<UserId>, state: OAuthStores.Token, now: Time) returns (r: Reply)
      requires Valid() && Enabled(State(), Start(limited, provider, clientId, requested, appState, verifier, linkUserId, state, now))
      modifies this`minted, this`clock, oauth, limits
      ensures Valid()
      ensures var e := Start(limited, provider, clientId, requested, appState, verifier, linkUserId, state, now);
        State() == Next(old(State()), e, kdf) && r == ReplyTo(old(State()), e, kdf)
      ensures var w, e := old(State()), Start(limited, provider, clientId, requested, appState, verifier, linkUserId, state, now);
        r == Done <==>
        (Admits(w, e) && KnownClient(w, clientId) &&
         (requested in clients[clientId].redirectUris || (requested == "" && |clients[clientId].redirectUris| == 1)))
    {
      hide SessionRuns.Reachable, CodeRuns.Reachable, GivesKeys, WorldOk, Next, ReplyTo, Enabled, Passes, Charged, Charges, RateLimits.Apply, RateLimits.Allowed, OAuthStores.Apply;
      ghost var w, e := State(), Start(limited, provider, clientId, requested, appState, verifier, linkUserId, state, now);
      StepKeepsOk(w, e, kdf);
      StartExactly(w, e, kdf);
      StartEffect(w, e, kdf);
      StartCharges(w.counts, e);
      minted, clock := minted + {state}, now;
      if limited.Some? {
        var ok := limits.Allow("oauth:ip:" + limited.value, 60, HOUR, now);
        if !ok {
          return Denied(RateLimited);
        }
      }
      if clientId == "" || clientId !in clients {
        return Denied(UnknownClient);
      }
      var uris := clients[clientId].redirectUris;
      var uri := requested;
      if uri == "" && |uris| == 1 {
        uri := uris[0];
      }
      var allowed := AllowsRedirect(uris, uri);
      if !allowed {
        return Denied(InvalidRedirectUri);
      }
      var flow := OAuthStores.Flow(provider, clientId, uri, appState, verifier, linkUserId);
      var stored := oauth.CreateOAuthFlow(state, flow, now);
      r := if stored.Stored? then Done else Denied(Internal);
    }

    /** The linking user, or the enabled one the profile resolves to. */
    method SettleUser(flow: OAuthStores.Flow, provider: string, profile: Profile, newUserId: UserId, now: Time) returns (u: Option<UserId>)
      requires TablesInv(directory.t) && newUserId !in directory.t.users
      modifies directory
      ensures var step := if flow.linkUserId.Some? then Attachment(old(directory.t), flow.linkUserId.value, provider, profile)
                          else Resolution(old(directory.t), provider, profile, newUserId, now);
        && directory.t == step.0
        && u == if step.1.Resolved? && (flow.linkUserId.None? ==> step.1.userId !in disabled) then Some(step.1.userId) else None
    {
      hide Resolution, TablesInv;
      if flow.linkUserId.Some? {
        var linked := LinkToUser(directory, flow.linkUserId.value, provider, profile);
        if !linked.Resolved? {
          return None;
        }
        return flow.linkUserId;
      }
      var res := Resolve(directory, provider, profile, newUserId, now);
      if !res.Resolved? {
        return None;
      }
      if res.userId in disabled {
        return None;
      }
      return Some(res.userId);
    }

    method HandleOAuthCallback(provider: string, state: OAuthStores.Token, profile: Option<Profile>,
                               newUserId: UserId, authCode: OAuthStores.Token, now: Time) returns (r: Reply)
      requires Valid() && Enabled(State(), Callback(provider, state, profile, newUserId, authCode, now))
      modifies this`minted, this`clock, oauth, directory
      ensures Valid()
      ensures var e := Callback(provider, state, profile, newUserId, authCode, now);
        State() == Next(old(State()), e, kdf) && r == ReplyTo(old(State()), e, kdf)
      ensures var w, e := old(State()), Callback(provider, state, profile, newUserId, authCode, now);
        forall u :: r == CodeFor(u) <==> SettlesOn(w, e, u)
    {
      hide SettlesOn, SessionRuns.Reachable, CodeRuns.Reachable, GivesKeys, WorldOk, Next, ReplyTo, Enabled, OAuthStores.Apply, Resolution, Attachment, TablesInv;
      ghost var w, e := State(), Callback(provider, state, profile, newUserId, authCode, now);
      StepKeepsOk(w, e, kdf);
      forall u { CallbackExactly(w, e, u, kdf); }
      ReadyStores(w, e);
      CallbackEffect(w, e, kdf);
      minted, clock := minted + {authCode}, now;
      var got := oauth.ConsumeOAuthFlow(state, now);
      if !got.GotFlow? {
        return Denied(InvalidState);
      }
      var flow := got.flow;
      if flow.provider != provider {
        return Denied(InvalidState);
      }
      if profile.None? {
        return Denied(BackToApp);
      }
      var settled := SettleUser(flow, provider, profile.value, newUserId, now);
      if settled.None? {
        return Denied(BackToApp);
      }
      var userId := settled.value;
      var stored := oauth.CreateAuthCode(authCode, OAuthStores.AuthCode(userId, flow.clientId, flow.redirectUri), now);
      r := if stored.Stored? then CodeFor(userId) else Denied(Internal);
    }

    method HandleTokenExchange(ip: string, authCode: OAuthStores.Token, clientId: ClientId, secret: string, m: Sessions.Meta,
                               sid: Sid, raw: Sessions.Token, now: Time) returns (r: Reply)
      requires Valid() && Enabled(State(), Exchange(ip, authCode, clientId, secret, m, sid, raw, now))
      modifies this`clock, oauth, sessions, limits
      ensures Valid()
      ensures var e := Exchange(ip, authCode, clientId, secret, m, sid, raw, now);
        State() == Next(old(State()), e, kdf) && r == ReplyTo(old(State()), e, kdf)
      ensures var w, e := old(State()), Exchange(ip, authCode, clientId, secret, m, sid, raw, now);
        r.Tokens? <==>
        (Admits(w, e) && RightSecret(w, e, kdf) && OAuthStores.CodeUsable(w.oauth, authCode, now) && Deserves(w, w.oauth.codes[authCode].code, clientId))
    {
      hide Deserves, SessionRuns.Reachable, CodeRuns.Reachable, GivesKeys, WorldOk, Next, ReplyTo, Enabled, Passes, Charged, RateLimits.Apply, RateLimits.Allowed, OAuthStores.Apply, Sessions.Apply, Verify;
      ghost var w, e := State(), Exchange(ip, authCode, clientId, secret, m, sid, raw, now);
      StepKeepsOk(w, e, kdf);
      ExchangeExactly(w, e, kdf);
      ReadyStores(w, e);
      ExchangeEffect(w, e, kdf);
      OneCharge(w.counts, Charges(e)[0]);
      clock := now;
      var ok := limits.Allow("exchange:ip:" + ip, 120, HOUR, now);
      if !ok {
        return Denied(RateLimited);
      }
      if clientId !in clients {
        return Denied(InvalidClient);
      }
      if Verify(clients[clientId].secretHash, secret, kdf) != Match {
        return Denied(InvalidClient);
      }
      var got := oauth.ConsumeAuthCode(authCode, now);
      if !got.GotCode? {
        return Denied(InvalidCode);
      }
      var ac := got.code;
      if ac.clientId != clientId {
        return Denied(InvalidCode);
      }
      if ac.userId !in directory.t.users {
        return Denied(Internal);
      }
      if ac.userId in disabled {
        return Denied(AccountDisabled);
      }
      var s := sessions.CreateSession(ac.userId, clientId, m, sid, raw, now);
      r := Tokens(ac.userId, clients[clientId].audience, s.id, s.token);
    }

    // --- internal/httpapi/auth.go ----------------------------------------------------------------------

    /** The verification mail goes out by SendEmailVerification, on its own. */
    method HandleRegister(ip: string, clientId: ClientId, email: string, password: string, salt: seq<Base64.Byte>, newUserId: UserId,
                          m: Sessions.Meta, sid: Sid, raw: Sessions.Token, now: Time) returns (r: Reply)
      requires Valid() && Enabled(State(), Register(ip, clientId, email, password, salt, newUserId, m, sid, raw, now))
      modifies this`clock, this`passwords, sessions, limits, directory
      ensures Valid()
      ensures var e := Register(ip, clientId, email, password, salt, newUserId, m, sid, raw, now);
        State() == Next(old(State()), e, kdf) && r == ReplyTo(old(State()), e, kdf)
    {
      hide SessionRuns.Reachable, CodeRuns.Reachable, GivesKeys, WorldOk, Next, ReplyTo, Enabled, Passes, Charged, RateLimits.Apply, RateLimits.Allowed, Sessions.Apply, Codes.Apply, HashWithParams;
      ghost var w, e := State(), Register(ip, clientId, email, password, salt, newUserId, m, sid, raw, now);
      StepKeepsOk(w, e, kdf);
      ReadyStores(w, e);
      RegisterEffect(w, e, kdf);
      clock := now;
      if |password| < MIN_PASSWORD_LEN {
        NoCharge(w.counts);
        return Denied(WeakPassword);
      }
      OneCharge(w.counts, Charges(e)[0]);
      var ok := limits.Allow("register:ip:" + ip, 10, HOUR, now);
      if !ok {
        return Denied(RateLimited);
      }
      if clientId == "" || clientId !in clients {
        return Denied(UnknownClient);
      }
      var hash := HashWithParams(password, DEFAULT_PARAMS, salt, kdf);
      var created := directory.CreateUser(email, newUserId);
      if !created {
        return Denied(VerificationSent);
      }
      passwords := passwords[newUserId := hash];
      var s := sessions.CreateSession(newUserId, clientId, m, sid, raw, now);
      r := Tokens(newUserId, clients[clientId].audience, s.id, s.token);
    }

    method HandleLogin(ip: string, clientId: ClientId, email: string, password: string,
                       m: Sessions.Meta, sid: Sid, raw: Sessions.Token, now: Time) returns (r: Reply)
      requires Valid() && Enabled(State(), Login(ip, clientId, email, password, m, sid, raw, now))
      modifies this`clock, sessions, limits
      ensures Valid()
      ensures var e := Login(ip, clientId, email, password, m, sid, raw, now);
        State() == Next(old(State()), e, kdf) && r == ReplyTo(old(State()), e, kdf)
      ensures var w, e := old(State()), Login(ip, clientId, email, password, m, sid, raw, now);
        forall u :: r.Tokens? && r.userId == u <==>
          (Admits(w, e) && KnownClient(w, clientId) && HasEmail(w.t, u, email) && u !in w.disabled &&
           u in w.passwords && Verify(w.passwords[u], password, kdf) == Match)
    {
      hide SessionRuns.Reachable, CodeRuns.Reachable, GivesKeys, WorldOk, Next, ReplyTo, Enabled, Passes, Charged, RateLimits.Apply, RateLimits.Allowed, Sessions.Apply, Codes.Apply, HashWithParams, Verify;
      ghost var w, e := State(), Login(ip, clientId, email, password, m, sid, raw, now);
      StepKeepsOk(w, e, kdf);
      forall u { LoginExactly(w, e, u, kdf); }
      ReadyStores(w, e);
      LoginEffect(w, e, kdf);
      TwoCharges(w.counts, Charges(e)[0], Charges(e)[1]);
      clock := now;
      var ok := limits.Allow("login:ip:" + ip, 30, 15 * MINUTE, now);
      if !ok {
        return Denied(RateLimited);
      }
      ok := limits.Allow("login:id:" + email, 10, 15 * MINUTE, now);
      if !ok {
        return Denied(RateLimited);
      }
      if clientId == "" || clientId !in clients {
        return Denied(UnknownClient);
      }
      NoOwnerIsFree(directory.t, email);
      var stored, userId, known := HashWithParams(DUMMY_PASSWORD, DEFAULT_PARAMS, dummySalt, kdf), "", false;
      if u :| u in directory.t.users && directory.t.users[u].email == email {
        UserByEmailUnique(directory.t, u, email);
        if u in passwords {
          stored, userId, known := passwords[u], u, true;
        }
      } else {
        assert EmailFree(directory.t, email);
      }
      // Verifying against the dummy hash costs the same, and never finds it malformed.
      DummyIsWellFormed(password);
      var verdict := Verify(stored, password, kdf);
      if verdict == InvalidHash {
        return Denied(Internal);
      }
      if !known || verdict != Match {
        return Denied(InvalidCredentials);
      }
      if userId in disabled {
        return Denied(AccountDisabled);
      }
      var s := sessions.CreateSession(userId, clientId, m, sid, raw, now);
      r := Tokens(userId, clients[clientId].audience, s.id, s.token);
    }

    lemma DummyIsWellFormed(password: string)
      requires GivesKeys(kdf)
      ensures Verify(HashWithParams(DUMMY_PASSWORD, DEFAULT_PARAMS, dummySalt, kdf), password, kdf) != InvalidHash
    {
      HashRoundTrip(DUMMY_PASSWORD, password, DEFAULT_PARAMS, dummySalt, kdf);
    }

    /** sendEmailVerification and deliverEmailVerification. */
    method SendEmailVerification(userId: UserId, tok: string, id: Codes.Id, now: Time) returns (r: Reply)
      requires Valid() && Enabled(State(), SendVerification(userId, tok, id, now))
      modifies this`clock, codes
      ensures Valid()
      ensures State() == Next(old(State()), SendVerification(userId, tok, id, now), kdf)
      ensures r == ReplyTo(old(State()), SendVerification(userId, tok, id, now), kdf)
    {
      hide SessionRuns.Reachable, CodeRuns.Reachable, GivesKeys, WorldOk, Next, ReplyTo, Enabled, Codes.Apply;
      ghost var w, e := State(), SendVerification(userId, tok, id, now);
      StepKeepsOk(w, e, kdf);
      ReadyStores(w, e);
      CodeEffect(w, e, kdf);
      clock := now;
      if userId in directory.t.users && directory.t.users[userId].verifiedAt.None? {
        codes.IssueCode(userId, Codes.EmailVerify, tok, EMAIL_VERIFY_TTL, id, now);
      }
      r := Done;
    }

    method HandleEmailVerify(ip: string, tok: string, now: Time) returns (r: Reply)
      requires Valid() && Enabled(State(), VerifyEmail(ip, tok, now))
      modifies this`clock, codes, limits, directory
      ensures Valid()
      ensures State() == Next(old(State()), VerifyEmail(ip, tok, now), kdf) && r == ReplyTo(old(State()), VerifyEmail(ip, tok, now), kdf)
      ensures r.Done? <==>
        (Admits(old(State()), VerifyEmail(ip, tok, now)) && exists u :: Redeemable(old(codes.db).rows, Codes.EmailVerify, tok, now, u))
    {
      hide Redeemable, SessionRuns.Reachable, CodeRuns.Reachable, GivesKeys, WorldOk, Next, ReplyTo, Enabled, Passes, Charged, RateLimits.Apply, RateLimits.Allowed, Codes.Apply;
      ghost var w, e := State(), VerifyEmail(ip, tok, now);
      StepKeepsOk(w, e, kdf);
      VerifyEmailExactly(w, e, kdf);
      ReadyStores(w, e);
      CodeEffect(w, e, kdf);
      OneCharge(w.counts, Charges(e)[0]);
      clock := now;
      var ok := limits.Allow("verify:ip:" + ip, 30, HOUR, now);
      if !ok {
        return Denied(RateLimited);
      }
      var got := codes.ConsumeToken(Codes.EmailVerify, tok, now);
      if !got.Redeemed? {
        return Denied(InvalidToken);
      }
      directory.MarkEmailVerified(got.identifier, now);
      r := Done;
    }

    method HandlePasswordForgot(ip: string, email: string, tok: string, id: Codes.Id, now: Time) returns (r: Reply)
      requires Valid() && Enabled(State(), Forgot(ip, email, tok, id, now))
      modifies this`clock, codes, limits
      ensures Valid()
      ensures State() == Next(old(State()), Forgot(ip, email, tok, id, now), kdf) && r == ReplyTo(old(State()), Forgot(ip, email, tok, id, now), kdf)
    {
      hide SessionRuns.Reachable, CodeRuns.Reachable, GivesKeys, WorldOk, Next, ReplyTo, Enabled, Passes, Charged, RateLimits.Apply, RateLimits.Allowed, Codes.Apply;
      ghost var w, e := State(), Forgot(ip, email, tok, id, now);
      StepKeepsOk(w, e, kdf);
      ReadyStores(w, e);
      CodeEffect(w, e, kdf);
      TwoCharges(w.counts, Charges(e)[0], Charges(e)[1]);
      clock := now;
      var ok := limits.Allow("forgot:ip:" + ip, 10, HOUR, now);
      if !ok {
        return Denied(RateLimited);
      }
      ok := limits.Allow("forgot:id:" + email, 3, HOUR, now);
      if !ok {
        return Denied(RateLimited);
      }
      NoOwnerIsFree(directory.t, email);
      if u :| u in directory.t.users && directory.t.users[u].email == email {
        UserByEmailUnique(directory.t, u, email);
        codes.IssueCode(u, Codes.PasswordReset, tok, PASSWORD_RESET_TTL, id, now);
      } else {
        assert EmailFree(directory.t, email);
      }
      r := Done;
    }

    /** An UPDATE: no effect without the user. */
    method SetPasswordHash(userId: UserId, hash: string)
      modifies this`passwords
      ensures passwords == if userId in directory.t.users then old(passwords)[userId := hash] else old(passwords)
    {
      if userId in directory.t.users {
        passwords := passwords[userId := hash];
      }
    }

    method HandlePasswordReset(ip: string, tok: string, password: string, salt: seq<Base64.Byte>, now: Time) returns (r: Reply)
      requires Valid() && Enabled(State(), Reset(ip, tok, password, salt, now))
      modifies this`clock, this`passwords, codes, sessions, limits
      ensures Valid()
      ensures State() == Next(old(State()), Reset(ip, tok, password, salt, now), kdf) && r == ReplyTo(old(State()), Reset(ip, tok, password, salt, now), kdf)
      ensures r.Done? <==>
        (10 <= |password| && Admits(old(State()), Reset(ip, tok, password, salt, now)) &&
         exists u :: Redeemable(old(codes.db).rows, Codes.PasswordReset, tok, now, u))
    {
      hide Redeemable, SessionRuns.Reachable, CodeRuns.Reachable, GivesKeys, WorldOk, Next, ReplyTo, Enabled, Passes, Charged, RateLimits.Apply, RateLimits.Allowed, Sessions.Apply, Codes.Apply, HashWithParams;
      ghost var w, e := State(), Reset(ip, tok, password, salt, now);
      StepKeepsOk(w, e, kdf);
      ResetExactly(w, e, kdf);
      ReadyStores(w, e);
      ResetEffect(w, e, kdf);
      clock := now;
      if |password| < MIN_PASSWORD_LEN {
        NoCharge(w.counts);
        return Denied(WeakPassword);
      }
      OneCharge(w.counts, Charges(e)[0]);
      var ok := limits.Allow("reset:ip:" + ip, 20, HOUR, now);
      if !ok {
        return Denied(RateLimited);
      }
      var got := codes.ConsumeToken(Codes.PasswordReset, tok, now);
      if !got.Redeemed? {
        return Denied(InvalidToken);
      }
      var hash := HashWithParams(password, DEFAULT_PARAMS, salt, kdf);
      SetPasswordHash(got.identifier, hash);
      sessions.RevokeAllForUser(got.identifier, now);
      r := Done;
    }

    // --- internal/httpapi/otp.go -------------------------------------------------------------------------

    method HandleOTPRequest(ip: string, clientId: ClientId, email: string, code: string, id: Codes.Id, now: Time) returns (r: Reply)
      requires Valid() && Enabled(State(), OtpRequest(ip, clientId, email, code, id, now))
      modifies this`clock, codes, limits
      ensures Valid()
      ensures State() == Next(old(State()), OtpRequest(ip, clientId, email, code, id, now), kdf)
      ensures r == ReplyTo(old(State()), OtpRequest(ip, clientId, email, code, id, now), kdf)
      ensures r.Done? <==> (Admits(old(State()), OtpRequest(ip, clientId, email, code, id, now)) && KnownClient(old(State()), clientId))
    {
      hide SessionRuns.Reachable, CodeRuns.Reachable, GivesKeys, WorldOk, Next, ReplyTo, Enabled, Passes, Charged, RateLimits.Apply, RateLimits.Allowed, Codes.Apply;
      ghost var w, e := State(), OtpRequest(ip, clientId, email, code, id, now);
      StepKeepsOk(w, e, kdf);
      OtpRequestExactly(w, e, kdf);
      ReadyStores(w, e);
      CodeEffect(w, e, kdf);
      TwoCharges(w.counts, Charges(e)[0], Charges(e)[1]);
      clock := now;
      var ok := limits.Allow("otp:ip:" + ip, 20, HOUR, now);
      if !ok {
        return Denied(RateLimited);
      }
      ok := limits.Allow(GuessBound.OTP_BUCKET + email, GuessBound.OTP_REQUESTS_PER_HOUR, HOUR, now);
      if !ok {
        return Denied(RateLimited);
      }
      if clientId == "" || clientId !in clients {
        return Denied(UnknownClient);
      }
      codes.IssueCode(OtpIdentifier(clientId, email), Codes.LoginOtp, code, GuessBound.OTP_TTL, id, now);
      r := Done;
    }

    method HandleOTPVerify(ip: string, clientId: ClientId, email: string, code: string, newUserId: UserId,
                           m: Sessions.Meta, sid: Sid, raw: Sessions.Token, now: Time) returns (r: Reply)
      requires Valid() && Enabled(State(), OtpVerify(ip, clientId, email, code, newUserId, m, sid, raw, now))
      modifies this`clock, codes, limits, directory, sessions
      ensures Valid()
      ensures var e := OtpVerify(ip, clientId, email, code, newUserId, m, sid, raw, now);
        State() == Next(old(State()), e, kdf) && r == ReplyTo(old(State()), e, kdf)
      ensures var w, e := old(State()), OtpVerify(ip, clientId, email, code, newUserId, m, sid, raw, now);
        r.Tokens? || r == Denied(AccountDisabled) <==>
        (Admits(w, e) && KnownClient(w, clientId) && RightCode(w.codes.rows, clientId, email, code, now))
    {
      hide RightCode, SessionRuns.Reachable, CodeRuns.Reachable, GivesKeys, WorldOk, Next, ReplyTo, Enabled, Passes, Charged, RateLimits.Apply, RateLimits.Allowed, Sessions.Apply, Codes.Apply, TablesInv, Marked;
      ghost var w, e := State(), OtpVerify(ip, clientId, email, code, newUserId, m, sid, raw, now);
      StepKeepsOk(w, e, kdf);
      OtpVerifyExactly(w, e, kdf);
      ReadyStores(w, e);
      OtpVerifyEffect(w, e, kdf);
      OneCharge(w.counts, Charges(e)[0]);
      clock := now;
      var ok := limits.Allow("otpv:ip:" + ip, 30, HOUR, now);
      if !ok {
        return Denied(RateLimited);
      }
      if clientId == "" || clientId !in clients {
        return Denied(UnknownClient);
      }
      var got := codes.ConsumeCode(OtpIdentifier(clientId, email), Codes.LoginOtp, code, now);
      if got == Codes.CodeAttempts {
        return Denied(TooManyAttempts);
      }
      if got == Codes.CodeInvalid {
        return Denied(InvalidCode);
      }
      NoOwnerIsFree(directory.t, email);
      var userId := ProveAddress(directory, email, newUserId, now);
      if userId in disabled {
        return Denied(AccountDisabled);
      }
      var s := sessions.CreateSession(userId, clientId, m, sid, raw, now);
      r := Tokens(userId, clients[clientId].audience, s.id, s.token);
    }

    // --- internal/httpapi/sessions.go and middleware.go ------------------------------------------------------

    method HandleRefresh(ip: string, refreshToken: Sessions.Token, m: Sessions.Meta, sid: Sid, raw: Sessions.Token, now: Time) returns (r: Reply)
      requires Valid() && Enabled(State(), Refresh(ip, refreshToken, m, sid, raw, now))
      modifies this`clock, sessions, limits
      ensures Valid()
      ensures var e := Refresh(ip, refreshToken, m, sid, raw, now);
        State() == Next(old(State()), e, kdf) && r == ReplyTo(old(State()), e, kdf)
      ensures var w, e := old(State()), Refresh(ip, refreshToken, m, sid, raw, now);
        forall i :: Sessions.HasToken(w.sessions.rows, i, refreshToken) && Admits(w, e) ==>
          && (r.Tokens? <==> Sessions.Rotatable(w.sessions.rows[i], now) && MaySignIn(w, w.sessions.rows[i]))
          && (r == Denied(ReuseDetected) <==> w.sessions.rows[i].usedAt.Some?)
    {
      hide MaySignIn, SessionRuns.Reachable, CodeRuns.Reachable, GivesKeys, WorldOk, Next, ReplyTo, Enabled, Passes, Charged, RateLimits.Apply, RateLimits.Allowed, Sessions.Apply, Codes.Apply;
      ghost var w, e := State(), Refresh(ip, refreshToken, m, sid, raw, now);
      StepKeepsOk(w, e, kdf);
      forall i | Sessions.HasToken(w.sessions.rows, i, refreshToken) && Admits(w, e) { RefreshExactly(w, e, i, kdf); }
      ReadyStores(w, e);
      RefreshEffect(w, e, kdf);
      OneCharge(w.counts, Charges(e)[0]);
      clock := now;
      var ok := limits.Allow("refresh:ip:" + ip, 120, HOUR, now);
      if !ok {
        return Denied(RateLimited);
      }
      var reply := sessions.Rotate(refreshToken, m, sid, raw, now);
      ClockOfSessions(w.sessions, RotateOf(e));
      if reply == Sessions.TokenReuse {
        return Denied(ReuseDetected);
      }
      if !reply.Issued? {
        return Denied(Unauthorized);
      }
      var s := reply.session;
      if s.userId !in directory.t.users {
        return Denied(Internal);
      }
      if s.userId in disabled {
        sessions.RevokeAllForUser(s.userId, now);
        return Denied(AccountDisabled);
      }
      if s.clientId !in clients {
        return Denied(Internal);
      }
      r := Tokens(s.userId, clients[s.clientId].audience, s.id, s.token);
    }

    method RequireUser(session: Option<Sid>, now: Time) returns (r: Reply)
      requires Valid() && Enabled(State(), Access(session, now))
      modifies this`clock
      ensures Valid()
      ensures State() == Next(old(State()), Access(session, now), kdf) && r == ReplyTo(old(State()), Access(session, now), kdf)
    {
      hide SessionRuns.Reachable, CodeRuns.Reachable, GivesKeys, WorldOk, Next, Enabled;
      StepKeepsOk(State(), Access(session, now), kdf);
      SessionEffect(State(), Access(session, now), kdf);
      clock := now;
      if session.Some? {
        if session.value !in sessions.rows {
          return Checked(SessionHandlers.NoSession);
        }
        if sessions.rows[session.value].revokedAt.Some? {
          return Checked(SessionHandlers.SessionRevoked);
        }
      }
      r := Checked(SessionHandlers.Admitted);
    }

    method HandleLogout(session: Option<Sid>, now: Time) returns (r: Reply)
      requires Valid() && Enabled(State(), Logout(session, now))
      modifies this`clock, sessions
      ensures Valid()
      ensures State() == Next(old(State()), Logout(session, now), kdf) && r == ReplyTo(old(State()), Logout(session, now), kdf)
    {
      hide SessionRuns.Reachable, CodeRuns.Reachable, GivesKeys, WorldOk, Next, Enabled, Sessions.Apply;
      StepKeepsOk(State(), Logout(session, now), kdf);
      ReadyStores(State(), Logout(session, now));
      SessionEffect(State(), Logout(session, now), kdf);
      clock := now;
      if session.Some? && session.value in sessions.rows {
        sessions.RevokeFamily(sessions.rows[session.value].familyId, now);
      }
      r := Done;
    }

    method HandleLogoutAll(subject: UserId, now: Time) returns (r: Reply)
      requires Valid() && Enabled(State(), LogoutAll(subject, now))
      modifies this`clock, sessions
      ensures Valid()
      ensures State() == Next(old(State()), LogoutAll(subject, now), kdf) && r == ReplyTo(old(State()), LogoutAll(subject, now), kdf)
    {
      hide SessionRuns.Reachable, CodeRuns.Reachable, GivesKeys, WorldOk, Next, Enabled, Sessions.Apply;
      StepKeepsOk(State(), LogoutAll(subject, now), kdf);
      ReadyStores(State(), LogoutAll(subject, now));
      SessionEffect(State(), LogoutAll(subject, now), kdf);
      clock := now;
      sessions.RevokeAllForUser(subject, now);
      r := Done;
    }

    method HandleDeleteSession(subject: UserId, id: Sid, now: Time) returns (r: Reply)
      requires Valid() && Enabled(State(), DeleteSession(subject, id, now))
      modifies this`clock, sessions
      ensures Valid()
      ensures State() == Next(old(State()), DeleteSession(subject, id, now), kdf) && r == ReplyTo(old(State()), DeleteSession(subject, id, now), kdf)
    {
      hide SessionRuns.Reachable, CodeRuns.Reachable, GivesKeys, WorldOk, Next, Enabled, Sessions.Apply;
      StepKeepsOk(State(), DeleteSession(subject, id, now), kdf);
      ReadyStores(State(), DeleteSession(subject, id, now));
      SessionEffect(State(), DeleteSession(subject, id, now), kdf);
      clock := now;
      if id !in sessions.rows {
        return Denied(NoSuchSession);
      }
      if sessions.rows[id].userId != subject {
        return Denied(NoSuchSession);
      }
      sessions.RevokeFamily(sessions.rows[id].familyId, now);
      r := Done;
    }

    // --- cmd/authsvc/main.go -----------------------------------------------------------------------------

    /** One round of the pruning job, with its graces. */
    method PruneOnce(now: Time)
      requires Valid() && Enabled(State(), Request.PruneOnce(now))
      modifies this`clock, sessions, codes, limits, oauth
      ensures Valid()
      ensures State() == Next(old(State()), Request.PruneOnce(now), kdf)
    {
      hide SessionRuns.Reachable, CodeRuns.Reachable, GivesKeys, WorldOk, Next, Enabled, Codes.Apply, Sessions.Apply, OAuthStores.Apply, RateLimits.Apply;
      StepKeepsOk(State(), Request.PruneOnce(now), kdf);
      ReadyStores(State(), Request.PruneOnce(now));
      PruneEffect(State(), now, kdf);
      clock := now;
      var n := sessions.PruneSessions(SESSION_GRACE, now);
      n := codes.PruneCodes(CODE_GRACE, now);
      n := limits.PruneRateLimits(WINDOW_GRACE, now);
      oauth.PruneOAuth(now);
    }
  }
}
