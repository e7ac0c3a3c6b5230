/** How accounts come about and change over runs of requests: by a provider's profile, by registering, by links and
    codes sent to the address, and by the operator. */
module ServiceAccounts {
  import opened Prelude
  import opened Accounts
  import opened OtpIdentifiers
  import opened Passwords
  import opened Service
  import opened ServiceRuns
  import opened ServiceReplies
  import Base64
  import Codes
  import CodeRuns
  import OAuthStores
  import Sessions
  import SessionRuns

  // --- Users stay who they are -------------------------------------------------------------------------------

  /** The user keeps the address, and is verified for good once verified. */
  predicate SameUser(t: Tables, t': Tables, u: UserId) {
    u in t.users ==>
      && u in t'.users && t'.users[u].email == t.users[u].email
      && (t.users[u].verifiedAt.Some? ==> t'.users[u].verifiedAt == t.users[u].verifiedAt)
  }

  lemma MarkedSame(t: Tables, id: UserId, now: Time, u: UserId)
    ensures SameUser(t, Marked(t, id, now), u)
  {
  }

  lemma WithUserSame(t: Tables, id: UserId, x: User, u: UserId)
    requires id !in t.users
    ensures SameUser(t, WithUser(t, id, x), u)
  {
  }

  lemma LinkStepSame(w: World, e: Request, f: OAuthStores.Flow, u: UserId)
    requires e.Callback? && e.profile.Some? && e.newUserId !in w.t.users
    ensures SameUser(w.t, LinkStep(w, e, f).0, u)
  {
  }

  lemma RequestKeepsUser(w: World, e: Request, u: UserId)
    requires Enabled(w, e)
    ensures SameUser(w.t, TablesAfter(w, e), u)
  {
    hide Codes.Apply, Admits, Marked, WithUser, LinkStep, RegisterReply, SameUser, Sessions.Fresh;
    SameUserSelf(w.t, u);
    match e
    case Callback(_, state, _, _, _, _) =>
      if state in w.oauth.flows && e.profile.Some? {
        LinkStepSame(w, e, w.oauth.flows[state].flow, u);
      }
    case Register(_, _, email, _, _, newUserId, _, _, _, _) => WithUserSame(w.t, newUserId, User(email, None, None), u);
    case VerifyEmail(_, tok, at) =>
      if Redemption(w, Codes.EmailVerify, tok, at).Redeemed? {
        MarkedSame(w.t, Redemption(w, Codes.EmailVerify, tok, at).identifier, at, u);
      }
    case OtpVerify(_, _, email, _, newUserId, _, _, _, at) =>
      if UserByEmail(w.t, email).Some? {
        MarkedSame(w.t, UserByEmail(w.t, email).value, at, u);
      } else {
        var t := WithUser(w.t, newUserId, User(email, None, None));
        WithUserSame(w.t, newUserId, User(email, None, None), u);
        MarkedSame(t, newUserId, at, u);
        SameUserTrans(w.t, t, Marked(t, newUserId, at), u);
      }
    case _ =>
  }

  lemma SameUserSelf(t: Tables, u: UserId)
    ensures SameUser(t, t, u)
  {
  }

  lemma SameUserTrans(t: Tables, t': Tables, t'': Tables, u: UserId)
    requires SameUser(t, t', u) && SameUser(t', t'', u)
    ensures SameUser(t, t'', u)
  {
  }

  lemma NextTables(w: World, e: Request, kdf: Kdf)
    ensures Next(w, e, kdf).t == TablesAfter(w, e)
  {
    hide TablesAfter, SessionEvents, CodeEvents, OAuthCalls, CountsAfter, PasswordsAfter, OAuthAfter;
  }

  /** Over every run of requests. */
  lemma {:induction false} RunKeepsUser(w: World, evs: seq<Request>, u: UserId, kdf: Kdf)
    requires ValidRun(w, evs, kdf)
    ensures SameUser(w.t, Final(w, evs, kdf).t, u)
    decreases |evs|
  {
    hide Enabled, Next, SameUser;
    if evs == [] {
      SameUserSelf(w.t, u);
    } else {
      var n := Next(w, evs[0], kdf);
      RequestKeepsUser(w, evs[0], u);
      NextTables(w, evs[0], kdf);
      RunKeepsUser(n, evs[1..], u, kdf);
      SameUserTrans(w.t, n.t, Final(n, evs[1..], kdf).t, u);
    }
  }

  // --- Accounts from profiles -----------------------------------------------------------------------------------

  /** A callback that recovers a login flow of its provider and has got a profile of an account the service has not
      seen. */
  ghost predicate BringsProfile(w: World, cb: Request, p: Profile) {
    && cb.Callback? && OAuthStores.FlowUsable(w.oauth, cb.state, cb.at) && w.oauth.flows[cb.state].flow.provider == cb.provider
    && w.oauth.flows[cb.state].flow.linkUserId.None? && cb.profile == Some(p) && p.subject != ""
    && Pair(cb.provider, p.subject) !in w.t.identities
  }

  /** If the address is free, the callback makes a user of the profile: verified exactly if the provider vouches. */
  lemma ProfileCreates(w: World, cb: Request, p: Profile, kdf: Kdf)
    requires WorldOk(w) && Enabled(w, cb) && BringsProfile(w, cb, p) && EmailFree(w.t, p.email)
    ensures ReplyTo(w, cb, kdf) == CodeFor(cb.newUserId)
    ensures var t', k := Next(w, cb, kdf).t, Pair(cb.provider, p.subject);
      && t'.users.Keys == w.t.users.Keys + {cb.newUserId} && k in t'.identities
      && t'.users[cb.newUserId].email == p.email
      && t'.users[cb.newUserId].verifiedAt == (if p.emailVerified then Some(cb.at) else None)
      && t'.identities[k].userId == cb.newUserId
  {
    hide SessionRuns.Reachable, CodeRuns.Reachable, TablesInv, Resolution;
    NextTables(w, cb, kdf);
    CreatedExactly(w.t, cb.provider, p, cb.newUserId, cb.at, cb.newUserId);
    assert cb.newUserId !in w.disabled;
  }

  /** If it has an owner, the owner gets the identity exactly if the provider vouches and the owner has proved the
      address; otherwise the browser goes back to the app and nothing has changed. */
  lemma ProfileLinks(w: World, cb: Request, p: Profile, u: UserId, kdf: Kdf)
    requires WorldOk(w) && Enabled(w, cb) && BringsProfile(w, cb, p) && p.email != "" && HasEmail(w.t, u, p.email)
    ensures var linked := p.emailVerified && w.t.users[u].verifiedAt.Some?;
      && (ReplyTo(w, cb, kdf) == if linked && u !in w.disabled then CodeFor(u) else Denied(BackToApp))
      && Next(w, cb, kdf).t ==
         if linked then w.t.(identities := w.t.identities[Pair(cb.provider, p.subject) := Identity(u, p.email, true, ByVerifiedEmail)]) else w.t
  {
    hide SessionRuns.Reachable, CodeRuns.Reachable, TablesInv, Resolution;
    NextTables(w, cb, kdf);
    LinkedExactly(w.t, cb.provider, p, cb.newUserId, cb.at, u);
  }

  /** A vouched profile makes a user; whatever requests come in between, a vouched profile of another account with the
      same address is linked to that user, who is signed in unless disabled. */
  lemma VouchedProfilesMeet(w: World, cb: Request, p: Profile, evs: seq<Request>, cb': Request, p': Profile, kdf: Kdf)
    requires WorldOk(w) && Enabled(w, cb) && BringsProfile(w, cb, p) && EmailFree(w.t, p.email) && p.emailVerified && p.email != ""
    requires ValidRun(Next(w, cb, kdf), evs, kdf)
    requires Enabled(Final(Next(w, cb, kdf), evs, kdf), cb') && BringsProfile(Final(Next(w, cb, kdf), evs, kdf), cb', p')
    requires p'.emailVerified && p'.email == p.email
    ensures var w', u := Final(Next(w, cb, kdf), evs, kdf), cb.newUserId;
      && (ReplyTo(w', cb', kdf) == if u !in w'.disabled then CodeFor(u) else Denied(BackToApp))
      && Pair(cb'.provider, p'.subject) in Next(w', cb', kdf).t.identities
      && Next(w', cb', kdf).t.identities[Pair(cb'.provider, p'.subject)].userId == u
  {
    hide WorldOk, Enabled, Next, ReplyTo, Final, ValidRun, BringsProfile;
    var n := Next(w, cb, kdf);
    CallbackHasUser(w, cb, p);
    ProfileCreates(w, cb, p, kdf);
    StepKeepsOk(w, cb, kdf);
    RunKeepsOk(n, evs, kdf);
    RunKeepsUser(n, evs, cb.newUserId, kdf);
    CallbackHasUser(Final(n, evs, kdf), cb', p');
    ProfileLinks(Final(n, evs, kdf), cb', p', cb.newUserId, kdf);
  }

  lemma CallbackHasUser(w: World, cb: Request, p: Profile)
    requires BringsProfile(w, cb, p)
    ensures cb.Callback?
  {
  }

  /** A profile of a known account signs in its user, unless disabled, and changes nothing. */
  lemma ProfileReturns(w: World, cb: Request, p: Profile, kdf: Kdf)
    requires WorldOk(w) && Enabled(w, cb) && cb.Callback? && OAuthStores.FlowUsable(w.oauth, cb.state, cb.at)
    requires w.oauth.flows[cb.state].flow.provider == cb.provider && w.oauth.flows[cb.state].flow.linkUserId.None?
    requires cb.profile == Some(p) && p.subject != "" && Pair(cb.provider, p.subject) in w.t.identities
    ensures var u := w.t.identities[Pair(cb.provider, p.subject)].userId;
      ReplyTo(w, cb, kdf) == if u in w.disabled then Denied(BackToApp) else CodeFor(u)
    ensures Next(w, cb, kdf).t == w.t
  {
    hide SessionRuns.Reachable, CodeRuns.Reachable, TablesInv;
    NextTables(w, cb, kdf);
  }

  /** The callback of a linking flow attaches an unknown account to the linking user, finds it attached already, or goes
      back to the app because it is another user's. */
  lemma ProfileAttaches(w: World, cb: Request, p: Profile, u: UserId, kdf: Kdf)
    requires WorldOk(w) && Enabled(w, cb) && cb.Callback? && OAuthStores.FlowUsable(w.oauth, cb.state, cb.at)
    requires w.oauth.flows[cb.state].flow.provider == cb.provider && w.oauth.flows[cb.state].flow.linkUserId == Some(u)
    requires cb.profile == Some(p) && p.subject != "" && u in w.t.users
    ensures var k := Pair(cb.provider, p.subject);
      if k in w.t.identities then
        && Next(w, cb, kdf).t == w.t
        && ReplyTo(w, cb, kdf) == if w.t.identities[k].userId == u then CodeFor(u) else Denied(BackToApp)
      else
        && Next(w, cb, kdf).t == w.t.(identities := w.t.identities[k := Identity(u, p.email, p.emailVerified, ByRequest)])
        && ReplyTo(w, cb, kdf) == CodeFor(u)
  {
    hide SessionRuns.Reachable, CodeRuns.Reachable, TablesInv;
    NextTables(w, cb, kdf);
  }

  // --- Registering ------------------------------------------------------------------------------------------------

  /** The whole answer to a registration, and what it leaves. */
  lemma RegisterExactly(w: World, e: Request, kdf: Kdf)
    requires WorldOk(w) && Enabled(w, e) && e.Register?
    ensures ReplyTo(w, e, kdf) ==
            if |e.password| < 10 then Denied(WeakPassword)
            else if !Admits(w, e) then Denied(RateLimited)
            else if e.clientId == "" || e.clientId !in w.clients then Denied(UnknownClient)
            else if exists u :: HasEmail(w.t, u, e.email) then Denied(VerificationSent)
            else Tokens(e.newUserId, w.clients[e.clientId].audience, e.sid, e.raw)
    ensures ReplyTo(w, e, kdf).Tokens? ==>
      var n := Next(w, e, kdf);
      && n.t == w.t.(users := w.t.users[e.newUserId := User(e.email, None, None)])
      && n.passwords == w.passwords[e.newUserId := StoredHash(e.password, e.salt, kdf)]
    ensures !ReplyTo(w, e, kdf).Tokens? ==> Next(w, e, kdf).t == w.t && Next(w, e, kdf).passwords == w.passwords
  {
    hide SessionRuns.Reachable, CodeRuns.Reachable, TablesInv, Admits, HashWithParams, SessionRuns.Final, CodeRuns.Final, OAuthAfter;
    NoOwnerIsFree(w.t, e.email);
    HashText(e.password, e.salt, kdf);
  }

  /** The text stored for a password: argon2id with 64 MiB, three passes, two lanes and a key of 32 bytes. */
  function StoredHash(password: string, salt: seq<Base64.Byte>, kdf: Kdf): string {
    "$argon2id$v=19$m=65536,t=3,p=2$" + Base64.Encode(salt) + "$" + Base64.Encode(kdf(password, salt, 3, 65536, 2, 32))
  }

  lemma HashText(password: string, salt: seq<Base64.Byte>, kdf: Kdf)
    ensures HashWithParams(password, DEFAULT_PARAMS, salt, kdf) == StoredHash(password, salt, kdf)
  {
    hide Encoded, Base64.Encode;
    DefaultText(salt, kdf(password, salt, 3, 65536, 2, 32));
  }

  /** Logging in: one and the same answer for an address nobody has, an account without a password and a wrong
      password; only who knows the password learns that the account is disabled. */
  lemma LoginAnswers(w: World, e: Request, u: UserId, kdf: Kdf)
    requires WorldOk(w) && e.Login?
    ensures !Admits(w, e) ==> ReplyTo(w, e, kdf) == Denied(RateLimited)
    ensures Admits(w, e) && (e.clientId == "" || e.clientId !in w.clients) ==> ReplyTo(w, e, kdf) == Denied(UnknownClient)
    ensures Admits(w, e) && e.clientId != "" && e.clientId in w.clients && EmailFree(w.t, e.email) ==> ReplyTo(w, e, kdf) == Denied(InvalidCredentials)
    ensures Admits(w, e) && e.clientId != "" && e.clientId in w.clients && HasEmail(w.t, u, e.email) ==>
      ReplyTo(w, e, kdf) ==
      if u !in w.passwords then Denied(InvalidCredentials)
      else if Verify(w.passwords[u], e.password, kdf).InvalidHash? then Denied(Internal)
      else if Verify(w.passwords[u], e.password, kdf).Mismatch? then Denied(InvalidCredentials)
      else if u in w.disabled then Denied(AccountDisabled)
      else Tokens(u, w.clients[e.clientId].audience, e.sid, e.raw)
  {
    hide SessionRuns.Reachable, CodeRuns.Reachable, Admits, Verify;
    NoOwnerIsFree(w.t, e.email);
    UserByEmailUnique(w.t, u, e.email);
  }

  /** The same for a reset. */
  lemma ResetStores(w: World, e: Request, u: UserId, kdf: Kdf)
    requires e.Reset? && ReplyTo(w, e, kdf).Done? && Redemption(w, Codes.PasswordReset, e.token, e.at) == Codes.Redeemed(u) && u in w.t.users
    ensures Next(w, e, kdf).passwords == w.passwords[u := StoredHash(e.password, e.salt, kdf)]
  {
    hide Admits, HashWithParams, SessionRuns.Final, CodeRuns.Final, OAuthAfter, Codes.Apply, SessionEvents, CodeEvents;
    HashText(e.password, e.salt, kdf);
  }

  // --- The operator -------------------------------------------------------------------------------------------------

  /** A client is created if and only if its id is a new one and not empty; it then is what was asked for, and the
      other clients are what they were. */
  lemma CreateClientExactly(w: World, c: ClientId, client: Client, at: Time, kdf: Kdf)
    ensures ReplyTo(w, CreateClient(c, client, at), kdf) == if c != "" && c !in w.clients then Done else Denied(InvalidClient)
    ensures Next(w, CreateClient(c, client, at), kdf).clients ==
            if c != "" && c !in w.clients then w.clients[c := client] else w.clients
  {
  }

  /** Disabling and enabling concern the one user. */
  lemma SetDisabledExactly(w: World, u: UserId, on: bool, at: Time, v: UserId, kdf: Kdf)
    ensures v in Next(w, SetDisabled(u, on, at), kdf).disabled <==> if v == u then on && (u in w.t.users || u in w.disabled) else v in w.disabled
  {
  }
}
