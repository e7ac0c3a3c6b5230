/** The whole service, one request at a time: what each handler replies, and what it asks of the stores
    (internal/httpapi, and the pruning job of cmd/authsvc/main.go). */
module Service {
  import opened Prelude
  import opened Accounts
  import opened OtpIdentifiers
  import opened Passwords
  import Base64
  import RateLimits
  import Codes
  import CodeRuns
  import GuessBound
  import OAuthStores
  import OAuthHandoff
  import Sessions
  import SessionRuns
  import SessionStores
  import SessionHandlers

  const MIN_PASSWORD_LEN: nat := 10
  const DEFAULT_PARAMS := Params(64 * 1024, 3, 2, 32)

  const EMAIL_VERIFY_TTL: Time := DAY
  const PASSWORD_RESET_TTL: Time := HOUR

  const SESSION_GRACE: nat := 30 * DAY
  const CODE_GRACE: nat := DAY
  const WINDOW_GRACE: Time := DAY

  datatype Client = Client(secretHash: string, redirectUris: seq<string>, audience: string)

  type Sid = Sessions.Id

  /** Everything the service stores; `minted` are the state values and auth codes ever drawn. */
  datatype World = World(
    clients: map<ClientId, Client>, t: Tables, passwords: map<UserId, string>, disabled: set<UserId>,
    sessions: Sessions.Db, codes: Codes.Db, oauth: OAuthStores.Db, counts: RateLimits.Counts,
    minted: set<OAuthStores.Token>, clock: Time)

  /** A request past the decoding of its body and the check of its address, with what the server draws for it
      and the moment it runs. */
  datatype Request =
    | CreateClient(clientId: ClientId, client: Client, at: Time)
    /** The operator sets or clears disabled_at. */
    | SetDisabled(userId: UserId, on: bool, at: Time)
    /** handleOAuthStart, which is limited per address, and handleLinkStart, which is not. */
    | Start(limited: Option<string>, provider: string, clientId: ClientId, redirectUri: string, appState: string,
            verifier: string, linkUserId: Option<UserId>, state: OAuthStores.Token, at: Time)
    /** `profile` is the provider's answer, if there is one. */
    | Callback(provider: string, state: OAuthStores.Token, profile: Option<Profile>, newUserId: UserId,
               authCode: OAuthStores.Token, at: Time)
    | Exchange(ip: string, authCode: OAuthStores.Token, clientId: ClientId, secret: string,
               meta: Sessions.Meta, sid: Sid, raw: Sessions.Token, at: Time)
    | Register(ip: string, clientId: ClientId, email: string, password: string, salt: seq<Base64.Byte>, newUserId: UserId,
               meta: Sessions.Meta, sid: Sid, raw: Sessions.Token, at: Time)
    | Login(ip: string, clientId: ClientId, email: string, password: string,
            meta: Sessions.Meta, sid: Sid, raw: Sessions.Token, at: Time)
    /** The verification link that registering sends in the background. */
    | SendVerification(userId: UserId, token: string, id: Codes.Id, at: Time)
    | VerifyEmail(ip: string, token: string, at: Time)
    | Forgot(ip: string, email: string, token: string, id: Codes.Id, at: Time)
    | Reset(ip: string, token: string, password: string, salt: seq<Base64.Byte>, at: Time)
    | OtpRequest(ip: string, clientId: ClientId, email: string, code: string, id: Codes.Id, at: Time)
    | OtpVerify(ip: string, clientId: ClientId, email: string, code: string, newUserId: UserId,
                meta: Sessions.Meta, sid: Sid, raw: Sessions.Token, at: Time)
    | Refresh(ip: string, refreshToken: Sessions.Token, meta: Sessions.Meta, sid: Sid, raw: Sessions.Token, at: Time)
    /** requireUser, for an access token that carries this session id. */
    | Access(session: Option<Sid>, at: Time)
    | Logout(session: Option<Sid>, at: Time)
    | LogoutAll(subject: UserId, at: Time)
    | DeleteSession(subject: UserId, id: Sid, at: Time)
    | ListSessions(subject: UserId, at: Time)
    | PruneOnce(at: Time)

  datatype Refusal =
    | RateLimited | UnknownClient | InvalidClient | InvalidRedirectUri | InvalidState | BackToApp | InvalidCode
    | TooManyAttempts | InvalidToken | InvalidCredentials | WeakPassword | VerificationSent | AccountDisabled
    | ReuseDetected | Unauthorized | NoSuchSession | Internal

  datatype Reply =
    | Done
    | Tokens(userId: UserId, audience: string, sid: Sid, refreshToken: Sessions.Token)
    | CodeFor(userId: UserId)
    | Checked(access: SessionHandlers.Access)
    | Active(rows: set<Sessions.Session>)
    | Denied(why: Refusal)

  function Registered(clients: map<ClientId, Client>): OAuthHandoff.Clients {
    map c | c in clients :: clients[c].redirectUris
  }

  // --- The limiter ---------------------------------------------------------------------------------

  /** The windows a request is charged to, in order. */
  function Charges(e: Request): seq<RateLimits.Event> {
    match e
    case Start(Some(ip), _, _, _, _, _, _, _, at) => [RateLimits.Allow("oauth:ip:" + ip, 60, HOUR, at)]
    case Exchange(ip, _, _, _, _, _, _, at) => [RateLimits.Allow("exchange:ip:" + ip, 120, HOUR, at)]
    case Register(ip, _, _, password, _, _, _, _, _, at) =>
      if |password| < MIN_PASSWORD_LEN then [] else [RateLimits.Allow("register:ip:" + ip, 10, HOUR, at)]
    case Login(ip, _, email, _, _, _, _, at) =>
      [RateLimits.Allow("login:ip:" + ip, 30, 15 * MINUTE, at), RateLimits.Allow("login:id:" + email, 10, 15 * MINUTE, at)]
    case VerifyEmail(ip, _, at) => [RateLimits.Allow("verify:ip:" + ip, 30, HOUR, at)]
    case Forgot(ip, email, _, _, at) =>
      [RateLimits.Allow("forgot:ip:" + ip, 10, HOUR, at), RateLimits.Allow("forgot:id:" + email, 3, HOUR, at)]
    case Reset(ip, _, password, _, at) =>
      if |password| < MIN_PASSWORD_LEN then [] else [RateLimits.Allow("reset:ip:" + ip, 20, HOUR, at)]
    case OtpRequest(ip, _, email, _, _, at) =>
      [RateLimits.Allow("otp:ip:" + ip, 20, HOUR, at), GuessBound.AskEvent(email, at)]
    case OtpVerify(ip, _, _, _, _, _, _, _, at) => [RateLimits.Allow("otpv:ip:" + ip, 30, HOUR, at)]
    case Refresh(ip, _, _, _, _, at) => [RateLimits.Allow("refresh:ip:" + ip, 120, HOUR, at)]
    case _ => []
  }

  predicate Passes(c: RateLimits.Counts, charges: seq<RateLimits.Event>)
    requires forall k :: 0 <= k < |charges| ==> charges[k].Allow?
    decreases |charges|
  {
    charges == [] || (RateLimits.Allowed(c, charges[0]) && Passes(RateLimits.Apply(c, charges[0]), charges[1..]))
  }

  /** A refused request is not charged to the windows after the full one. */
  function Charged(c: RateLimits.Counts, charges: seq<RateLimits.Event>): RateLimits.Counts
    requires forall k :: 0 <= k < |charges| ==> charges[k].Allow?
    decreases |charges|
  {
    if charges == [] then c
    else if RateLimits.Allowed(c, charges[0]) then Charged(RateLimits.Apply(c, charges[0]), charges[1..])
    else RateLimits.Apply(c, charges[0])
  }

  predicate Admits(w: World, e: Request) {
    Passes(w.counts, Charges(e))
  }

  // --- What the handlers decide --------------------------------------------------------------------------

  predicate KnownClient(w: World, c: ClientId) {
    c != "" && c in w.clients
  }

  /** The handoff's event for a start. */
  function BeginOf(e: Request): OAuthHandoff.Event
    requires e.Start?
  {
    OAuthHandoff.Begin(e.state, e.provider, e.clientId, e.redirectUri, e.appState, e.verifier, e.linkUserId, e.at)
  }

  function StartReply(w: World, e: Request): Reply
    requires e.Start?
  {
    if !Admits(w, e) then Denied(RateLimited)
    else if !KnownClient(w, e.clientId) then Denied(UnknownClient)
    else if OAuthHandoff.FlowOf(Registered(w.clients), BeginOf(e)).None? then Denied(InvalidRedirectUri)
    else if e.state in w.oauth.flows then Denied(Internal)
    else Done
  }

  /** What linking or resolving the profile does, for a callback that recovers this flow. */
  ghost function LinkStep(w: World, e: Request, f: OAuthStores.Flow): (Tables, Result)
    requires e.Callback? && e.profile.Some?
  {
    if f.linkUserId.Some? then Attachment(w.t, f.linkUserId.value, e.provider, e.profile.value)
    else Resolution(w.t, e.provider, e.profile.value, e.newUserId, e.at)
  }

  ghost function CallbackReply(w: World, e: Request): Reply
    requires e.Callback?
  {
    if !OAuthStores.FlowUsable(w.oauth, e.state, e.at) || w.oauth.flows[e.state].flow.provider != e.provider then Denied(InvalidState)
    else if e.profile.None? then Denied(BackToApp)
    else
      var f := w.oauth.flows[e.state].flow;
      var r := LinkStep(w, e, f).1;
      if r.Refused? then Denied(BackToApp)
      else if f.linkUserId.None? && r.userId in w.disabled then Denied(BackToApp)
      else if e.authCode in w.oauth.codes then Denied(Internal)
      else CodeFor(r.userId)
  }

  predicate RightSecret(w: World, e: Request, kdf: Kdf)
    requires e.Exchange?
  {
    e.clientId in w.clients && Verify(w.clients[e.clientId].secretHash, e.secret, kdf) == Match
  }

  /** Tokens for the user, unless disabled. */
  function TokensFor(w: World, u: UserId, c: ClientId, sid: Sid, raw: Sessions.Token): Reply
    requires c in w.clients
  {
    if u in w.disabled then Denied(AccountDisabled) else Tokens(u, w.clients[c].audience, sid, raw)
  }

  function ExchangeReply(w: World, e: Request, kdf: Kdf): Reply
    requires e.Exchange?
  {
    if !Admits(w, e) then Denied(RateLimited)
    else if !RightSecret(w, e, kdf) then Denied(InvalidClient)
    else if !OAuthStores.CodeUsable(w.oauth, e.authCode, e.at) then Denied(InvalidCode)
    else
      var c := w.oauth.codes[e.authCode].code;
      if c.clientId != e.clientId then Denied(InvalidCode)
      else if c.userId !in w.t.users then Denied(Internal)
      else TokensFor(w, c.userId, e.clientId, e.sid, e.raw)
  }

  ghost function RegisterReply(w: World, e: Request): Reply
    requires e.Register?
  {
    if |e.password| < MIN_PASSWORD_LEN then Denied(WeakPassword)
    else if !Admits(w, e) then Denied(RateLimited)
    else if !KnownClient(w, e.clientId) then Denied(UnknownClient)
    else if !EmailFree(w.t, e.email) then Denied(VerificationSent)
    else Tokens(e.newUserId, w.clients[e.clientId].audience, e.sid, e.raw)
  }

  ghost function LoginReply(w: World, e: Request, kdf: Kdf): Reply
    requires e.Login?
  {
    if !Admits(w, e) then Denied(RateLimited)
    else if !KnownClient(w, e.clientId) then Denied(UnknownClient)
    else
      var owner := UserByEmail(w.t, e.email);
      if owner.None? || owner.value !in w.passwords then Denied(InvalidCredentials)
      else
        match Verify(w.passwords[owner.value], e.password, kdf)
        case InvalidHash => Denied(Internal)
        case Mismatch => Denied(InvalidCredentials)
        case Match => TokensFor(w, owner.value, e.clientId, e.sid, e.raw)
  }

  ghost function OtpGuess(e: Request): Codes.Event
    requires e.OtpVerify?
  {
    Codes.Guess(Codes.Key(OtpIdentifier(e.clientId, e.email), Codes.LoginOtp), e.code, e.at)
  }

  /** The user of the address, or the one made for it. */
  ghost function OtpUser(w: World, e: Request): UserId
    requires e.OtpVerify?
  {
    if UserByEmail(w.t, e.email).Some? then UserByEmail(w.t, e.email).value else e.newUserId
  }

  ghost function OtpVerifyReply(w: World, e: Request): Reply
    requires e.OtpVerify?
  {
    if !Admits(w, e) then Denied(RateLimited)
    else if !KnownClient(w, e.clientId) then Denied(UnknownClient)
    else
      match Codes.Apply(w.codes, OtpGuess(e)).1
      case CodeAttempts => Denied(TooManyAttempts)
      case Accepted => TokensFor(w, OtpUser(w, e), e.clientId, e.sid, e.raw)
      case _ => Denied(InvalidCode)
  }

  ghost function Redemption(w: World, p: Codes.Purpose, tok: string, at: Time): Codes.Reply {
    Codes.Apply(w.codes, Codes.Redeem(p, tok, at)).1
  }

  ghost function ResetReply(w: World, e: Request): Reply
    requires e.Reset?
  {
    if |e.password| < MIN_PASSWORD_LEN then Denied(WeakPassword)
    else if !Admits(w, e) then Denied(RateLimited)
    else if !Redemption(w, Codes.PasswordReset, e.token, e.at).Redeemed? then Denied(InvalidToken)
    else Done
  }

  ghost function RotateOf(e: Request): Sessions.Event
    requires e.Refresh?
  {
    Sessions.Rotate(e.refreshToken, e.sid, e.raw, e.meta, e.at)
  }

  ghost function RefreshReply(w: World, e: Request): Reply
    requires e.Refresh?
  {
    if !Admits(w, e) then Denied(RateLimited)
    else
      match Sessions.Apply(w.sessions, RotateOf(e)).1
      case TokenReuse => Denied(ReuseDetected)
      case Issued(s) =>
        if s.userId !in w.t.users then Denied(Internal)
        else if s.userId in w.disabled then Denied(AccountDisabled)
        else if s.clientId !in w.clients then Denied(Internal)
        else Tokens(s.userId, w.clients[s.clientId].audience, s.id, s.token)
      case _ => Denied(Unauthorized)
  }

  predicate Owns(w: World, subject: UserId, id: Sid) {
    id in w.sessions.rows && w.sessions.rows[id].userId == subject
  }

  ghost function ReplyTo(w: World, e: Request, kdf: Kdf): Reply {
    match e
    case CreateClient(c, _, _) => if c == "" || c in w.clients then Denied(InvalidClient) else Done
    case SetDisabled(_, _, _) => Done
    case Start(_, _, _, _, _, _, _, _, _) => StartReply(w, e)
    case Callback(_, _, _, _, _, _) => CallbackReply(w, e)
    case Exchange(_, _, _, _, _, _, _, _) => ExchangeReply(w, e, kdf)
    case Register(_, _, _, _, _, _, _, _, _, _) => RegisterReply(w, e)
    case Login(_, _, _, _, _, _, _, _) => LoginReply(w, e, kdf)
    case SendVerification(_, _, _, _) => Done
    case VerifyEmail(_, tok, at) =>
      if !Admits(w, e) then Denied(RateLimited)
      else if !Redemption(w, Codes.EmailVerify, tok, at).Redeemed? then Denied(InvalidToken)
      else Done
    // The same answer whether or not the account exists.
    case Forgot(_, _, _, _, _) => if !Admits(w, e) then Denied(RateLimited) else Done
    case Reset(_, _, _, _, _) => ResetReply(w, e)
    case OtpRequest(_, c, _, _, _, _) =>
      if !Admits(w, e) then Denied(RateLimited) else if !KnownClient(w, c) then Denied(UnknownClient) else Done
    case OtpVerify(_, _, _, _, _, _, _, _, _) => OtpVerifyReply(w, e)
    case Refresh(_, _, _, _, _, _) => RefreshReply(w, e)
    case Access(sid, _) => Checked(SessionHandlers.RequireUser(w.sessions.rows, sid))
    case Logout(_, _) => Done
    case LogoutAll(_, _) => Done
    case DeleteSession(subject, id, _) => if Owns(w, subject, id) then Done else Denied(NoSuchSession)
    case ListSessions(subject, at) =>
      Active(set i | i in w.sessions.rows && SessionStores.Listed(w.sessions.rows[i], subject, at) :: w.sessions.rows[i])
    case PruneOnce(_) => Done
  }

  // --- What they ask of the stores --------------------------------------------------------------------------

  /** The requests that can end in a new session family. */
  predicate SignsIn(e: Request) {
    e.Exchange? || e.Register? || e.Login? || e.OtpVerify?
  }

  /** A new family, if the reply hands out tokens. */
  ghost function Opened(w: World, e: Request, kdf: Kdf): seq<Sessions.Event>
    requires SignsIn(e)
  {
    var r := ReplyTo(w, e, kdf);
    if r.Tokens? then [Sessions.Create(r.userId, e.clientId, e.sid, e.raw, e.meta, e.at)] else []
  }

  ghost function SessionEvents(w: World, e: Request, kdf: Kdf): seq<Sessions.Event> {
    if SignsIn(e) then Opened(w, e, kdf)
    else
      match e
      case Refresh(_, _, _, _, _, at) =>
        if !Admits(w, e) then []
        else if RefreshReply(w, e) == Denied(AccountDisabled) then
          [RotateOf(e), Sessions.RevokeAllForUser(Sessions.Apply(w.sessions, RotateOf(e)).1.session.userId, at)]
        else [RotateOf(e)]
      case Reset(_, tok, _, _, at) =>
        if ReplyTo(w, e, kdf).Done? then [Sessions.RevokeAllForUser(Redemption(w, Codes.PasswordReset, tok, at).identifier, at)] else []
      case Logout(sid, at) =>
        if sid.Some? && sid.value in w.sessions.rows then [Sessions.RevokeFamily(w.sessions.rows[sid.value].familyId, at)] else []
      case LogoutAll(subject, at) => [Sessions.RevokeAllForUser(subject, at)]
      case DeleteSession(subject, id, at) =>
        if Owns(w, subject, id) then [Sessions.RevokeFamily(w.sessions.rows[id].familyId, at)] else []
      case PruneOnce(at) => [Sessions.Prune(SESSION_GRACE, at)]
      case _ => []
  }

  ghost function CodeEvents(w: World, e: Request): seq<Codes.Event> {
    match e
    case SendVerification(u, tok, id, at) =>
      if u in w.t.users && w.t.users[u].verifiedAt.None? then
        [Codes.Issue(Codes.Key(u, Codes.EmailVerify), tok, EMAIL_VERIFY_TTL, id, {}, at)]
      else []
    case VerifyEmail(_, tok, at) => if Admits(w, e) then [Codes.Redeem(Codes.EmailVerify, tok, at)] else []
    case Forgot(_, email, tok, id, at) =>
      if Admits(w, e) && UserByEmail(w.t, email).Some? then
        [Codes.Issue(Codes.Key(UserByEmail(w.t, email).value, Codes.PasswordReset), tok, PASSWORD_RESET_TTL, id, {}, at)]
      else []
    case Reset(_, tok, password, _, at) =>
      if MIN_PASSWORD_LEN <= |password| && Admits(w, e) then [Codes.Redeem(Codes.PasswordReset, tok, at)] else []
    case OtpRequest(_, c, email, code, id, at) =>
      if Admits(w, e) && KnownClient(w, c) then
        [Codes.Issue(Codes.Key(OtpIdentifier(c, email), Codes.LoginOtp), code, GuessBound.OTP_TTL, id, {}, at)]
      else []
    case OtpVerify(_, c, _, _, _, _, _, _, _) => if Admits(w, e) && KnownClient(w, c) then [OtpGuess(e)] else []
    case PruneOnce(at) => [Codes.Prune(CODE_GRACE, at)]
    case _ => []
  }

  ghost function OAuthCalls(w: World, e: Request, kdf: Kdf): seq<OAuthStores.Call> {
    match e
    case Start(_, _, _, _, _, _, _, state, at) =>
      var f := OAuthHandoff.FlowOf(Registered(w.clients), BeginOf(e));
      if Admits(w, e) && f.Some? then [OAuthStores.CreateFlow(state, f.value, at)] else []
    case Callback(_, state, _, _, authCode, at) =>
      var r := CallbackReply(w, e);
      if r.CodeFor? then
        var f := w.oauth.flows[state].flow;
        [OAuthStores.ConsumeFlow(state, at), OAuthStores.CreateCode(authCode, OAuthStores.AuthCode(r.userId, f.clientId, f.redirectUri), at)]
      else [OAuthStores.ConsumeFlow(state, at)]
    case Exchange(_, authCode, _, _, _, _, _, at) =>
      if Admits(w, e) && RightSecret(w, e, kdf) then [OAuthStores.ConsumeCode(authCode, at)] else []
    case PruneOnce(at) => [OAuthStores.Prune(at)]
    case _ => []
  }

  // --- What they leave behind -----------------------------------------------------------------------------

  function OAuthAfter(d: OAuthStores.Db, calls: seq<OAuthStores.Call>): OAuthStores.Db
    decreases |calls|
  {
    if calls == [] then d else OAuthAfter(OAuthStores.Apply(d, calls[0]).0, calls[1..])
  }

  function CountsAfter(w: World, e: Request): RateLimits.Counts {
    if e.PruneOnce? then RateLimits.Apply(w.counts, RateLimits.Prune(WINDOW_GRACE, e.at)) else Charged(w.counts, Charges(e))
  }

  ghost function TablesAfter(w: World, e: Request): Tables {
    match e
    case Callback(_, state, profile, _, _, at) =>
      if OAuthStores.FlowUsable(w.oauth, state, at) && w.oauth.flows[state].flow.provider == e.provider && profile.Some? then
        LinkStep(w, e, w.oauth.flows[state].flow).0
      else w.t
    case Register(_, _, email, _, _, newUserId, _, _, _, _) =>
      if RegisterReply(w, e).Tokens? then WithUser(w.t, newUserId, User(email, None, None)) else w.t
    case VerifyEmail(_, tok, at) =>
      if Admits(w, e) && Redemption(w, Codes.EmailVerify, tok, at).Redeemed? then
        Marked(w.t, Redemption(w, Codes.EmailVerify, tok, at).identifier, at)
      else w.t
    case OtpVerify(_, c, email, _, newUserId, _, _, _, at) =>
      if Admits(w, e) && KnownClient(w, c) && Codes.Apply(w.codes, OtpGuess(e)).1 == Codes.Accepted then
        if UserByEmail(w.t, email).Some? then Marked(w.t, UserByEmail(w.t, email).value, at)
        else Marked(WithUser(w.t, newUserId, User(email, None, None)), newUserId, at)
      else w.t
    case _ => w.t
  }

  ghost function PasswordsAfter(w: World, e: Request, kdf: Kdf): map<UserId, string> {
    match e
    case Register(_, _, _, password, salt, newUserId, _, _, _, _) =>
      if RegisterReply(w, e).Tokens? then w.passwords[newUserId := HashWithParams(password, DEFAULT_PARAMS, salt, kdf)]
      else w.passwords
    case Reset(_, tok, password, salt, at) =>
      if ReplyTo(w, e, kdf).Done? && Redemption(w, Codes.PasswordReset, tok, at).identifier in w.t.users then
        w.passwords[Redemption(w, Codes.PasswordReset, tok, at).identifier := HashWithParams(password, DEFAULT_PARAMS, salt, kdf)]
      else w.passwords
    case _ => w.passwords
  }

  function DisabledAfter(w: World, e: Request): set<UserId> {
    if e.SetDisabled? then
      if !e.on then w.disabled - {e.userId} else if e.userId in w.t.users then w.disabled + {e.userId} else w.disabled
    else w.disabled
  }

  function ClientsAfter(w: World, e: Request): map<ClientId, Client> {
    if e.CreateClient? && e.clientId != "" && e.clientId !in w.clients then w.clients[e.clientId := e.client] else w.clients
  }

  /** The tokens drawn for the OAuth tables. */
  function Drawn(e: Request): set<OAuthStores.Token> {
    match e
    case Start(_, _, _, _, _, _, _, state, _) => {state}
    case Callback(_, _, _, _, authCode, _) => {authCode}
    case _ => {}
  }

  ghost function Next(w: World, e: Request, kdf: Kdf): World {
    World(ClientsAfter(w, e), TablesAfter(w, e), PasswordsAfter(w, e, kdf), DisabledAfter(w, e),
          SessionRuns.Final(w.sessions, SessionEvents(w, e, kdf)), CodeRuns.Final(w.codes, CodeEvents(w, e)),
          OAuthAfter(w.oauth, OAuthCalls(w, e, kdf)), CountsAfter(w, e), w.minted + Drawn(e), e.at)
  }

  /** The clock does not run backwards, and whatever the server draws is new. */
  ghost predicate Enabled(w: World, e: Request) {
    && w.clock <= e.at
    && Drawn(e) !! w.minted
    && (SignsIn(e) || e.Refresh? ==> Sessions.Fresh(w.sessions, e.sid, e.raw))
    && (e.Callback? || e.Register? || e.OtpVerify? ==> e.newUserId !in w.t.users)
    && (e.SendVerification? ==> e.id !in w.codes.born && (Codes.EmailVerify, e.token) !in w.codes.links)
    && (e.Forgot? ==> e.id !in w.codes.born && (Codes.PasswordReset, e.token) !in w.codes.links)
    && (e.OtpRequest? ==> e.id !in w.codes.born)
  }

  function Empty(now: Time): World {
    World(map[], Tables(map[], map[]), map[], {}, Sessions.EmptyDb(now), Codes.EmptyDb(now), OAuthStores.Db(map[], map[]),
          map[], {}, now)
  }
}
