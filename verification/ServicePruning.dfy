/** The pruning job, with its own graces, changes no reply of the service: only a session row that is asked for
    later than its expiry plus 30 days is missed. */
module ServicePruning {
  import opened Prelude
  import opened Accounts
  import opened Passwords
  import opened Service
  import opened ServiceRuns
  import Codes
  import CodeRuns
  import OAuthStores
  import OAuthHandoff
  import RateLimits
  import Sessions
  import SessionRuns
  import SessionGuarantees
  import SessionStores

  // --- The sessions table ----------------------------------------------------------------------------

  predicate InGrace(s: Sessions.Session, now: Time) {
    now <= s.expiresAt + 30 * DAY
  }

  /** The first table lacks nothing of the second but rows whose grace is over. */
  ghost predicate LacksSessions(d: Sessions.Db, d': Sessions.Db, now: Time) {
    && d.born == d'.born && d.minted == d'.minted && d.families == d'.families
    && (forall i :: i in d.rows ==> i in d'.rows && d.rows[i] == d'.rows[i])
    && (forall i :: i in d'.rows && i !in d.rows ==> !InGrace(d'.rows[i], now))
  }

  /** A presented token is of no row, or of one whose grace is not over. */
  ghost predicate TokenInGrace(d: Sessions.Db, tok: Sessions.Token, now: Time) {
    forall i :: Sessions.HasToken(d.rows, i, tok) ==> InGrace(d.rows[i], now)
  }

  lemma SameRowOfToken(d: Sessions.Db, d': Sessions.Db, now: Time, tok: Sessions.Token)
    requires Sessions.TableInv(d) && Sessions.TableInv(d') && LacksSessions(d, d', now) && TokenInGrace(d', tok, now)
    ensures Sessions.RowOfToken(d.rows, tok) == Sessions.RowOfToken(d'.rows, tok)
  {
    if i :| Sessions.HasToken(d'.rows, i, tok) {
      Sessions.RowOfTokenUnique(d', i, tok);
      Sessions.RowOfTokenUnique(d, i, tok);
    }
  }

  lemma RevokeLacks(d: Sessions.Db, d': Sessions.Db, now: Time, e: Sessions.Event)
    requires LacksSessions(d, d', now) && now <= e.at && (e.RevokeFamily? || e.RevokeAllForUser?)
    ensures LacksSessions(Sessions.Apply(d, e).0, Sessions.Apply(d', e).0, e.at)
  {
  }

  lemma CreateLacks(d: Sessions.Db, d': Sessions.Db, now: Time, e: Sessions.Event)
    requires LacksSessions(d, d', now) && now <= e.at && e.Create?
    ensures LacksSessions(Sessions.Apply(d, e).0, Sessions.Apply(d', e).0, e.at)
  {
  }

  lemma RotatedRows(d: Sessions.Db, i: Sessions.Id, e: Sessions.Event)
    requires i in d.rows && e.Rotate?
    ensures Sessions.Rotated(d, i, e).rows == d.rows[i := d.rows[i].(usedAt := Some(e.at))][e.id := Sessions.Successor(d.rows[i], e)]
  {
  }

  lemma RotatedLacks(d: Sessions.Db, d': Sessions.Db, i: Sessions.Id, e: Sessions.Event)
    requires LacksSessions(d, d', e.at) && e.Rotate? && i in d.rows
    ensures LacksSessions(Sessions.Rotated(d, i, e), Sessions.Rotated(d', i, e), e.at)
  {
    RotatedRows(d, i, e);
    RotatedRows(d', i, e);
    assert Sessions.Rotated(d, i, e).born == Sessions.Rotated(d', i, e).born;
    assert Sessions.Rotated(d, i, e).minted == Sessions.Rotated(d', i, e).minted;
    assert Sessions.Rotated(d, i, e).families == Sessions.Rotated(d', i, e).families;
    hide Sessions.Rotated;
  }

  lemma ReplayLacks(d: Sessions.Db, d': Sessions.Db, f: Sessions.Id, at: Time)
    requires LacksSessions(d, d', at)
    ensures LacksSessions(d.(rows := Sessions.FamilyRevoked(d.rows, f, at), clock := at),
                          d'.(rows := Sessions.FamilyRevoked(d'.rows, f, at), clock := at), at)
  {
  }

  lemma ClockLacks(d: Sessions.Db, d': Sessions.Db, at: Time)
    requires LacksSessions(d, d', at)
    ensures LacksSessions(d.(clock := at), d'.(clock := at), at)
  {
  }

  lemma RotateLacks(d: Sessions.Db, d': Sessions.Db, now: Time, e: Sessions.Event)
    requires Sessions.TableInv(d) && Sessions.TableInv(d') && LacksSessions(d, d', now) && now <= e.at
    requires e.Rotate? && TokenInGrace(d', e.token, e.at)
    ensures LacksSessions(Sessions.Apply(d, e).0, Sessions.Apply(d', e).0, e.at)
    ensures Sessions.Apply(d, e).1 == Sessions.Apply(d', e).1
  {
    hide Sessions.TableInv, LacksSessions, Sessions.Rotated, Sessions.FamilyRevoked;
    LaterLacks(d, d', now, e.at);
    SameRowOfToken(d, d', e.at, e.token);
    ClockLacks(d, d', e.at);
    var row := Sessions.RowOfToken(d.rows, e.token);
    if row.Some? {
      assert Sessions.HasToken(d.rows, row.value, e.token);
      LackedRow(d, d', e.at, row.value);
      RotatedLacks(d, d', row.value, e);
      ReplayLacks(d, d', d.rows[row.value].familyId, e.at);
    }
  }

  lemma LackedRow(d: Sessions.Db, d': Sessions.Db, now: Time, i: Sessions.Id)
    requires LacksSessions(d, d', now) && i in d.rows
    ensures i in d'.rows && d'.rows[i] == d.rows[i]
  {
  }

  lemma LaterLacks(d: Sessions.Db, d': Sessions.Db, now: Time, later: Time)
    requires LacksSessions(d, d', now) && now <= later
    ensures LacksSessions(d, d', later)
  {
  }

  lemma PruneSessionsLacks(d: Sessions.Db, d': Sessions.Db, now: Time, at: Time)
    requires LacksSessions(d, d', now) && now <= at
    ensures LacksSessions(Sessions.Apply(d, Sessions.Prune(SESSION_GRACE, at)).0, d', at)
  {
  }

  // --- The limiter ---------------------------------------------------------------------------------------

  lemma ChargesNarrow(e: Request)
    ensures forall k :: 0 <= k < |Charges(e)| ==> Charges(e)[k].Allow? && Charges(e)[k].window <= HOUR && Charges(e)[k].at == e.at
  {
  }

  lemma {:induction false} ChargedAgree(c: RateLimits.Counts, c': RateLimits.Counts, now: Time, charges: seq<RateLimits.Event>, at: Time)
    requires RateLimits.Agree(c, c', now, HOUR) && now <= at
    requires forall k :: 0 <= k < |charges| ==> charges[k].Allow? && charges[k].window <= HOUR && charges[k].at == at
    ensures Passes(c, charges) == Passes(c', charges)
    ensures RateLimits.Agree(Charged(c, charges), Charged(c', charges), at, HOUR)
    decreases |charges|
  {
    hide RateLimits.Allowed, RateLimits.Apply;
    if charges == [] {
    } else {
      RateLimits.StepAgrees(c, c', now, HOUR, charges[0]);
      ChargedAgree(RateLimits.Apply(c, charges[0]), RateLimits.Apply(c', charges[0]), at, charges[1..], at);
    }
  }

  // --- The codes -----------------------------------------------------------------------------------------

  /** Both tables stand for the same map of current codes. */
  ghost predicate SameSlots(d: Codes.Db, d': Codes.Db) {
    d.born == d'.born && d.links == d'.links && exists m :: Codes.Refines(d, m) && Codes.Refines(d', m)
  }

  lemma CodesAgree(d: Codes.Db, d': Codes.Db, e: Codes.Event)
    requires SameSlots(d, d') && Codes.Enabled(d, e) && Codes.Enabled(d', e)
    ensures Codes.Apply(d, e).1 == Codes.Apply(d', e).1 && SameSlots(Codes.Apply(d, e).0, Codes.Apply(d', e).0)
    ensures e.Prune? ==> SameSlots(Codes.Apply(d, e).0, d')
  {
    hide Codes.Refines, Codes.Apply, Codes.Enabled, Codes.Simple;
    var m :| Codes.Refines(d, m) && Codes.Refines(d', m);
    Codes.StepRefines(d, m, e);
    Codes.StepRefines(d', m, e);
    SameMinting(d, d', e);
    if e.Prune? {
      PruneKeepsMap(m, e);
    }
  }

  lemma PruneKeepsMap(m: Codes.Slots, e: Codes.Event)
    requires e.Prune?
    ensures Codes.Simple(m, e).0 == m
  {
  }

  lemma SameMinting(d: Codes.Db, d': Codes.Db, e: Codes.Event)
    requires d.born == d'.born && d.links == d'.links
    ensures Codes.Apply(d, e).0.born == Codes.Apply(d', e).0.born && Codes.Apply(d, e).0.links == Codes.Apply(d', e).0.links
    ensures e.Prune? ==> Codes.Apply(d, e).0.born == d'.born && Codes.Apply(d, e).0.links == d'.links
  {
  }

  // --- The OAuth tables ------------------------------------------------------------------------------------

  lemma SameUsable(d: OAuthStores.Db, d': OAuthStores.Db, minted: set<OAuthStores.Token>, now: Time, tok: OAuthStores.Token, at: Time)
    requires OAuthStores.Lacks(d, d', minted, now) && now <= at
    ensures OAuthStores.FlowUsable(d, tok, at) == OAuthStores.FlowUsable(d', tok, at)
    ensures OAuthStores.FlowUsable(d, tok, at) ==> d.flows[tok] == d'.flows[tok]
    ensures OAuthStores.CodeUsable(d, tok, at) == OAuthStores.CodeUsable(d', tok, at)
    ensures OAuthStores.CodeUsable(d, tok, at) ==> d.codes[tok] == d'.codes[tok]
    ensures tok !in minted ==> tok !in d.flows && tok !in d'.flows && tok !in d.codes && tok !in d'.codes
  {
  }

  lemma CallLacks(d: OAuthStores.Db, d': OAuthStores.Db, minted: set<OAuthStores.Token>, now: Time, c: OAuthStores.Call)
    requires OAuthStores.Lacks(d, d', minted, now) && now <= c.at && OAuthStores.TokensMinted(c) !! minted && !c.Prune?
    ensures OAuthStores.Lacks(OAuthStores.Apply(d, c).0, OAuthStores.Apply(d', c).0, minted + OAuthStores.TokensMinted(c), c.at)
  {
    hide OAuthStores.Lacks, OAuthStores.Apply;
    if c.CreateFlow? || c.ConsumeFlow? {
      OAuthStores.FlowCallLacks(d, d', minted, now, c);
    } else {
      OAuthStores.CodeCallLacks(d, d', minted, now, c);
    }
  }

  lemma MoreMinted(d: OAuthStores.Db, d': OAuthStores.Db, minted: set<OAuthStores.Token>, more: set<OAuthStores.Token>, now: Time, at: Time)
    requires OAuthStores.Lacks(d, d', minted, now) && minted <= more && now <= at
    ensures OAuthStores.Lacks(d, d', more, at)
  {
  }

  // --- The whole service -------------------------------------------------------------------------------------

  /** What is not stored in a pruned table is the same. */
  ghost predicate SamePeople(w: World, w': World) {
    && w.clients == w'.clients && w.t == w'.t && w.passwords == w'.passwords && w.disabled == w'.disabled
    && w.minted == w'.minted && w'.clock <= w.clock
  }

  /** The first world has been pruned where the second has not. */
  ghost predicate Lagging(w: World, w': World) {
    && SamePeople(w, w')
    && LacksSessions(w.sessions, w'.sessions, w.clock)
    && SameSlots(w.codes, w'.codes)
    && OAuthStores.Lacks(w.oauth, w'.oauth, w.minted, w.clock)
    && RateLimits.Agree(w.counts, w'.counts, w.clock, HOUR)
  }

  /** The session rows a request asks for are not past their grace. */
  ghost predicate AsksInGrace(w: World, e: Request) {
    match e
    case Refresh(_, tok, _, _, _, at) => TokenInGrace(w.sessions, tok, at)
    case Access(sid, at) => sid.Some? && sid.value in w.sessions.rows ==> InGrace(w.sessions.rows[sid.value], at)
    case Logout(sid, at) => sid.Some? && sid.value in w.sessions.rows ==> InGrace(w.sessions.rows[sid.value], at)
    case DeleteSession(_, id, at) => id in w.sessions.rows ==> InGrace(w.sessions.rows[id], at)
    case _ => true
  }

  lemma SameEnabled(w: World, w': World, e: Request)
    requires Lagging(w, w') && Enabled(w, e)
    ensures Enabled(w', e)
  {
    hide RateLimits.Agree, OAuthStores.Lacks;
  }

  lemma SameAdmits(w: World, w': World, e: Request)
    requires Lagging(w, w') && w.clock <= e.at
    ensures Admits(w, e) == Admits(w', e)
    ensures !e.PruneOnce? ==> RateLimits.Agree(CountsAfter(w, e), CountsAfter(w', e), e.at, HOUR)
  {
    hide RateLimits.Agree, OAuthStores.Lacks, LacksSessions, SameSlots, Charges;
    ChargesNarrow(e);
    ChargedAgree(w.counts, w'.counts, w.clock, Charges(e), e.at);
  }

  lemma SameRow(d: Sessions.Db, d': Sessions.Db, now: Time, i: Sessions.Id, at: Time)
    requires LacksSessions(d, d', now) && now <= at && (i in d'.rows ==> InGrace(d'.rows[i], at))
    ensures i in d.rows <==> i in d'.rows
    ensures i in d.rows ==> d.rows[i] == d'.rows[i]
  {
  }

  lemma SameActive(d: Sessions.Db, d': Sessions.Db, now: Time, u: UserId, at: Time)
    requires LacksSessions(d, d', now) && now <= at
    ensures (set i | i in d.rows && SessionStores.Listed(d.rows[i], u, at) :: d.rows[i]) ==
            (set i | i in d'.rows && SessionStores.Listed(d'.rows[i], u, at) :: d'.rows[i])
  {
    forall i | i in d'.rows && SessionStores.Listed(d'.rows[i], u, at) ensures i in d.rows && d.rows[i] == d'.rows[i] {
      SameRow(d, d', now, i, at);
    }
  }

  /** The code request of a handler, if any, gets the same answer. */
  lemma SameCodeReply(w: World, w': World, e: Request, c: Codes.Event)
    requires Lagging(w, w') && w.codes.clock <= w.clock && w'.codes.clock <= w'.clock && w.clock <= c.at
    requires c.Guess? || (c.Redeem? && Codes.Emailed(c.purpose))
    ensures Codes.Apply(w.codes, c).1 == Codes.Apply(w'.codes, c).1
  {
    hide Codes.Apply, SameSlots, RateLimits.Agree, OAuthStores.Lacks, LacksSessions;
    CodesAgree(w.codes, w'.codes, c);
  }

  lemma SameRefresh(w: World, w': World, e: Request)
    requires WorldOk(w) && WorldOk(w') && Lagging(w, w') && w.clock <= e.at && e.Refresh? && AsksInGrace(w', e)
    ensures Sessions.Apply(w.sessions, RotateOf(e)).1 == Sessions.Apply(w'.sessions, RotateOf(e)).1
    ensures RefreshReply(w, e) == RefreshReply(w', e)
  {
    hide SessionRuns.Reachable, CodeRuns.Reachable, SameSlots, RateLimits.Agree, OAuthStores.Lacks, LacksSessions, Sessions.Apply, Admits, TokenInGrace;
    SameAdmits(w, w', e);
    TableOf(w.sessions);
    TableOf(w'.sessions);
    RotateLacks(w.sessions, w'.sessions, w.clock, RotateOf(e));
  }

  lemma TableOf(d: Sessions.Db)
    requires SessionRuns.Reachable(d)
    ensures Sessions.TableInv(d)
  {
    hide Sessions.TableInv, Sessions.MemberInv, Sessions.IndexInv, Sessions.LinkInv, Sessions.ClockInv, Sessions.OrderInv;
    SessionRuns.ReachableInv(d);
  }

  lemma SameCallback(w: World, w': World, e: Request)
    requires Lagging(w, w') && Enabled(w, e) && e.Callback?
    ensures CallbackReply(w, e) == CallbackReply(w', e) && TablesAfter(w, e) == TablesAfter(w', e)
    ensures OAuthStores.FlowUsable(w.oauth, e.state, e.at) ==> w.oauth.flows[e.state] == w'.oauth.flows[e.state]
    ensures OAuthStores.FlowUsable(w.oauth, e.state, e.at) == OAuthStores.FlowUsable(w'.oauth, e.state, e.at)
  {
    hide SameSlots, RateLimits.Agree, OAuthStores.Lacks, LacksSessions, Resolution, Attachment;
    SameUsable(w.oauth, w'.oauth, w.minted, w.clock, e.state, e.at);
    SameUsable(w.oauth, w'.oauth, w.minted, w.clock, e.authCode, e.at);
  }

  lemma SameExchange(w: World, w': World, e: Request, kdf: Kdf)
    requires Lagging(w, w') && Enabled(w, e) && e.Exchange?
    ensures ExchangeReply(w, e, kdf) == ExchangeReply(w', e, kdf)
  {
    hide SameSlots, RateLimits.Agree, OAuthStores.Lacks, LacksSessions, Verify, Admits;
    SameAdmits(w, w', e);
    SameUsable(w.oauth, w'.oauth, w.minted, w.clock, e.authCode, e.at);
  }

  lemma SameRegister(w: World, w': World, e: Request)
    requires Lagging(w, w') && w.clock <= e.at && e.Register?
    ensures RegisterReply(w, e) == RegisterReply(w', e)
  {
    hide SameSlots, RateLimits.Agree, OAuthStores.Lacks, LacksSessions, Admits;
    SameAdmits(w, w', e);
  }

  lemma SameLogin(w: World, w': World, e: Request, kdf: Kdf)
    requires Lagging(w, w') && w.clock <= e.at && e.Login?
    ensures LoginReply(w, e, kdf) == LoginReply(w', e, kdf)
  {
    hide SameSlots, RateLimits.Agree, OAuthStores.Lacks, LacksSessions, Verify, Admits;
    SameAdmits(w, w', e);
  }

  lemma SameStart(w: World, w': World, e: Request)
    requires Lagging(w, w') && Enabled(w, e) && e.Start?
    ensures StartReply(w, e) == StartReply(w', e)
  {
    hide SameSlots, RateLimits.Agree, OAuthStores.Lacks, LacksSessions, Admits, OAuthHandoff.FlowOf;
    SameAdmits(w, w', e);
    SameUsable(w.oauth, w'.oauth, w.minted, w.clock, e.state, e.at);
  }

  lemma SameReset(w: World, w': World, e: Request)
    requires WorldOk(w) && WorldOk(w') && Lagging(w, w') && Enabled(w, e) && e.Reset?
    ensures ResetReply(w, e) == ResetReply(w', e)
  {
    hide SessionRuns.Reachable, CodeRuns.Reachable, SameSlots, RateLimits.Agree, OAuthStores.Lacks, LacksSessions, TablesInv, Admits, Codes.Apply;
    SameAdmits(w, w', e);
    SameCodeReply(w, w', e, Codes.Redeem(Codes.PasswordReset, e.token, e.at));
  }

  lemma SameOtpVerify(w: World, w': World, e: Request)
    requires WorldOk(w) && WorldOk(w') && Lagging(w, w') && Enabled(w, e) && e.OtpVerify?
    ensures OtpVerifyReply(w, e) == OtpVerifyReply(w', e)
  {
    hide SessionRuns.Reachable, CodeRuns.Reachable, SameSlots, RateLimits.Agree, OAuthStores.Lacks, LacksSessions, Admits, Codes.Apply;
    SameAdmits(w, w', e);
    SameCodeReply(w, w', e, OtpGuess(e));
  }

  lemma SameSignInReply(w: World, w': World, e: Request, kdf: Kdf)
    requires WorldOk(w) && WorldOk(w') && Lagging(w, w') && Enabled(w, e)
    requires e.Start? || e.Callback? || SignsIn(e)
    ensures ReplyTo(w, e, kdf) == ReplyTo(w', e, kdf)
  {
    hide SessionRuns.Reachable, CodeRuns.Reachable, SameSlots, RateLimits.Agree, OAuthStores.Lacks, LacksSessions, TablesInv;
    hide Codes.Apply, Admits, StartReply, RefreshReply, CallbackReply, ExchangeReply, RegisterReply, LoginReply, OtpVerifyReply, ResetReply;
    hide TokenInGrace, Charges, SessionStores.Listed;
    EnabledClock(w, e);
    if e.Start? {
      SameStart(w, w', e);
    } else if e.Callback? {
      SameCallback(w, w', e);
    } else if e.Exchange? {
      SameExchange(w, w', e, kdf);
    } else if e.Register? {
      SameRegister(w, w', e);
    } else if e.Login? {
      SameLogin(w, w', e, kdf);
    } else {
      SameOtpVerify(w, w', e);
    }
  }

  lemma SameSessionReply(w: World, w': World, e: Request, kdf: Kdf)
    requires WorldOk(w) && WorldOk(w') && Lagging(w, w') && Enabled(w, e) && AsksInGrace(w', e)
    requires e.Refresh? || e.Access? || e.DeleteSession? || e.ListSessions?
    ensures ReplyTo(w, e, kdf) == ReplyTo(w', e, kdf)
  {
    hide SessionRuns.Reachable, CodeRuns.Reachable, SameSlots, RateLimits.Agree, OAuthStores.Lacks, LacksSessions, TablesInv;
    hide Codes.Apply, Admits, StartReply, RefreshReply, CallbackReply, ExchangeReply, RegisterReply, LoginReply, OtpVerifyReply, ResetReply;
    hide TokenInGrace, Charges, SessionStores.Listed, Enabled;
    EnabledClock(w, e);
    if e.Refresh? {
      SameRefresh(w, w', e);
    } else if e.Access? {
      if e.session.Some? {
        SameRow(w.sessions, w'.sessions, w.clock, e.session.value, e.at);
      }
    } else if e.DeleteSession? {
      SameRow(w.sessions, w'.sessions, w.clock, e.id, e.at);
    } else {
      SameActive(w.sessions, w'.sessions, w.clock, e.subject, e.at);
    }
  }

  /** Every request other than the pruning job itself gets the same reply. */
  lemma SameReply(w: World, w': World, e: Request, kdf: Kdf)
    requires WorldOk(w) && WorldOk(w') && Lagging(w, w') && Enabled(w, e) && AsksInGrace(w', e)
    ensures ReplyTo(w, e, kdf) == ReplyTo(w', e, kdf)
  {
    if e.Start? || e.Callback? || SignsIn(e) {
      hide *;
      SameSignInReply(w, w', e, kdf);
    } else if e.Refresh? || e.Access? || e.DeleteSession? || e.ListSessions? {
      hide *;
      SameSessionReply(w, w', e, kdf);
    } else {
      hide SessionRuns.Reachable, CodeRuns.Reachable, SameSlots, RateLimits.Agree, OAuthStores.Lacks, LacksSessions, TablesInv;
      hide Codes.Apply, Admits, StartReply, RefreshReply, CallbackReply, ExchangeReply, RegisterReply, LoginReply, OtpVerifyReply, ResetReply;
      hide TokenInGrace, Charges, SessionStores.Listed, Enabled;
      EnabledClock(w, e);
      SameAdmits(w, w', e);
      if e.VerifyEmail? {
        SameCodeReply(w, w', e, Codes.Redeem(Codes.EmailVerify, e.token, e.at));
      } else if e.Reset? {
        hide *;
        SameReset(w, w', e);
        ResetReplies(w, e, kdf);
        ResetReplies(w', e, kdf);
      }
    }
  }

  lemma ResetReplies(w: World, e: Request, kdf: Kdf)
    requires e.Reset?
    ensures ReplyTo(w, e, kdf) == ResetReply(w, e)
  {
    hide ResetReply;
  }

  // --- What the stores are asked for ----------------------------------------------------------------------

  lemma SameSessionEvents(w: World, w': World, e: Request, kdf: Kdf)
    requires WorldOk(w) && WorldOk(w') && Lagging(w, w') && Enabled(w, e) && AsksInGrace(w', e)
    ensures SessionEvents(w, e, kdf) == SessionEvents(w', e, kdf)
  {
    hide SessionRuns.Reachable, CodeRuns.Reachable, SameSlots, RateLimits.Agree, OAuthStores.Lacks, LacksSessions, TablesInv;
    hide Codes.Apply, Sessions.Apply, Admits, RefreshReply, ReplyTo, TokenInGrace, Charges;
    hide Enabled;
    EnabledClock(w, e);
    SameAdmits(w, w', e);
    SameReply(w, w', e, kdf);
    match e
    case Refresh(_, _, _, _, _, _) => SameRefresh(w, w', e);
    case Reset(_, tok, _, _, at) => SameCodeReply(w, w', e, Codes.Redeem(Codes.PasswordReset, tok, at));
    case Logout(sid, at) => if sid.Some? { SameRow(w.sessions, w'.sessions, w.clock, sid.value, at); }
    case DeleteSession(_, id, at) => SameRow(w.sessions, w'.sessions, w.clock, id, at);
    case _ =>
  }

  lemma SameCodeEvents(w: World, w': World, e: Request)
    requires Lagging(w, w') && Enabled(w, e)
    ensures CodeEvents(w, e) == CodeEvents(w', e)
  {
    hide SameSlots, RateLimits.Agree, OAuthStores.Lacks, LacksSessions, Admits, Charges;
    SameAdmits(w, w', e);
  }

  lemma SameOAuthCalls(w: World, w': World, e: Request, kdf: Kdf)
    requires Lagging(w, w') && Enabled(w, e)
    ensures OAuthCalls(w, e, kdf) == OAuthCalls(w', e, kdf)
  {
    hide SameSlots, RateLimits.Agree, OAuthStores.Lacks, LacksSessions, Admits, CallbackReply, OAuthHandoff.FlowOf, Verify, Charges;
    SameAdmits(w, w', e);
    if e.Callback? {
      SameCallback(w, w', e);
      CodeForIsUsable(w, e);
    }
  }

  lemma CodeForIsUsable(w: World, e: Request)
    requires e.Callback?
    ensures CallbackReply(w, e).CodeFor? ==> OAuthStores.FlowUsable(w.oauth, e.state, e.at)
  {
  }

  // --- What they leave behind -----------------------------------------------------------------------------

  lemma SessionsLag(w: World, w': World, e: Request, kdf: Kdf)
    requires WorldOk(w) && WorldOk(w') && Lagging(w, w') && Enabled(w, e) && AsksInGrace(w', e) && !e.PruneOnce?
    ensures LacksSessions(Next(w, e, kdf).sessions, Next(w', e, kdf).sessions, e.at)
  {
    hide SessionRuns.Reachable, CodeRuns.Reachable, SameSlots, RateLimits.Agree, OAuthStores.Lacks, LacksSessions, TablesInv, Sessions.Enabled;
    hide Codes.Apply, Sessions.Apply, Admits, RefreshReply, ReplyTo, TokenInGrace, CodeEvents, OAuthCalls, OAuthAfter, CodeRuns.Final;
    hide TablesAfter, PasswordsAfter, CountsAfter;
    var d, d', evs := w.sessions, w'.sessions, SessionEvents(w, e, kdf);
    SameSessionEvents(w, w', e, kdf);
    TableOf(d);
    TableOf(d');
    if evs == [] {
      LaterLacks(d, d', w.clock, e.at);
    } else if |evs| == 1 {
      assert evs == [evs[0]];
      OneSessionEvent(d, evs[0]);
      OneSessionEvent(d', evs[0]);
      if evs[0].Rotate? {
        RotateLacks(d, d', w.clock, evs[0]);
      } else if evs[0].Create? {
        CreateLacks(d, d', w.clock, evs[0]);
      } else {
        RevokeLacks(d, d', w.clock, evs[0]);
      }
    } else {
      assert evs == [evs[0], evs[1]];
      TwoSessionEvents(d, evs[0], evs[1]);
      TwoSessionEvents(d', evs[0], evs[1]);
      RotateLacks(d, d', w.clock, evs[0]);
      RevokeLacks(Sessions.Apply(d, evs[0]).0, Sessions.Apply(d', evs[0]).0, e.at, evs[1]);
    }
  }

  lemma CodesLag(w: World, w': World, e: Request, kdf: Kdf)
    requires WorldOk(w) && WorldOk(w') && Lagging(w, w') && Enabled(w, e)
    ensures !e.PruneOnce? ==> SameSlots(Next(w, e, kdf).codes, Next(w', e, kdf).codes)
    ensures e.PruneOnce? ==> SameSlots(Next(w, e, kdf).codes, w'.codes)
  {
    hide SessionRuns.Reachable, CodeRuns.Reachable, SameSlots, RateLimits.Agree, OAuthStores.Lacks, LacksSessions, TablesInv;
    hide Codes.Apply, SessionRuns.Final, SessionEvents, OAuthCalls, OAuthAfter, TablesAfter, PasswordsAfter, CountsAfter;
    SameCodeEvents(w, w', e);
    SameMintedCodes(w.codes, w'.codes);
    var evs := CodeEvents(w, e);
    if evs == [] {
    } else {
      hide Admits, KnownClient;
      assert evs == [evs[0]];
      OneCodeEvent(w.codes, evs[0]);
      OneCodeEvent(w'.codes, evs[0]);
      CodesAgree(w.codes, w'.codes, evs[0]);
    }
  }

  lemma SameMintedCodes(d: Codes.Db, d': Codes.Db)
    requires SameSlots(d, d')
    ensures d.born == d'.born && d.links == d'.links
  {
  }

  lemma OAuthLags(w: World, w': World, e: Request, kdf: Kdf)
    requires Lagging(w, w') && Enabled(w, e) && !e.PruneOnce?
    ensures OAuthStores.Lacks(Next(w, e, kdf).oauth, Next(w', e, kdf).oauth, w.minted + Drawn(e), e.at)
  {
    hide SameSlots, RateLimits.Agree, OAuthStores.Lacks, LacksSessions, OAuthStores.Apply, CodeRuns.Final, SessionRuns.Final;
    hide SessionEvents, CodeEvents, TablesAfter, PasswordsAfter, CountsAfter;
    var d, d', calls := w.oauth, w'.oauth, OAuthCalls(w, e, kdf);
    SameOAuthCalls(w, w', e, kdf);
    CallsDraw(w, e, kdf);
    if calls == [] {
      MoreMinted(d, d', w.minted, w.minted + Drawn(e), w.clock, e.at);
    } else if |calls| == 1 {
      hide Admits, CallbackReply, RightSecret;
      assert calls == [calls[0]];
      OneCall(d, calls[0]);
      OneCall(d', calls[0]);
      CallLacks(d, d', w.minted, w.clock, calls[0]);
      MoreMinted(OAuthStores.Apply(d, calls[0]).0, OAuthStores.Apply(d', calls[0]).0,
                 w.minted + OAuthStores.TokensMinted(calls[0]), w.minted + Drawn(e), e.at, e.at);
    } else {
      hide Admits, CallbackReply, RightSecret;
      assert calls == [calls[0], calls[1]];
      TwoCalls(d, calls[0], calls[1]);
      TwoCalls(d', calls[0], calls[1]);
      CallLacks(d, d', w.minted, w.clock, calls[0]);
      assert w.minted + OAuthStores.TokensMinted(calls[0]) == w.minted;
      CallLacks(OAuthStores.Apply(d, calls[0]).0, OAuthStores.Apply(d', calls[0]).0, w.minted, e.at, calls[1]);
      assert w.minted + OAuthStores.TokensMinted(calls[1]) == w.minted + Drawn(e);
    }
  }

  lemma TablesLag(w: World, w': World, e: Request)
    requires WorldOk(w) && WorldOk(w') && Lagging(w, w') && Enabled(w, e)
    ensures TablesAfter(w, e) == TablesAfter(w', e)
  {
    hide SessionRuns.Reachable, CodeRuns.Reachable, SameSlots, RateLimits.Agree, OAuthStores.Lacks, LacksSessions, TablesInv;
    hide Codes.Apply, Admits, RegisterReply, Marked, WithUser, LinkStep, Charges;
    SameAdmits(w, w', e);
    match e
    case Callback(_, _, _, _, _, _) => SameCallback(w, w', e);
    case Register(_, _, _, _, _, _, _, _, _, _) => SameRegister(w, w', e);
    case VerifyEmail(_, tok, at) => SameCodeReply(w, w', e, Codes.Redeem(Codes.EmailVerify, tok, at));
    case OtpVerify(_, _, _, _, _, _, _, _, _) => SameCodeReply(w, w', e, OtpGuess(e));
    case _ =>
  }

  lemma PasswordsLag(w: World, w': World, e: Request, kdf: Kdf)
    requires WorldOk(w) && WorldOk(w') && Lagging(w, w') && Enabled(w, e)
    ensures PasswordsAfter(w, e, kdf) == PasswordsAfter(w', e, kdf)
  {
    hide SessionRuns.Reachable, CodeRuns.Reachable, SameSlots, RateLimits.Agree, OAuthStores.Lacks, LacksSessions, TablesInv;
    hide Codes.Apply, Admits, RegisterReply, HashWithParams, Charges;
    SameAdmits(w, w', e);
    match e
    case Register(_, _, _, _, _, _, _, _, _, _) => SameRegister(w, w', e);
    case Reset(_, tok, _, _, at) => SameCodeReply(w, w', e, Codes.Redeem(Codes.PasswordReset, tok, at));
    case _ =>
  }

  lemma PeopleLag(w: World, w': World, e: Request, kdf: Kdf)
    requires WorldOk(w) && WorldOk(w') && Lagging(w, w') && Enabled(w, e)
    ensures SamePeople(Next(w, e, kdf), Next(w', e, kdf))
  {
    hide WorldOk, SameSlots, RateLimits.Agree, OAuthStores.Lacks, LacksSessions, Enabled;
    hide TablesAfter, PasswordsAfter, SessionEvents, CodeEvents, OAuthCalls, OAuthAfter, CountsAfter, CodeRuns.Final, SessionRuns.Final;
    TablesLag(w, w', e);
    PasswordsLag(w, w', e, kdf);
  }

  /** The worlds stay in step. */
  lemma StepLags(w: World, w': World, e: Request, kdf: Kdf)
    requires WorldOk(w) && WorldOk(w') && Lagging(w, w') && Enabled(w, e) && AsksInGrace(w', e) && !e.PruneOnce?
    ensures Lagging(Next(w, e, kdf), Next(w', e, kdf))
  {
    hide SessionRuns.Reachable, CodeRuns.Reachable, SameSlots, RateLimits.Agree, OAuthStores.Lacks, LacksSessions, TablesInv, SamePeople, WorldOk;
    hide SessionEvents, CodeEvents, OAuthCalls, OAuthAfter, CountsAfter, TablesAfter, PasswordsAfter, CodeRuns.Final, SessionRuns.Final, Enabled, AsksInGrace;
    EnabledClock(w, e);
    PeopleLag(w, w', e, kdf);
    SessionsLag(w, w', e, kdf);
    CodesLag(w, w', e, kdf);
    OAuthLags(w, w', e, kdf);
    SameAdmits(w, w', e);
  }

  /** Pruning leaves the world further behind, and nothing else. */
  lemma PruneLags(w: World, w': World, e: Request, kdf: Kdf)
    requires WorldOk(w) && WorldOk(w') && Lagging(w, w') && Enabled(w, e) && e.PruneOnce?
    ensures Lagging(Next(w, e, kdf), w')
  {
    hide SessionRuns.Reachable, CodeRuns.Reachable, SameSlots, RateLimits.Agree, OAuthStores.Lacks, LacksSessions, TablesInv;
    hide CodeRuns.Final, SessionRuns.Final, OAuthAfter, Codes.Apply, Sessions.Apply, OAuthStores.Apply, RateLimits.Apply;
    CodesLag(w, w', e, kdf);
    OneSessionEvent(w.sessions, Sessions.Prune(SESSION_GRACE, e.at));
    PruneSessionsLacks(w.sessions, w'.sessions, w.clock, e.at);
    OneCall(w.oauth, OAuthStores.Prune(e.at));
    OAuthStores.PruneLacks(w.oauth, w'.oauth, w.minted, w.clock, e.at);
    RateLimits.StepAgrees(w.counts, w'.counts, w.clock, HOUR, RateLimits.Prune(WINDOW_GRACE, e.at));
    assert w.minted + Drawn(e) == w.minted;
  }

  // --- Runs ------------------------------------------------------------------------------------------------

  function NoPrunes(evs: seq<Request>): seq<Request> {
    if evs == [] then [] else (if evs[0].PruneOnce? then [] else [evs[0]]) + NoPrunes(evs[1..])
  }

  ghost function Replies(w: World, evs: seq<Request>, kdf: Kdf): seq<Reply>
    decreases |evs|
  {
    if evs == [] then []
    else (if evs[0].PruneOnce? then [] else [ReplyTo(w, evs[0], kdf)]) + Replies(Next(w, evs[0], kdf), evs[1..], kdf)
  }

  ghost predicate AllInGrace(w: World, evs: seq<Request>, kdf: Kdf)
    decreases |evs|
  {
    evs == [] || (AsksInGrace(w, evs[0]) && AllInGrace(Next(w, evs[0], kdf), evs[1..], kdf))
  }

  lemma {:induction false} LaggingReplies(w: World, w': World, evs: seq<Request>, kdf: Kdf)
    requires WorldOk(w) && WorldOk(w') && Lagging(w, w') && ValidRun(w, evs, kdf) && AllInGrace(w', NoPrunes(evs), kdf)
    ensures ValidRun(w', NoPrunes(evs), kdf) && Replies(w, evs, kdf) == Replies(w', NoPrunes(evs), kdf)
    decreases |evs|
  {
    hide WorldOk, Lagging, Enabled, Next, ReplyTo, AsksInGrace;
    if evs == [] {
    } else {
      var e, rest, n := evs[0], evs[1..], Next(w, evs[0], kdf);
      StepKeepsOk(w, e, kdf);
      SameEnabled(w, w', e);
      if e.PruneOnce? {
        assert NoPrunes(evs) == NoPrunes(rest);
        PruneLags(w, w', e, kdf);
        LaggingReplies(n, w', rest, kdf);
      } else {
        assert NoPrunes(evs)[0] == e && NoPrunes(evs)[1..] == NoPrunes(rest);
        StepKeepsOk(w', e, kdf);
        StepLags(w, w', e, kdf);
        SameReply(w, w', e, kdf);
        LaggingReplies(n, Next(w', e, kdf), rest, kdf);
      }
    }
  }

  lemma StandStill(w: World)
    requires WorldOk(w)
    ensures Lagging(w, w)
  {
    hide SessionRuns.Reachable, CodeRuns.Reachable, TablesInv, Codes.Refines;
    var m := CodeRuns.ReachableRefines(w.codes);
  }

  /** The pruning job, run at any moments of any run with its own graces, changes no reply of the service, so
      long as no session row is asked for more than 30 days after its expiry. */
  lemma PruneOnceIsInvisible(now: Time, evs: seq<Request>, kdf: Kdf)
    requires ValidRun(Empty(now), evs, kdf) && AllInGrace(Empty(now), NoPrunes(evs), kdf)
    ensures ValidRun(Empty(now), NoPrunes(evs), kdf)
    ensures Replies(Empty(now), evs, kdf) == Replies(Empty(now), NoPrunes(evs), kdf)
  {
    hide WorldOk, Lagging, ValidRun, AllInGrace, Replies;
    EmptyOk(now);
    StandStill(Empty(now));
    LaggingReplies(Empty(now), Empty(now), evs, kdf);
  }

  /** What the job deletes, and that it touches nothing else: sessions expired for more than thirty days, codes for more
      than a day, flows and auth codes for more than an hour, and windows that began more than a day ago. */
  lemma PruneOnceDeletesExactly(w: World, at: Time, i: Sid, c: Codes.Id, tok: OAuthStores.Token, b: (RateLimits.Bucket, Time), kdf: Kdf)
    ensures var n := Next(w, PruneOnce(at), kdf);
      && (i in n.sessions.rows <==> i in w.sessions.rows && at <= w.sessions.rows[i].expiresAt + 30 * DAY)
      && (i in n.sessions.rows ==> n.sessions.rows[i] == w.sessions.rows[i])
      && (c in n.codes.rows <==> c in w.codes.rows && at <= w.codes.rows[c].expiresAt + DAY)
      && (c in n.codes.rows ==> n.codes.rows[c] == w.codes.rows[c])
      && (tok in n.oauth.flows <==> tok in w.oauth.flows && at <= w.oauth.flows[tok].expiresAt + HOUR)
      && (tok in n.oauth.codes <==> tok in w.oauth.codes && at <= w.oauth.codes[tok].expiresAt + HOUR)
      && (b in n.counts <==> b in w.counts && at <= b.1 + DAY)
      && (b in n.counts ==> n.counts[b] == w.counts[b])
      && n.t == w.t && n.passwords == w.passwords && n.disabled == w.disabled && n.clients == w.clients
  {
    hide Next, Sessions.Apply, Codes.Apply, OAuthStores.Apply, RateLimits.Apply;
    PruneOnceRuns(w, at, kdf);
    PrunedSessions(w.sessions, at, i);
    PrunedCodes(w.codes, at, c);
    PrunedOAuth(w.oauth, at, tok);
    PrunedCounts(w.counts, at, b);
  }

  lemma PrunedSessions(d: Sessions.Db, at: Time, i: Sid)
    ensures var rows := Sessions.Apply(d, Sessions.Prune(30 * DAY, at)).0.rows;
      (i in rows <==> i in d.rows && at <= d.rows[i].expiresAt + 30 * DAY) && (i in rows ==> rows[i] == d.rows[i])
  {
  }

  lemma PrunedCodes(d: Codes.Db, at: Time, c: Codes.Id)
    ensures var rows := Codes.Apply(d, Codes.Prune(DAY, at)).0.rows;
      (c in rows <==> c in d.rows && at <= d.rows[c].expiresAt + DAY) && (c in rows ==> rows[c] == d.rows[c])
  {
  }

  lemma PrunedOAuth(d: OAuthStores.Db, at: Time, tok: OAuthStores.Token)
    ensures var d' := OAuthStores.Apply(d, OAuthStores.Prune(at)).0;
      && (tok in d'.flows <==> tok in d.flows && at <= d.flows[tok].expiresAt + HOUR)
      && (tok in d'.codes <==> tok in d.codes && at <= d.codes[tok].expiresAt + HOUR)
  {
  }

  lemma PrunedCounts(c: RateLimits.Counts, at: Time, b: (RateLimits.Bucket, Time))
    ensures var c' := RateLimits.Apply(c, RateLimits.Prune(DAY, at));
      (b in c' <==> b in c && at <= b.1 + DAY) && (b in c' ==> c'[b] == c[b])
  {
  }

  lemma PruneOnceRuns(w: World, at: Time, kdf: Kdf)
    ensures var n := Next(w, PruneOnce(at), kdf);
      && n.sessions == Sessions.Apply(w.sessions, Sessions.Prune(30 * DAY, at)).0
      && n.codes == Codes.Apply(w.codes, Codes.Prune(DAY, at)).0
      && n.oauth == OAuthStores.Apply(w.oauth, OAuthStores.Prune(at)).0
      && n.counts == RateLimits.Apply(w.counts, RateLimits.Prune(DAY, at))
      && n.t == w.t && n.passwords == w.passwords && n.disabled == w.disabled && n.clients == w.clients
  {
    hide SessionRuns.Final, CodeRuns.Final, OAuthAfter, Sessions.Apply, Codes.Apply, OAuthStores.Apply, RateLimits.Apply;
    OneSessionEvent(w.sessions, Sessions.Prune(SESSION_GRACE, at));
    OneCodeEvent(w.codes, Codes.Prune(CODE_GRACE, at));
    OneCall(w.oauth, OAuthStores.Prune(at));
  }

  lemma PrunedReplay(d: Sessions.Db, i: Sessions.Id, e: Sessions.Event)
    requires SessionRuns.Reachable(d) && Sessions.Enabled(d, e) && e.Rotate?
    requires Sessions.HasToken(d.rows, i, e.token) && d.rows[i].usedAt.Some?
    ensures Sessions.Apply(d, e).1 == Sessions.TokenReuse
    ensures var d' := Sessions.Apply(d, Sessions.Prune(SESSION_GRACE, e.at)).0;
      Sessions.Apply(d', e).1 == if InGrace(d.rows[i], e.at) then Sessions.TokenReuse else Sessions.NotFound
  {
    hide SessionRuns.Reachable;
    var prune := Sessions.Prune(SESSION_GRACE, e.at);
    var d' := Sessions.Apply(d, prune).0;
    SessionStores.ReachableStep(d, prune);
    SessionGuarantees.RotationOutcome(d, e, i);
    SessionStores.PruneLeaves(d, SESSION_GRACE, e.at);
    SessionStores.RowIsUnique(d, i, e.token);
    if InGrace(d.rows[i], e.at) {
      assert Sessions.HasToken(d'.rows, i, e.token);
      SessionStores.RowIsUnique(d', i, e.token);
    } else {
      assert forall j :: Sessions.HasToken(d'.rows, j, e.token) ==> Sessions.HasToken(d.rows, j, e.token);
    }
  }

  /** The 30 days matter: later than that, a replayed token that would have been reported as reuse is merely
      not found if the job has run. */
  lemma PruneOnceForgetsOldReplays(w: World, e: Request, i: Sessions.Id, kdf: Kdf)
    requires WorldOk(w) && Enabled(w, e) && e.Refresh? && Admits(w, e) && Admits(Next(w, PruneOnce(e.at), kdf), e)
    requires Sessions.HasToken(w.sessions.rows, i, e.refreshToken) && w.sessions.rows[i].usedAt.Some?
    ensures ReplyTo(w, e, kdf) == Denied(ReuseDetected)
    ensures ReplyTo(Next(w, PruneOnce(e.at), kdf), e, kdf) == Denied(if InGrace(w.sessions.rows[i], e.at) then ReuseDetected else Unauthorized)
  {
    hide SessionRuns.Reachable, CodeRuns.Reachable, TablesInv, Admits, Sessions.TableInv, Sessions.Apply, SessionRuns.Final;
    hide CodeRuns.Final, OAuthAfter, Codes.Apply, OAuthStores.Apply, RateLimits.Apply;
    OneSessionEvent(w.sessions, Sessions.Prune(SESSION_GRACE, e.at));
    PrunedReplay(w.sessions, i, RotateOf(e));
  }
}
