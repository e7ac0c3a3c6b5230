/** What the tokens of a reply are good for, and what logging out, listing and checking access do with them. */
module ServiceSignIns {
  import opened Prelude
  import opened Accounts
  import opened Passwords
  import opened Service
  import opened ServiceRuns
  import opened ServiceReplies
  import opened ServiceSessions
  import CodeRuns
  import Sessions
  import SessionRuns
  import SessionGuarantees
  import SessionHandlers
  import SessionLifetimes
  import ServiceHandoff

  // --- The row behind a reply ---------------------------------------------------------------------------------

  /** A sign-in that hands out tokens opens one session, column by column, and touches no other. */
  lemma SignInOpens(w: World, e: Request, kdf: Kdf)
    requires WorldOk(w) && Enabled(w, e) && SignsIn(e) && ReplyTo(w, e, kdf).Tokens?
    ensures e.clientId in w.clients
    ensures var u := ReplyTo(w, e, kdf).userId;
      && ReplyTo(w, e, kdf) == Tokens(u, w.clients[e.clientId].audience, e.sid, e.raw)
      && u !in w.disabled && u in Next(w, e, kdf).t.users
      && Next(w, e, kdf).sessions.rows == w.sessions.rows[e.sid :=
           Sessions.Session(e.sid, u, e.clientId, e.sid, None, e.raw, e.at, e.at + 30 * DAY, None, None, e.meta)]
  {
    hide SessionRuns.Reachable, CodeRuns.Reachable, TablesInv, Admits, Verify, Sessions.Fresh;
    hide TablesAfter, CodeEvents, OAuthCalls, CountsAfter, PasswordsAfter, CodeRuns.Final, OAuthAfter, SessionRuns.Final;
    SignInReply(w, e, kdf);
    TokensAreProved(w, e, kdf);
    OneSessionEvent(w.sessions, SessionEvents(w, e, kdf)[0]);
    hide Proves;
    SignedInUser(w, e, kdf);
  }

  lemma SignInReply(w: World, e: Request, kdf: Kdf)
    requires SignsIn(e) && ReplyTo(w, e, kdf).Tokens?
    ensures e.clientId in w.clients
    ensures ReplyTo(w, e, kdf) == Tokens(ReplyTo(w, e, kdf).userId, w.clients[e.clientId].audience, e.sid, e.raw)
  {
    hide Admits, Verify;
  }

  lemma SignedInUser(w: World, e: Request, kdf: Kdf)
    requires WorldOk(w) && Enabled(w, e) && SignsIn(e) && ReplyTo(w, e, kdf).Tokens?
    ensures ReplyTo(w, e, kdf).userId in Next(w, e, kdf).t.users
  {
    hide SessionRuns.Reachable, CodeRuns.Reachable, Admits, Verify, Sessions.Fresh, TablesInv;
    hide SessionEvents, CodeEvents, OAuthCalls, CountsAfter, PasswordsAfter, CodeRuns.Final, OAuthAfter, SessionRuns.Final;
    TablesStep(w, e);
    NoOwnerIsFree(w.t, if e.Exchange? then "" else e.email);
  }

  /** A refresh that hands out tokens spends the row it was shown and opens its successor, for the same user and
      client. */
  lemma RefreshOpens(w: World, e: Request, kdf: Kdf) returns (i: Sid)
    requires WorldOk(w) && Enabled(w, e) && e.Refresh? && ReplyTo(w, e, kdf).Tokens?
    ensures Sessions.HasToken(w.sessions.rows, i, e.refreshToken)
    ensures var row := w.sessions.rows[i];
      && row.clientId in w.clients && row.userId in w.t.users && row.userId !in w.disabled
      && ReplyTo(w, e, kdf) == Tokens(row.userId, w.clients[row.clientId].audience, e.sid, e.raw)
      && Next(w, e, kdf).sessions.rows == w.sessions.rows[i := row.(usedAt := Some(e.at))][e.sid :=
           Sessions.Session(e.sid, row.userId, row.clientId, row.familyId, Some(i), e.raw, e.at, e.at + 30 * DAY, None, None, e.meta)]
  {
    hide SessionRuns.Reachable, CodeRuns.Reachable, TablesInv, Admits, Sessions.Apply, Sessions.Fresh, Next;
    if k :| Sessions.HasToken(w.sessions.rows, k, e.refreshToken) {
      i := k;
      RefreshExactly(w, e, i, kdf);
      SessionLifetimes.RotationIssues(w.sessions, RotateOf(e), i);
      SessionsNext(w, e, kdf);
    } else {
      SessionGuarantees.UnknownTokenNotFound(w.sessions, RotateOf(e));
    }
  }

  // --- What the reply is good for ---------------------------------------------------------------------------------

  /** The reply's session: live, with the reply's refresh token, for its user, until thirty days after. */
  ghost predicate OpenedFor(d: Sessions.Db, e: Request, u: UserId, c: ClientId)
    requires SignsIn(e) || e.Refresh?
  {
    && SessionLifetimes.Live(d, e.sid) && d.rows[e.sid].token == e.raw && d.rows[e.sid].userId == u && d.rows[e.sid].clientId == c
    && d.rows[e.sid].expiresAt == e.at + 30 * DAY && d.rows[e.sid].meta == e.meta
  }

  lemma HandsOut(w: World, e: Request, kdf: Kdf) returns (c: ClientId)
    requires WorldOk(w) && Enabled(w, e) && (SignsIn(e) || e.Refresh?) && ReplyTo(w, e, kdf).Tokens?
    ensures c in w.clients && (SignsIn(e) ==> c == e.clientId)
    ensures var u := ReplyTo(w, e, kdf).userId;
      && ReplyTo(w, e, kdf) == Tokens(u, w.clients[c].audience, e.sid, e.raw)
      && u in Next(w, e, kdf).t.users && OpenedFor(Next(w, e, kdf).sessions, e, u, c)
  {
    hide WorldOk, Enabled, Next, ReplyTo;
    if SignsIn(e) {
      SignInOpens(w, e, kdf);
      c := e.clientId;
    } else {
      var i := RefreshOpens(w, e, kdf);
      c := w.sessions.rows[i].clientId;
      KeepsUsers(w, e, kdf);
    }
  }

  lemma KeepsUsers(w: World, e: Request, kdf: Kdf)
    requires WorldOk(w) && Enabled(w, e)
    ensures w.t.users.Keys <= Next(w, e, kdf).t.users.Keys
  {
    hide SessionRuns.Reachable, CodeRuns.Reachable, TablesInv, TablesAfter, SessionEvents, CodeEvents, OAuthCalls, CountsAfter, PasswordsAfter, OAuthAfter;
    TablesStep(w, e);
  }

  /** A client, once created, stays as it is. */
  lemma {:induction false} ClientStays(w: World, evs: seq<Request>, c: ClientId, kdf: Kdf)
    requires ValidRun(w, evs, kdf) && c in w.clients
    ensures c in Final(w, evs, kdf).clients && Final(w, evs, kdf).clients[c] == w.clients[c]
    decreases |evs|
  {
    hide Enabled, TablesAfter, SessionEvents, CodeEvents, OAuthCalls, CountsAfter, PasswordsAfter, OAuthAfter;
    if evs == [] {
    } else {
      ClientStays(Next(w, evs[0], kdf), evs[1..], c, kdf);
    }
  }

  lemma ClientNext(w: World, e: Request, c: ClientId, kdf: Kdf)
    requires c in w.clients
    ensures c in Next(w, e, kdf).clients && Next(w, e, kdf).clients[c] == w.clients[c]
  {
    hide TablesAfter, SessionEvents, CodeEvents, OAuthCalls, CountsAfter, PasswordsAfter, OAuthAfter;
  }

  /** The row of a token, after any run: there with the same columns, or gone, and then nobody has the token. */
  lemma HolderLater(w: World, evs: seq<Request>, i: Sid, kdf: Kdf)
    requires WorldOk(w) && ValidRun(w, evs, kdf) && i in w.sessions.rows
    ensures var d' := Final(w, evs, kdf).sessions;
      if i in d'.rows then Sessions.HasToken(d'.rows, i, w.sessions.rows[i].token) && SessionRuns.StampsKept(w.sessions.rows[i], d'.rows[i])
      else forall j :: !Sessions.HasToken(d'.rows, j, w.sessions.rows[i].token)
  {
    hide SessionRuns.Reachable, CodeRuns.Reachable, TablesInv, ValidRun, Final, SessionRuns.ValidRun, SessionRuns.Final, Sessions.Inv;
    var d, d' := w.sessions, Final(w, evs, kdf).sessions;
    SessionRunIsRun(w, evs, kdf);
    RunKeepsOk(w, evs, kdf);
    SessionRuns.ReachableInv(d);
    SessionRuns.ReachableInv(d');
    RowIsBorn(d, i);
    SessionRuns.StampsAreWriteOnce(d, SessionRun(w, evs, kdf));
    SessionGuarantees.BirthKept(d, d', i);
    if i !in d'.rows {
      forall j ensures !Sessions.HasToken(d'.rows, j, d.rows[i].token) {
        if Sessions.HasToken(d'.rows, j, d.rows[i].token) {
          NoOtherHolder(d', i, j);
        }
      }
    }
  }

  lemma NoOtherHolder(d: Sessions.Db, i: Sid, j: Sid)
    requires Sessions.Inv(d) && i in d.born && Sessions.HasToken(d.rows, j, d.born[i].row.token)
    ensures i == j
  {
    hide Sessions.MemberInv, Sessions.IndexInv, Sessions.LinkInv, Sessions.ClockInv, Sessions.OrderInv;
  }

  /** The refresh token of a reply, whether of a sign-in or of a refresh: whatever requests come in between, a refresh
      with it hands out tokens, for the same user and client, if and only if that is within thirty days, no request
      in between has ended the session, none has presented the token, and the user is not disabled by then. */
  lemma TokensRefreshExactly(w: World, e: Request, evs: seq<Request>, r: Request, kdf: Kdf)
    requires WorldOk(w) && Enabled(w, e) && (SignsIn(e) || e.Refresh?) && ReplyTo(w, e, kdf).Tokens?
    requires ValidRun(Next(w, e, kdf), evs, kdf) && Enabled(Final(Next(w, e, kdf), evs, kdf), r)
    requires r.Refresh? && r.refreshToken == ReplyTo(w, e, kdf).refreshToken && Admits(Final(Next(w, e, kdf), evs, kdf), r)
    ensures var n, w', t := Next(w, e, kdf), Final(Next(w, e, kdf), evs, kdf), ReplyTo(w, e, kdf);
      && t.sid in n.sessions.rows
      && (ReplyTo(w', r, kdf).Tokens? <==>
            r.at <= e.at + 30 * DAY && NeverEnded(n, evs, t.sid, kdf) && NeverPresented(n, evs, t.refreshToken, kdf) && t.userId !in w'.disabled)
      && (ReplyTo(w', r, kdf).Tokens? ==> ReplyTo(w', r, kdf) == Tokens(t.userId, t.audience, r.sid, r.raw))
  {
    hide WorldOk, Next, Final, ValidRun, NeverEnded, NeverPresented, Admits, Sessions.Rotatable;
    var n, w', u := Next(w, e, kdf), Final(Next(w, e, kdf), evs, kdf), ReplyTo(w, e, kdf).userId;
    var c := HandsOut(w, e, kdf);
    hide ReplyTo;
    StepKeepsOk(w, e, kdf);
    RunKeepsOk(n, evs, kdf);
    EnabledClock(w', r);
    ClientNext(w, e, c, kdf);
    ClientStays(n, evs, c, kdf);
    ServiceHandoff.UserStays(n, evs, u, kdf);
    ExchangeableExactly(n, evs, e.sid, r.at, kdf);
    HolderLater(n, evs, e.sid, kdf);
    if e.sid in w'.sessions.rows {
      RefreshExactly(w', r, e.sid, kdf);
    } else {
      UnknownIsRefused(w', r, kdf);
    }
  }

  lemma UnknownIsRefused(w: World, r: Request, kdf: Kdf)
    requires r.Refresh? && Admits(w, r) && forall j :: !Sessions.HasToken(w.sessions.rows, j, r.refreshToken)
    ensures ReplyTo(w, r, kdf) == Denied(Unauthorized)
  {
    hide Admits;
    SessionGuarantees.UnknownTokenNotFound(w.sessions, RotateOf(r));
  }

  /** The access token of a reply: admitted for as long as no request ends its session. */
  lemma TokensAdmitExactly(w: World, e: Request, evs: seq<Request>, at: Time, kdf: Kdf)
    requires WorldOk(w) && Enabled(w, e) && (SignsIn(e) || e.Refresh?) && ReplyTo(w, e, kdf).Tokens?
    requires ValidRun(Next(w, e, kdf), evs, kdf)
    ensures ReplyTo(w, e, kdf).sid in Next(w, e, kdf).sessions.rows
    ensures ReplyTo(Final(Next(w, e, kdf), evs, kdf), Access(Some(ReplyTo(w, e, kdf).sid), at), kdf) == Checked(SessionHandlers.Admitted) <==>
            NeverEnded(Next(w, e, kdf), evs, ReplyTo(w, e, kdf).sid, kdf)
  {
    hide WorldOk, Next, Final, ValidRun, NeverEnded;
    var c := HandsOut(w, e, kdf);
    hide ReplyTo;
    StepKeepsOk(w, e, kdf);
    AccessExactly(Next(w, e, kdf), evs, e.sid, at, kdf);
  }

  /** The check of an access token: a token without a session id passes; otherwise the three answers tell apart a
      row that stands, one that is revoked, and none. */
  lemma AccessReplies(w: World, i: Sid, at: Time, kdf: Kdf)
    ensures ReplyTo(w, Access(None, at), kdf) == Checked(SessionHandlers.Admitted)
    ensures ReplyTo(w, Access(Some(i), at), kdf) == Checked(SessionHandlers.Admitted) <==> Standing(w, i)
    ensures ReplyTo(w, Access(Some(i), at), kdf) == Checked(SessionHandlers.NoSession) <==> i !in w.sessions.rows
  {
  }

  // --- Logging out -----------------------------------------------------------------------------------------------

  /** Logging out of a session kills its family and leaves the rows of all others as they were; at no later point of
      any run is a session id of the family admitted or a token ever minted for it exchanged. */
  lemma LogoutIsFinal(w: World, i: Sid, at: Time, j: Sid, evs: seq<Request>, r: Request, kdf: Kdf)
    requires WorldOk(w) && i in w.sessions.rows && w.clock <= at
    requires j in w.sessions.born && w.sessions.born[j].row.familyId == w.sessions.rows[i].familyId
    requires ValidRun(Next(w, Logout(Some(i), at), kdf), evs, kdf)
    ensures var n := Next(w, Logout(Some(i), at), kdf); var w' := Final(n, evs, kdf);
      && SessionRuns.Dead(n.sessions, w.sessions.rows[i].familyId)
      && (forall k :: k in w.sessions.rows && w.sessions.rows[k].familyId != w.sessions.rows[i].familyId ==>
            k in n.sessions.rows && n.sessions.rows[k] == w.sessions.rows[k])
      && ReplyTo(w', Access(Some(j), r.at), kdf) != Checked(SessionHandlers.Admitted)
      && (Enabled(w', r) && r.Refresh? && r.refreshToken == w.sessions.born[j].row.token ==> !ReplyTo(w', r, kdf).Tokens?)
  {
    hide SessionRuns.Reachable, CodeRuns.Reachable, TablesInv, ValidRun, Final, SessionRuns.Dead, Sessions.Fresh;
    var e := Logout(Some(i), at);
    LogoutRevokes(w, i, at, kdf);
    StepKeepsOk(w, e, kdf);
    StaysBorn(w, e, j, kdf);
    hide Next, ReplyTo;
    DeadIsOver(Next(w, e, kdf), w.sessions.rows[i].familyId, j, evs, r, kdf);
  }

  lemma LogoutRevokes(w: World, i: Sid, at: Time, kdf: Kdf)
    requires WorldOk(w) && i in w.sessions.rows && w.clock <= at
    ensures var n := Next(w, Logout(Some(i), at), kdf);
      && SessionRuns.Dead(n.sessions, w.sessions.rows[i].familyId)
      && forall k :: k in w.sessions.rows && w.sessions.rows[k].familyId != w.sessions.rows[i].familyId ==>
           k in n.sessions.rows && n.sessions.rows[k] == w.sessions.rows[k]
  {
    hide SessionRuns.Reachable, CodeRuns.Reachable, TablesInv, SessionRuns.Dead, Sessions.Apply;
    var e := Logout(Some(i), at);
    SessionsNext(w, e, kdf);
    RevokedFamilyIsDead(w, e, i, kdf);
    forall k | k in w.sessions.rows && w.sessions.rows[k].familyId != w.sessions.rows[i].familyId
      ensures k in Next(w, e, kdf).sessions.rows && Next(w, e, kdf).sessions.rows[k] == w.sessions.rows[k]
    {
      SessionHandlers.RevokingAFamilySparesOthers(w.sessions, i, at, k);
    }
  }

  /** Births are never forgotten. */
  lemma StaysBorn(w: World, e: Request, j: Sid, kdf: Kdf)
    requires WorldOk(w) && Enabled(w, e) && j in w.sessions.born
    ensures j in Next(w, e, kdf).sessions.born && Next(w, e, kdf).sessions.born[j] == w.sessions.born[j]
  {
    hide SessionRuns.Reachable, CodeRuns.Reachable, TablesInv, Next, Enabled, SessionEvents, SessionRuns.ValidRun, SessionRuns.Final;
    SessionEventsValid(w, e, kdf);
    SessionRuns.StampsAreWriteOnce(w.sessions, SessionEvents(w, e, kdf));
    SessionGuarantees.BirthKept(w.sessions, SessionRuns.Final(w.sessions, SessionEvents(w, e, kdf)), j);
    NextSessions(w, e, kdf);
  }

  lemma DeadIsOver(w: World, f: Sid, j: Sid, evs: seq<Request>, r: Request, kdf: Kdf)
    requires WorldOk(w) && SessionRuns.Dead(w.sessions, f) && j in w.sessions.born && w.sessions.born[j].row.familyId == f
    requires ValidRun(w, evs, kdf)
    ensures ReplyTo(Final(w, evs, kdf), Access(Some(j), r.at), kdf) != Checked(SessionHandlers.Admitted)
    ensures Enabled(Final(w, evs, kdf), r) && r.Refresh? && r.refreshToken == w.sessions.born[j].row.token ==>
            !ReplyTo(Final(w, evs, kdf), r, kdf).Tokens?
  {
    hide SessionRuns.Reachable, CodeRuns.Reachable, TablesInv, SessionRuns.Dead, ValidRun, Final, Enabled, SessionRuns.ValidRun, SessionRuns.Final;
    if Enabled(Final(w, evs, kdf), r) && r.Refresh? && r.refreshToken == w.sessions.born[j].row.token {
      DeadForGood(w, f, j, evs, r.at, r, kdf);
    } else {
      SessionRunIsRun(w, evs, kdf);
      SessionHandlers.DeadFamilyIsShutOut(w.sessions, f, j, SessionRun(w, evs, kdf), Sessions.Prune(0, 0));
    }
  }

  /** Logging out everywhere does the same to every session the user ever had, and leaves other users' rows. */
  lemma LogoutAllIsFinal(w: World, u: UserId, at: Time, j: Sid, evs: seq<Request>, r: Request, kdf: Kdf)
    requires WorldOk(w) && w.clock <= at && j in w.sessions.born && w.sessions.born[j].row.userId == u
    requires ValidRun(Next(w, LogoutAll(u, at), kdf), evs, kdf)
    ensures var n := Next(w, LogoutAll(u, at), kdf); var w' := Final(n, evs, kdf);
      && SessionRuns.Dead(n.sessions, w.sessions.born[j].row.familyId)
      && (forall k :: k in w.sessions.rows && w.sessions.rows[k].userId != u ==>
            k in n.sessions.rows && n.sessions.rows[k] == w.sessions.rows[k])
      && ReplyTo(w', Access(Some(j), r.at), kdf) != Checked(SessionHandlers.Admitted)
      && (Enabled(w', r) && r.Refresh? && r.refreshToken == w.sessions.born[j].row.token ==> !ReplyTo(w', r, kdf).Tokens?)
  {
    hide SessionRuns.Reachable, CodeRuns.Reachable, TablesInv, ValidRun, Final, SessionRuns.Dead, Sessions.Fresh;
    var e := LogoutAll(u, at);
    LogoutAllRevokes(w, u, at, j, kdf);
    StepKeepsOk(w, e, kdf);
    StaysBorn(w, e, j, kdf);
    hide Next, ReplyTo;
    DeadIsOver(Next(w, e, kdf), w.sessions.born[j].row.familyId, j, evs, r, kdf);
  }

  lemma LogoutAllRevokes(w: World, u: UserId, at: Time, j: Sid, kdf: Kdf)
    requires WorldOk(w) && w.clock <= at && j in w.sessions.born && w.sessions.born[j].row.userId == u
    ensures var n := Next(w, LogoutAll(u, at), kdf);
      && SessionRuns.Dead(n.sessions, w.sessions.born[j].row.familyId)
      && forall k :: k in w.sessions.rows && w.sessions.rows[k].userId != u ==>
           k in n.sessions.rows && n.sessions.rows[k] == w.sessions.rows[k]
  {
    hide SessionRuns.Reachable, CodeRuns.Reachable, TablesInv, SessionRuns.Dead, Sessions.Inv;
    var e, revoke := LogoutAll(u, at), Sessions.RevokeAllForUser(u, at);
    SessionsNext(w, e, kdf);
    SessionRuns.ReachableInv(w.sessions);
    BornInFamily(w.sessions, j);
    SessionRuns.LogoutAllKills(w.sessions, revoke, w.sessions.born[j].row.familyId);
  }

  lemma BornInFamily(d: Sessions.Db, j: Sid)
    requires Sessions.Inv(d) && j in d.born
    ensures d.born[j].row.familyId in d.families && d.families[d.born[j].row.familyId].userId == d.born[j].row.userId
  {
    hide Sessions.TableInv, Sessions.MemberInv, Sessions.IndexInv, Sessions.LinkInv, Sessions.ClockInv, Sessions.OrderInv;
    SessionHandlers.BornAgrees(d, j);
  }

  /** A logout without a session, or of one that is gone, changes nothing. */
  lemma LogoutOfNothing(w: World, sid: Option<Sid>, at: Time, kdf: Kdf)
    requires sid.None? || sid.value !in w.sessions.rows
    ensures Next(w, Logout(sid, at), kdf).sessions == w.sessions
  {
    SessionsNext(w, Logout(sid, at), kdf);
  }

  // --- The list --------------------------------------------------------------------------------------------------

  /** The list of sessions has exactly the rows of the user that could be exchanged now and not only at this very
      instant, each as it is in the table. */
  lemma ListExactly(w: World, subject: UserId, at: Time, s: Sessions.Session, kdf: Kdf)
    ensures ReplyTo(w, ListSessions(subject, at), kdf).Active?
    ensures s in ReplyTo(w, ListSessions(subject, at), kdf).rows <==>
            exists i :: i in w.sessions.rows && w.sessions.rows[i] == s && s.userId == subject && Sessions.Rotatable(s, at) && at != s.expiresAt
  {
  }
}
