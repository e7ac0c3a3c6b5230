/** What requests do to sessions, over whole runs: what signing in opens, how long it lasts, and what ends it. */
module ServiceSessions {
  import opened Prelude
  import opened Accounts
  import opened Passwords
  import opened Service
  import opened ServiceRuns
  import opened ServiceReplies
  import Codes
  import CodeRuns
  import Sessions
  import SessionRuns
  import SessionGuarantees
  import SessionStores
  import SessionHandlers
  import SessionLifetimes

  // --- What a request ends ---------------------------------------------------------------------------------

  /** The refresh presents the token of a spent row of the family. */
  ghost predicate Replays(w: World, e: Request, f: Sid, j: Sid)
    requires e.Refresh?
  {
    Sessions.HasToken(w.sessions.rows, j, e.refreshToken) && w.sessions.rows[j].usedAt.Some? && w.sessions.rows[j].familyId == f
  }

  /** The refresh presents an exchangeable token of the user, who is disabled. */
  ghost predicate FindsDisabled(w: World, e: Request, u: UserId, j: Sid)
    requires e.Refresh?
  {
    && Sessions.HasToken(w.sessions.rows, j, e.refreshToken) && Sessions.Rotatable(w.sessions.rows[j], e.at)
    && w.sessions.rows[j].userId == u && u in w.disabled
  }

  /** Which requests end the session: logging out of its family, logging its user out everywhere, deleting a session
      of its family as its user, replaying a spent token of the family, refreshing as its user when disabled,
      resetting its user's password, and pruning it. */
  ghost predicate EndsSession(w: World, e: Request, i: Sid)
    requires i in w.sessions.rows
  {
    var row := w.sessions.rows[i];
    match e
    case Logout(sid, _) => sid.Some? && sid.value in w.sessions.rows && w.sessions.rows[sid.value].familyId == row.familyId
    case LogoutAll(subject, _) => subject == row.userId
    case DeleteSession(subject, j, _) =>
      j in w.sessions.rows && w.sessions.rows[j].userId == subject && w.sessions.rows[j].familyId == row.familyId
    case Refresh(_, _, _, _, _, _) =>
      Admits(w, e) && ((exists j :: Replays(w, e, row.familyId, j)) || (exists j :: FindsDisabled(w, e, row.userId, j)))
    case Reset(_, tok, password, _, at) =>
      10 <= |password| && Admits(w, e) && Redeemable(w.codes.rows, Codes.PasswordReset, tok, at, row.userId)
    case PruneOnce(at) => row.expiresAt + 30 * DAY < at
    case _ => false
  }

  ghost predicate Standing(w: World, i: Sid) {
    i in w.sessions.rows && w.sessions.rows[i].revokedAt.None?
  }

  /** The event a request runs, if it runs one, ends the session exactly when the request is one that does. */
  lemma OneEventEnds(w: World, e: Request, i: Sid, kdf: Kdf)
    requires WorldOk(w) && Enabled(w, e) && Standing(w, i) && |SessionEvents(w, e, kdf)| <= 1
    ensures EndsSession(w, e, i) <==>
            SessionEvents(w, e, kdf) != [] && SessionHandlers.Ends(w.sessions, SessionEvents(w, e, kdf)[0], i)
  {
    hide SessionRuns.Reachable, CodeRuns.Reachable, TablesInv, Admits, Sessions.Apply, Codes.Apply, Redeemable, Sessions.Fresh, Verify;
    if e.Reset? {
      ResetEnds(w, e, i, kdf);
    } else if e.Refresh? {
      RefreshEnds(w, e, i, kdf);
    }
  }

  lemma ResetEnds(w: World, e: Request, i: Sid, kdf: Kdf)
    requires WorldOk(w) && e.Reset? && Standing(w, i)
    ensures EndsSession(w, e, i) <==>
            SessionEvents(w, e, kdf) != [] && SessionHandlers.Ends(w.sessions, SessionEvents(w, e, kdf)[0], i)
  {
    hide SessionRuns.Reachable, CodeRuns.Reachable, TablesInv, Admits, Sessions.Apply, Codes.Apply, Redeemable, Sessions.Fresh;
    RedeemedExactly(w.codes, Codes.PasswordReset, e.token, e.at, w.sessions.rows[i].userId);
  }

  lemma RefreshEnds(w: World, e: Request, i: Sid, kdf: Kdf)
    requires WorldOk(w) && Enabled(w, e) && e.Refresh? && Standing(w, i) && |SessionEvents(w, e, kdf)| <= 1
    ensures EndsSession(w, e, i) <==>
            SessionEvents(w, e, kdf) != [] && SessionHandlers.Ends(w.sessions, SessionEvents(w, e, kdf)[0], i)
  {
    hide SessionRuns.Reachable, CodeRuns.Reachable, TablesInv, Admits, Sessions.Apply, Sessions.Fresh;
    if Admits(w, e) {
      if j :| FindsDisabled(w, e, w.sessions.rows[i].userId, j) {
        DisabledRefreshRuns(w, e, j, kdf);
      }
    }
    assert (exists j :: Replays(w, e, w.sessions.rows[i].familyId, j)) <==> SessionHandlers.Ends(w.sessions, RotateOf(e), i) by {
      forall j ensures Replays(w, e, w.sessions.rows[i].familyId, j) <==>
        Sessions.HasToken(w.sessions.rows, j, e.refreshToken) && w.sessions.rows[j].usedAt.Some? && w.sessions.rows[j].familyId == w.sessions.rows[i].familyId
      {
      }
    }
  }

  /** A disabled user's refresh rotates, and then revokes. */
  lemma DisabledRefreshRuns(w: World, e: Request, j: Sid, kdf: Kdf)
    requires WorldOk(w) && Enabled(w, e) && e.Refresh? && Sessions.HasToken(w.sessions.rows, j, e.refreshToken)
    requires Sessions.Rotatable(w.sessions.rows[j], e.at) && w.sessions.rows[j].userId in w.disabled && Admits(w, e)
    ensures SessionEvents(w, e, kdf) == [RotateOf(e), Sessions.RevokeAllForUser(w.sessions.rows[j].userId, e.at)]
  {
    hide SessionRuns.Reachable, CodeRuns.Reachable, TablesInv, Admits, Sessions.Apply, Sessions.Fresh;
    SessionGuarantees.RotationOutcome(w.sessions, RotateOf(e), j);
  }

  /** Conversely, two transactions are run only for an exchangeable token of a disabled user. */
  lemma TwoEvents(w: World, e: Request, kdf: Kdf) returns (j: Sid)
    requires WorldOk(w) && Enabled(w, e) && |SessionEvents(w, e, kdf)| > 1
    ensures e.Refresh? && Admits(w, e) && j in w.sessions.rows && FindsDisabled(w, e, w.sessions.rows[j].userId, j)
    ensures SessionEvents(w, e, kdf) == [RotateOf(e), Sessions.RevokeAllForUser(w.sessions.rows[j].userId, e.at)]
  {
    hide SessionRuns.Reachable, CodeRuns.Reachable, TablesInv, Admits, Sessions.Apply, Sessions.Fresh;
    assert e.Refresh? && RefreshReply(w, e) == Denied(AccountDisabled);
    if k :| Sessions.HasToken(w.sessions.rows, k, e.refreshToken) {
      j := k;
      RefreshExactly(w, e, j, kdf);
      DisabledRefreshRuns(w, e, j, kdf);
    } else {
      SessionGuarantees.UnknownTokenNotFound(w.sessions, RotateOf(e));
    }
  }

  /** What a request leaves of the sessions table. */
  lemma SessionsNext(w: World, e: Request, kdf: Kdf)
    ensures var d, d', evs := w.sessions, Next(w, e, kdf).sessions, SessionEvents(w, e, kdf);
      && (evs == [] ==> d' == d)
      && (|evs| == 1 ==> d' == Sessions.Apply(d, evs[0]).0)
      && (|evs| == 2 ==> d' == Sessions.Apply(Sessions.Apply(d, evs[0]).0, evs[1]).0)
      && |evs| <= 2
  {
    hide SessionEvents, TablesAfter, CodeEvents, OAuthCalls, CountsAfter, PasswordsAfter, CodeRuns.Final, OAuthAfter, Sessions.Apply;
    var evs := SessionEvents(w, e, kdf);
    FewEvents(w, e, kdf);
    NoEvents(w.sessions, w.codes);
    if |evs| == 1 {
      assert evs == [evs[0]];
      OneSessionEvent(w.sessions, evs[0]);
    } else if |evs| == 2 {
      assert evs == [evs[0], evs[1]];
      TwoSessionEvents(w.sessions, evs[0], evs[1]);
    }
  }

  lemma FewEvents(w: World, e: Request, kdf: Kdf)
    ensures |SessionEvents(w, e, kdf)| <= 2
  {
    hide ReplyTo, RefreshReply, Admits, Sessions.Apply;
  }

  lemma EventsEnabled(w: World, e: Request, kdf: Kdf)
    requires WorldOk(w) && Enabled(w, e) && SessionEvents(w, e, kdf) != []
    ensures Sessions.Enabled(w.sessions, SessionEvents(w, e, kdf)[0])
  {
    hide SessionRuns.Reachable, CodeRuns.Reachable, TablesInv, SessionEvents, Enabled;
    SessionEventsValid(w, e, kdf);
  }

  /** A session that stands after a request is one that stood and that the request does not end. */
  lemma RequestEndsExactly(w: World, e: Request, i: Sid, kdf: Kdf)
    requires WorldOk(w) && Enabled(w, e) && Standing(w, i)
    ensures Standing(Next(w, e, kdf), i) <==> !EndsSession(w, e, i)
  {
    hide SessionRuns.Reachable, CodeRuns.Reachable, TablesInv, SessionEvents, Next, Enabled, Sessions.Apply, Sessions.Enabled, EndsSession, SessionHandlers.Ends;
    var evs := SessionEvents(w, e, kdf);
    SessionsNext(w, e, kdf);
    if |evs| == 2 {
      var j := TwoEvents(w, e, kdf);
      RevokedAlong(w, e, i, j, kdf);
    } else {
      OneEventEnds(w, e, i, kdf);
      if evs != [] {
        EventsEnabled(w, e, kdf);
        SessionHandlers.StepEndsExactly(w.sessions, evs[0], i);
      }
    }
  }

  /** What the refresh of a disabled user does to a session. */
  lemma RevokedAlong(w: World, e: Request, i: Sid, j: Sid, kdf: Kdf)
    requires WorldOk(w) && Enabled(w, e) && Standing(w, i) && e.Refresh? && Admits(w, e)
    requires j in w.sessions.rows && FindsDisabled(w, e, w.sessions.rows[j].userId, j)
    requires Next(w, e, kdf).sessions ==
      Sessions.Apply(Sessions.Apply(w.sessions, RotateOf(e)).0, Sessions.RevokeAllForUser(w.sessions.rows[j].userId, e.at)).0
    ensures EndsSession(w, e, i) <==> w.sessions.rows[i].userId == w.sessions.rows[j].userId
    ensures Standing(Next(w, e, kdf), i) <==> w.sessions.rows[i].userId != w.sessions.rows[j].userId
  {
    hide SessionRuns.Reachable, CodeRuns.Reachable, TablesInv, Next, Admits, Sessions.Fresh, Sessions.ApplyRotate;
    SessionLifetimes.RotationIssues(w.sessions, RotateOf(e), j);
    SessionHandlers.NewRowIsNew(w.sessions, RotateOf(e), i);
    OnlyHolder(w, e, j);
  }

  lemma OnlyHolder(w: World, e: Request, j: Sid)
    requires WorldOk(w) && e.Refresh? && Sessions.HasToken(w.sessions.rows, j, e.refreshToken)
    ensures forall k :: Sessions.HasToken(w.sessions.rows, k, e.refreshToken) ==> k == j
  {
    hide SessionRuns.Reachable, CodeRuns.Reachable, TablesInv;
    forall k | Sessions.HasToken(w.sessions.rows, k, e.refreshToken) ensures k == j {
      SessionStores.RowIsUnique(w.sessions, k, e.refreshToken);
      SessionStores.RowIsUnique(w.sessions, j, e.refreshToken);
    }
  }

  ghost predicate NeverEnded(w: World, evs: seq<Request>, i: Sid, kdf: Kdf)
    decreases |evs|
  {
    evs == [] || (i in w.sessions.rows && !EndsSession(w, evs[0], i) && NeverEnded(Next(w, evs[0], kdf), evs[1..], i, kdf))
  }

  lemma FallenStays(w: World, evs: seq<Request>, i: Sid, kdf: Kdf)
    requires WorldOk(w) && ValidRun(w, evs, kdf) && i in w.sessions.born && !Standing(w, i)
    ensures !Standing(Final(w, evs, kdf), i)
  {
    hide SessionRuns.Reachable, CodeRuns.Reachable, TablesInv, ValidRun, Final, SessionRuns.ValidRun, SessionRuns.Final;
    SessionRunIsRun(w, evs, kdf);
    SessionHandlers.NotAdmittedAgain(w.sessions, SessionRun(w, evs, kdf), i);
  }

  lemma BornStays(w: World, e: Request, i: Sid, kdf: Kdf)
    requires WorldOk(w) && Enabled(w, e) && i in w.sessions.rows
    ensures i in w.sessions.born && i in Next(w, e, kdf).sessions.born
  {
    hide SessionRuns.Reachable, CodeRuns.Reachable, TablesInv, Next, Enabled, Sessions.Apply, SessionEvents, Sessions.Inv;
    hide SessionRuns.ValidRun, SessionRuns.Final;
    SessionRuns.ReachableInv(w.sessions);
    RowIsBorn(w.sessions, i);
    SessionEventsValid(w, e, kdf);
    SessionRuns.StampsAreWriteOnce(w.sessions, SessionEvents(w, e, kdf));
    SessionGuarantees.BirthKept(w.sessions, SessionRuns.Final(w.sessions, SessionEvents(w, e, kdf)), i);
    NextSessions(w, e, kdf);
  }

  lemma RowIsBorn(d: Sessions.Db, i: Sid)
    requires Sessions.Inv(d) && i in d.rows
    ensures i in d.born && d.born[i].row.token == d.rows[i].token && d.born[i].row.familyId == d.rows[i].familyId && d.born[i].row.userId == d.rows[i].userId
  {
    hide Sessions.MemberInv, Sessions.IndexInv, Sessions.LinkInv, Sessions.ClockInv, Sessions.OrderInv;
  }

  lemma NextSessions(w: World, e: Request, kdf: Kdf)
    ensures Next(w, e, kdf).sessions == SessionRuns.Final(w.sessions, SessionEvents(w, e, kdf))
  {
    hide SessionEvents, TablesAfter, CodeEvents, OAuthCalls, CountsAfter, PasswordsAfter, CodeRuns.Final, OAuthAfter, SessionRuns.Final;
  }

  lemma {:induction false} StandingExactly(w: World, evs: seq<Request>, i: Sid, kdf: Kdf)
    requires WorldOk(w) && ValidRun(w, evs, kdf) && Standing(w, i)
    ensures Standing(Final(w, evs, kdf), i) <==> NeverEnded(w, evs, i, kdf)
    decreases |evs|
  {
    hide SessionRuns.Reachable, CodeRuns.Reachable, TablesInv, EndsSession, Enabled, Next;
    if evs == [] {
    } else {
      var n := Next(w, evs[0], kdf);
      StepKeepsOk(w, evs[0], kdf);
      BornStays(w, evs[0], i, kdf);
      RequestEndsExactly(w, evs[0], i, kdf);
      if Standing(n, i) {
        StandingExactly(n, evs[1..], i, kdf);
      } else {
        FallenStays(n, evs[1..], i, kdf);
      }
    }
  }

  /** Over every run of requests, the access token of a standing session is still admitted at the end if and only if
      none of the requests was one that ends it. */
  lemma AccessExactly(w: World, evs: seq<Request>, i: Sid, at: Time, kdf: Kdf)
    requires WorldOk(w) && ValidRun(w, evs, kdf) && Standing(w, i)
    ensures ReplyTo(Final(w, evs, kdf), Access(Some(i), at), kdf) == Checked(SessionHandlers.Admitted) <==> NeverEnded(w, evs, i, kdf)
  {
    hide WorldOk, ValidRun, Final, NeverEnded;
    StandingExactly(w, evs, i, kdf);
  }

  // --- What presents a token ------------------------------------------------------------------------------------

  /** A refresh with this token gets past the limiter. */
  predicate Presents(w: World, e: Request, tok: Sessions.Token) {
    e.Refresh? && e.refreshToken == tok && Admits(w, e)
  }

  ghost predicate NeverPresented(w: World, evs: seq<Request>, tok: Sessions.Token, kdf: Kdf)
    decreases |evs|
  {
    evs == [] || (!Presents(w, evs[0], tok) && NeverPresented(Next(w, evs[0], kdf), evs[1..], tok, kdf))
  }

  /** A request that neither ends the session nor presents its token leaves its row as it is. */
  lemma RequestSpares(w: World, e: Request, i: Sid, kdf: Kdf)
    requires WorldOk(w) && Enabled(w, e) && SessionLifetimes.Live(w.sessions, i)
    requires !EndsSession(w, e, i) && !Presents(w, e, w.sessions.rows[i].token)
    ensures i in Next(w, e, kdf).sessions.rows && Next(w, e, kdf).sessions.rows[i] == w.sessions.rows[i]
  {
    hide SessionRuns.Reachable, CodeRuns.Reachable, TablesInv, SessionEvents, Next, Enabled, Sessions.Apply, Sessions.Enabled, EndsSession, SessionHandlers.Ends, Admits;
    var evs := SessionEvents(w, e, kdf);
    SessionsNext(w, e, kdf);
    if |evs| == 2 {
      var j := TwoEvents(w, e, kdf);
      RevokedAlong(w, e, i, j, kdf);
      RotationSpares(w, e, i, j);
    } else {
      OneEventEnds(w, e, i, kdf);
      if evs != [] {
        EventsEnabled(w, e, kdf);
        OtherToken(w, e, i, kdf);
        SessionLifetimes.UntouchedStays(w.sessions, evs[0], i);
      }
    }
  }

  lemma OtherToken(w: World, e: Request, i: Sid, kdf: Kdf)
    requires i in w.sessions.rows && !Presents(w, e, w.sessions.rows[i].token) && SessionEvents(w, e, kdf) != []
    ensures SessionEvents(w, e, kdf)[0].Rotate? ==> SessionEvents(w, e, kdf)[0].token != w.sessions.rows[i].token
  {
    hide ReplyTo, RefreshReply, Admits, Sessions.Apply;
  }

  lemma RotationSpares(w: World, e: Request, i: Sid, j: Sid)
    requires WorldOk(w) && Enabled(w, e) && SessionLifetimes.Live(w.sessions, i) && e.Refresh?
    requires j in w.sessions.rows && FindsDisabled(w, e, w.sessions.rows[j].userId, j) && w.sessions.rows[i].userId != w.sessions.rows[j].userId
    ensures var d := Sessions.Apply(Sessions.Apply(w.sessions, RotateOf(e)).0, Sessions.RevokeAllForUser(w.sessions.rows[j].userId, e.at)).0;
      i in d.rows && d.rows[i] == w.sessions.rows[i]
  {
    hide SessionRuns.Reachable, CodeRuns.Reachable, TablesInv, Sessions.Fresh, Sessions.ApplyRotate;
    SessionLifetimes.RotationIssues(w.sessions, RotateOf(e), j);
    SessionHandlers.NewRowIsNew(w.sessions, RotateOf(e), i);
  }

  /** Presenting the token uses it up, whatever comes of it, or comes too late. */
  lemma PresentingSpends(w: World, e: Request, i: Sid, kdf: Kdf)
    requires WorldOk(w) && Enabled(w, e) && SessionLifetimes.Live(w.sessions, i) && Presents(w, e, w.sessions.rows[i].token)
    ensures var d := Next(w, e, kdf).sessions;
      i in d.rows && (d.rows[i].usedAt.Some? || d.rows[i].expiresAt < e.at)
  {
    hide SessionRuns.Reachable, CodeRuns.Reachable, TablesInv, Next, Sessions.Apply, Sessions.Fresh, RefreshReply, Admits;
    var evs, d := SessionEvents(w, e, kdf), w.sessions;
    SessionsNext(w, e, kdf);
    SessionLifetimes.PresentedIsOver(d, RotateOf(e), i);
    if |evs| == 2 {
      RevokingKeepsUse(Sessions.Apply(d, RotateOf(e)).0, evs[1], i);
    }
  }

  lemma RevokingKeepsUse(d: Sessions.Db, e: Sessions.Event, i: Sid)
    requires e.RevokeAllForUser? && i in d.rows
    ensures i in Sessions.Apply(d, e).0.rows
    ensures Sessions.Apply(d, e).0.rows[i] == d.rows[i].(revokedAt := Sessions.Apply(d, e).0.rows[i].revokedAt)
  {
  }

  lemma OverStaysOver(w: World, evs: seq<Request>, i: Sid, at: Time, kdf: Kdf)
    requires WorldOk(w) && ValidRun(w, evs, kdf) && i in w.sessions.born && Final(w, evs, kdf).clock <= at
    requires i !in w.sessions.rows || w.sessions.rows[i].revokedAt.Some? || w.sessions.rows[i].usedAt.Some? || w.sessions.rows[i].expiresAt < at
    ensures !SessionLifetimes.ExchangeableAt(Final(w, evs, kdf).sessions, i, at)
  {
    hide SessionRuns.Reachable, CodeRuns.Reachable, TablesInv, ValidRun, Final, SessionRuns.ValidRun, SessionRuns.Final;
    SessionRunIsRun(w, evs, kdf);
    RunKeepsOk(w, evs, kdf);
    SessionLifetimes.NotExchangeableAgain(w.sessions, SessionRun(w, evs, kdf), i, at);
  }

  lemma {:induction false} ClockGrows(w: World, evs: seq<Request>, kdf: Kdf)
    requires ValidRun(w, evs, kdf)
    ensures w.clock <= Final(w, evs, kdf).clock
    decreases |evs|
  {
    hide TablesAfter, SessionEvents, CodeEvents, OAuthCalls, CountsAfter, PasswordsAfter, OAuthAfter;
    if evs == [] {
    } else {
      ClockGrows(Next(w, evs[0], kdf), evs[1..], kdf);
    }
  }

  lemma NextClock(w: World, e: Request, kdf: Kdf)
    ensures Next(w, e, kdf).clock == e.at
  {
    hide TablesAfter, SessionEvents, CodeEvents, OAuthCalls, CountsAfter, PasswordsAfter, OAuthAfter;
  }

  /** Over every run of requests, a live session can be exchanged at the end if and only if it has not expired, no
      request was one that ends it, and none has presented its token. */
  lemma {:induction false} ExchangeableExactly(w: World, evs: seq<Request>, i: Sid, at: Time, kdf: Kdf)
    requires WorldOk(w) && ValidRun(w, evs, kdf) && SessionLifetimes.Live(w.sessions, i) && Final(w, evs, kdf).clock <= at
    ensures SessionLifetimes.ExchangeableAt(Final(w, evs, kdf).sessions, i, at) <==>
            at <= w.sessions.rows[i].expiresAt && NeverEnded(w, evs, i, kdf) && NeverPresented(w, evs, w.sessions.rows[i].token, kdf)
    decreases |evs|
  {
    hide SessionRuns.Reachable, CodeRuns.Reachable, TablesInv, EndsSession, Enabled, Presents, Next;
    if evs == [] {
    } else {
      var e, n, rest := evs[0], Next(w, evs[0], kdf), evs[1..];
      StepKeepsOk(w, e, kdf);
      BornStays(w, e, i, kdf);
      RequestEndsExactly(w, e, i, kdf);
      ClockGrows(n, rest, kdf);
      NextClock(w, e, kdf);
      if EndsSession(w, e, i) {
        OverStaysOver(n, rest, i, at, kdf);
      } else if Presents(w, e, w.sessions.rows[i].token) {
        PresentingSpends(w, e, i, kdf);
        OverStaysOver(n, rest, i, at, kdf);
      } else {
        RequestSpares(w, e, i, kdf);
        ExchangeableExactly(n, rest, i, at, kdf);
      }
    }
  }
}
