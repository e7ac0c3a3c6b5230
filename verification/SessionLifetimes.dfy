/** How long a refresh token is good for. */
module SessionLifetimes {
  import opened Prelude
  import opened Sessions
  import opened SessionRuns
  import opened SessionGuarantees
  import opened SessionStores
  import opened SessionHandlers

  /** What a login issues, column by column. */
  lemma LoginIssues(d: Db, e: Event)
    requires e.Create?
    ensures var s := Session(e.id, e.userId, e.clientId, e.id, None, e.newToken, e.at, e.at + 30 * DAY, None, None, e.meta);
      Apply(d, e).1 == Issued(s) && Apply(d, e).0.rows == d.rows[e.id := s]
  {
  }

  /** What a rotation of row `i` issues: only user, client and family carry over. */
  lemma RotationIssues(d: Db, e: Event, i: Id)
    requires Reachable(d) && Enabled(d, e) && e.Rotate? && HasToken(d.rows, i, e.token) && Rotatable(d.rows[i], e.at)
    ensures var r := d.rows[i];
      var s := Session(e.id, r.userId, r.clientId, r.familyId, Some(i), e.newToken, e.at, e.at + 30 * DAY, None, None, e.meta);
      Apply(d, e).1 == Issued(s) && Apply(d, e).0.rows == d.rows[i := r.(usedAt := Some(e.at))][e.id := s]
  {
    hide MemberInv, IndexInv, LinkInv, ClockInv, OrderInv;
    RotationOutcome(d, e, i);
    ReachableInv(d);
    assert d.rows[i].id == i;
  }

  /** The token is not presented. */
  predicate NonePresents(evs: seq<Event>, tok: Token) {
    forall k :: 0 <= k < |evs| && evs[k].Rotate? ==> evs[k].token != tok
  }

  /** The row at the end of a run. */
  ghost predicate ExchangeableAt(d: Db, i: Id, at: Time) {
    i in d.rows && Rotatable(d.rows[i], at)
  }

  ghost predicate Live(d: Db, i: Id) {
    i in d.rows && d.rows[i].usedAt.None? && d.rows[i].revokedAt.None?
  }

  /** A transaction that neither ends the session nor presents its token leaves the row as it is. */
  lemma UntouchedStays(d: Db, e: Event, i: Id)
    requires Reachable(d) && Enabled(d, e) && Live(d, i) && !Ends(d, e, i)
    requires e.Rotate? ==> e.token != d.rows[i].token
    ensures i in Apply(d, e).0.rows && Apply(d, e).0.rows[i] == d.rows[i]
  {
    hide Reachable;
    StepEndsExactly(d, e, i);
    if e.Rotate? {
      NewRowIsNew(d, e, i);
      if j :| HasToken(d.rows, j, e.token) {
        RowIsUnique(d, j, e.token);
      }
    } else if e.Create? {
      NewRowIsNew(d, e, i);
    }
  }

  /** A session that is over, spent or expired is not exchangeable at any later point. */
  lemma NotExchangeableAgain(d: Db, evs: seq<Event>, i: Id, at: Time)
    requires Reachable(d) && ValidRun(d, evs) && i in d.born && Final(d, evs).clock <= at
    requires i !in d.rows || d.rows[i].revokedAt.Some? || d.rows[i].usedAt.Some? || d.rows[i].expiresAt < at
    ensures !ExchangeableAt(Final(d, evs), i, at)
  {
    hide ValidRun, Final, Reachable;
    StampsAreWriteOnce(d, evs);
    BirthKept(d, Final(d, evs), i);
  }

  lemma PresentedIsOver(d: Db, e: Event, i: Id)
    requires Reachable(d) && Enabled(d, e) && Live(d, i) && e.Rotate? && e.token == d.rows[i].token
    ensures i in Apply(d, e).0.born && i in Apply(d, e).0.rows
    ensures Apply(d, e).0.rows[i].usedAt.Some? || Apply(d, e).0.rows[i].expiresAt < e.at
  {
    hide Reachable;
    RotationOutcome(d, e, i);
    StillBorn(d, e, i);
    RowIsUnique(d, i, e.token);
    NewRowIsNew(d, e, i);
  }

  /** A live session is exchangeable after any run, at any moment, if and only if that is no later than its expiry,
      no transaction of the run has ended it, and none has presented its token. */
  lemma {:induction false} ExchangeableExactly(d: Db, evs: seq<Event>, i: Id, at: Time)
    requires Reachable(d) && ValidRun(d, evs) && Live(d, i) && Final(d, evs).clock <= at
    ensures ExchangeableAt(Final(d, evs), i, at) <==>
            at <= d.rows[i].expiresAt && NeverEnded(d, evs, i) && NonePresents(evs, d.rows[i].token)
    decreases |evs|
  {
    if evs == [] {
    } else {
      var e, n, rest := evs[0], Apply(d, evs[0]).0, evs[1..];
      ReachableStep(d, e);
      StillBorn(d, e, i);
      StepEndsExactly(d, e, i);
      ClockGrows(n, rest);
      hide Reachable, Apply, Ends;
      if Ends(d, e, i) {
        NotExchangeableAgain(n, rest, i, at);
      } else if e.Rotate? && e.token == d.rows[i].token {
        PresentedIsOver(d, e, i);
        ClockIsAt(d, e);
        NotExchangeableAgain(n, rest, i, at);
      } else {
        UntouchedStays(d, e, i);
        ExchangeableExactly(n, rest, i, at);
        assert NonePresents(evs, d.rows[i].token) <==> NonePresents(rest, d.rows[i].token);
      }
    }
  }

  lemma ClockIsAt(d: Db, e: Event)
    ensures Apply(d, e).0.clock == e.at
  {
  }

  lemma ClockGrows(d: Db, evs: seq<Event>)
    requires ValidRun(d, evs)
    ensures d.clock <= Final(d, evs).clock
  {
    StampsAreWriteOnce(d, evs);
  }

  /** From any reachable table and over any run: a token issued at some moment, by a login or by a rotation, is
      exchanged when it is presented if and only if that is within thirty days of the issue, no transaction in
      between has ended its session, and none has presented it. */
  lemma IssuedIsExchangedExactly(d: Db, e: Event, evs: seq<Event>, x: Event)
    requires Reachable(d) && Enabled(d, e) && (e.Create? || e.Rotate?) && Apply(d, e).1.Issued?
    requires ValidRun(Apply(d, e).0, evs) && Enabled(Final(Apply(d, e).0, evs), x) && x.Rotate? && x.token == e.newToken
    ensures Apply(Final(Apply(d, e).0, evs), x).1.Issued? <==>
            x.at <= e.at + 30 * DAY && NeverEnded(Apply(d, e).0, evs, e.id) && NonePresents(evs, e.newToken)
  {
    hide ValidRun, Final, Reachable;
    var n := Apply(d, e).0;
    ReachableStep(d, e);
    IssuedRow(d, e);
    ExchangeableExactly(n, evs, e.id, x.at);
    RotatedWhenExchangeable(n, evs, e.id, x);
  }

  lemma IssuedRow(d: Db, e: Event)
    requires Reachable(d) && Enabled(d, e) && (e.Create? || e.Rotate?) && Apply(d, e).1.Issued?
    ensures Live(Apply(d, e).0, e.id) && e.id in Apply(d, e).0.born
    ensures Apply(d, e).0.rows[e.id].token == e.newToken && Apply(d, e).0.rows[e.id].expiresAt == e.at + 30 * DAY
    ensures Apply(d, e).0.rows[e.id].meta == e.meta
  {
    hide Reachable;
    if e.Create? {
      LoginIssues(d, e);
    } else {
      var i := RowOfToken(d.rows, e.token).value;
      assert HasToken(d.rows, i, e.token);
      RotationOutcome(d, e, i);
      RotationIssues(d, e, i);
    }
  }

  /** Presenting a token exchanges it exactly when its row is exchangeable. */
  lemma RotatedWhenExchangeable(d: Db, evs: seq<Event>, i: Id, x: Event)
    requires Reachable(d) && ValidRun(d, evs) && i in d.rows && i in d.born
    requires Enabled(Final(d, evs), x) && x.Rotate? && x.token == d.rows[i].token
    ensures Apply(Final(d, evs), x).1.Issued? <==> ExchangeableAt(Final(d, evs), i, x.at)
  {
    hide TableInv, MemberInv, IndexInv, LinkInv, ClockInv, OrderInv, Evolves, ValidRun, Final;
    var d' := Final(d, evs);
    ReachableInv(d);
    RunKeepsInv(d, evs);
    StampsAreWriteOnce(d, evs);
    BirthKept(d, d', i);
    HolderOfToken(d, i);
    ReachableRun(d, evs);
    if i in d'.rows {
      HolderOfToken(d', i);
      RotationOutcome(d', x, i);
    } else if j :| HasToken(d'.rows, j, x.token) {
      TokenOwner(d', i, j, x.token);
    } else {
      UnknownTokenNotFound(d', x);
    }
  }
}
