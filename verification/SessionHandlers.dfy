/** What logging out, disabling and listing amount to over runs of the sessions table
    (internal/httpapi/sessions.go, auth.go and middleware.go). */
module SessionHandlers {
  import opened Prelude
  import opened Sessions
  import opened SessionRuns
  import opened SessionGuarantees
  import opened SessionStores

  // --- requireUser ------------------------------------------------------------------------------

  datatype Access = Admitted | NoSession | SessionRevoked

  /** The liveness check behind an access token whose signature, issuer, audience and expiry are
      good. A token without a session id is admitted. */
  function RequireUser(rows: Rows, sid: Option<Id>): Access {
    if sid.None? then Admitted
    else if sid.value !in rows then NoSession
    else if rows[sid.value].revokedAt.Some? then SessionRevoked
    else Admitted
  }

  // --- Families belong to one user and one client --------------------------------------------------

  /** Every row of a family, pruned or not, keeps the user and the client of the login that started
      it, so the audience of a refreshed access token is the audience of that login. */
  lemma LoginCarriesOver(d: Db, i: Id, j: Id)
    requires Reachable(d) && i in d.born && j in d.born && d.born[i].row.familyId == d.born[j].row.familyId
    ensures d.born[i].row.userId == d.born[j].row.userId && d.born[i].row.clientId == d.born[j].row.clientId
    ensures i in d.rows ==> d.rows[i].userId == d.born[j].row.userId && d.rows[i].clientId == d.born[j].row.clientId
  {
    hide TableInv, MemberInv, IndexInv, LinkInv, ClockInv, OrderInv;
    ReachableInv(d);
    BornAgrees(d, i);
    BornAgrees(d, j);
    KeptByCutoff(d, i);
  }

  lemma BornAgrees(d: Db, i: Id)
    requires MemberInv(d) && i in d.born
    ensures d.born[i].row.familyId in d.families
    ensures d.families[d.born[i].row.familyId].userId == d.born[i].row.userId
    ensures d.families[d.born[i].row.familyId].clientId == d.born[i].row.clientId
  {
    assert InChain(d, i, d.born[i]);
  }

  /** Revoking the family of one row leaves every row of other families, and so of other users, as it was. */
  lemma RevokingAFamilySparesOthers(d: Db, i: Id, at: Time, j: Id)
    requires Reachable(d) && i in d.rows && j in d.rows
    requires d.rows[j].familyId != d.rows[i].familyId || d.rows[j].userId != d.rows[i].userId
    ensures j in Apply(d, RevokeFamily(d.rows[i].familyId, at)).0.rows
    ensures Apply(d, RevokeFamily(d.rows[i].familyId, at)).0.rows[j] == d.rows[j]
  {
    hide TableInv, MemberInv, IndexInv, LinkInv, ClockInv, OrderInv;
    ReachableInv(d);
    FamilySharesUser(d, i);
    FamilySharesUser(d, j);
  }

  // --- Logging out everywhere ------------------------------------------------------------------------

  /** After RevokeAllForUser, which ends both handleLogoutAll and handlePasswordReset, no session the
      user had is ever admitted or exchanged again, at any later point of any run. */
  lemma LogoutAllIsFinal(d: Db, e: Event, i: Id, evs: seq<Event>, e': Event)
    requires Reachable(d) && Enabled(d, e) && e.RevokeAllForUser?
    requires i in d.born && d.born[i].row.userId == e.userId
    requires ValidRun(Apply(d, e).0, evs)
    requires Enabled(Final(Apply(d, e).0, evs), e') && e'.Rotate? && e'.token == d.born[i].row.token
    ensures RequireUser(Final(Apply(d, e).0, evs).rows, Some(i)) != Admitted
    ensures !Apply(Final(Apply(d, e).0, evs), e').1.Issued?
  {
    hide TableInv, MemberInv, IndexInv, LinkInv, ClockInv, OrderInv, Evolves, ValidRun;
    var d1, f := Apply(d, e).0, d.born[i].row.familyId;
    ReachableInv(d);
    BornAgrees(d, i);
    LogoutAllKills(d, e, f);
    ReachableStep(d, e);
    DeadFamilyStaysDead(d1, f, evs);
    DeadFamilyNeverRotates(d1, f, i, evs, e');
    var d2 := Final(d1, evs);
    StampsAreWriteOnce(d1, evs);
    BirthKept(d1, d2, i);
    if i in d2.rows {
      ReachableInv(d1);
      RunKeepsInv(d1, evs);
      KeptByCutoff(d2, i);
    }
  }

  // --- Logging out of one family -------------------------------------------------------------------

  /** Once a family is dead, by logout, deletion or replay, no token ever minted for it is exchanged and no
      session id of it is admitted, at any later point of any run. */
  lemma DeadFamilyIsShutOut(d: Db, f: Id, i: Id, evs: seq<Event>, e: Event)
    requires Reachable(d) && Dead(d, f) && i in d.born && d.born[i].row.familyId == f && ValidRun(d, evs)
    ensures RequireUser(Final(d, evs).rows, Some(i)) != Admitted
    ensures Enabled(Final(d, evs), e) && e.Rotate? && e.token == d.born[i].row.token ==> !Apply(Final(d, evs), e).1.Issued?
  {
    hide TableInv, MemberInv, IndexInv, LinkInv, ClockInv, OrderInv, Evolves, ValidRun;
    var d' := Final(d, evs);
    DeadFamilyStaysDead(d, f, evs);
    StampsAreWriteOnce(d, evs);
    BirthKept(d, d', i);
    if i in d'.rows {
      ReachableInv(d);
      RunKeepsInv(d, evs);
      KeptByCutoff(d', i);
    }
    if Enabled(d', e) && e.Rotate? && e.token == d.born[i].row.token {
      DeadFamilyNeverRotates(d, f, i, evs, e);
    }
  }

  /** Logging out of a session, by id or by token, revokes its family: that ends every session of the family,
      those already rotated away or pruned included, for good. */
  lemma LogoutIsFinal(d: Db, i: Id, j: Id, at: Time, evs: seq<Event>, e: Event)
    requires Reachable(d) && i in d.rows && d.clock <= at
    requires j in d.born && d.born[j].row.familyId == d.rows[i].familyId
    requires ValidRun(Apply(d, RevokeFamily(d.rows[i].familyId, at)).0, evs)
    ensures var d' := Final(Apply(d, RevokeFamily(d.rows[i].familyId, at)).0, evs);
      && RequireUser(d'.rows, Some(j)) != Admitted
      && (Enabled(d', e) && e.Rotate? && e.token == d.born[j].row.token ==> !Apply(d', e).1.Issued?)
  {
    hide TableInv, MemberInv, IndexInv, LinkInv, ClockInv, OrderInv, ValidRun, Final;
    var logout := RevokeFamily(d.rows[i].familyId, at);
    ReachableInv(d);
    FamilySharesUser(d, i);
    RevokeFamilyKills(d, logout);
    ReachableStep(d, logout);
    DeadFamilyIsShutOut(Apply(d, logout).0, d.rows[i].familyId, j, evs, e);
  }

  // --- What ends a session ------------------------------------------------------------------------------

  /** The transaction revokes or deletes the row: its family or its user is revoked, a spent token of its
      family is replayed, or it is pruned. */
  ghost predicate Ends(d: Db, e: Event, i: Id)
    requires i in d.rows
  {
    match e
    case RevokeFamily(f, _) => d.rows[i].familyId == f
    case RevokeAllForUser(u, _) => d.rows[i].userId == u
    case Rotate(tok, _, _, _, _) =>
      exists j :: HasToken(d.rows, j, tok) && d.rows[j].usedAt.Some? && d.rows[j].familyId == d.rows[i].familyId
    case Prune(grace, at) => d.rows[i].expiresAt + grace < at
    case Create(_, _, _, _, _, _) => false
  }

  ghost predicate NeverEnded(d: Db, evs: seq<Event>, i: Id)
    decreases |evs|
  {
    evs == [] || (i in d.rows && !Ends(d, evs[0], i) && NeverEnded(Apply(d, evs[0]).0, evs[1..], i))
  }

  lemma RotateEndsExactly(d: Db, e: Event, i: Id)
    requires Reachable(d) && Enabled(d, e) && i in d.rows && d.rows[i].revokedAt.None? && e.Rotate?
    ensures i in Apply(d, e).0.rows && (Apply(d, e).0.rows[i].revokedAt.None? <==> !Ends(d, e, i))
  {
    hide Reachable;
    if j :| HasToken(d.rows, j, e.token) {
      RowIsUnique(d, j, e.token);
      RotationOutcome(d, e, j);
      NewRowIsNew(d, e, i);
    } else {
      UnknownTokenNotFound(d, e);
    }
  }

  lemma NewRowIsNew(d: Db, e: Event, i: Id)
    requires Reachable(d) && Enabled(d, e) && i in d.rows && (e.Rotate? || e.Create?)
    ensures i != e.id
  {
    hide MemberInv, IndexInv, LinkInv, ClockInv, OrderInv;
    ReachableInv(d);
  }

  lemma StepEndsExactly(d: Db, e: Event, i: Id)
    requires Reachable(d) && Enabled(d, e) && i in d.rows && d.rows[i].revokedAt.None?
    ensures RequireUser(Apply(d, e).0.rows, Some(i)) == Admitted <==> !Ends(d, e, i)
  {
    hide Reachable;
    if e.Rotate? {
      RotateEndsExactly(d, e, i);
    } else if e.Create? {
      NewRowIsNew(d, e, i);
    }
  }

  lemma NotAdmittedAgain(d: Db, evs: seq<Event>, i: Id)
    requires Reachable(d) && ValidRun(d, evs) && i in d.born && RequireUser(d.rows, Some(i)) != Admitted
    ensures RequireUser(Final(d, evs).rows, Some(i)) != Admitted
  {
    hide ValidRun, Final, Reachable;
    StampsAreWriteOnce(d, evs);
    BirthKept(d, Final(d, evs), i);
  }

  /** An access token admitted now is admitted after any run if and only if no transaction of the run ended its
      session. Nothing else matters: the user being disabled does not, nor the token's refresh token being
      spent or expired. */
  lemma {:induction false} AdmittedExactly(d: Db, evs: seq<Event>, i: Id)
    requires Reachable(d) && ValidRun(d, evs) && RequireUser(d.rows, Some(i)) == Admitted
    ensures RequireUser(Final(d, evs).rows, Some(i)) == Admitted <==> NeverEnded(d, evs, i)
    decreases |evs|
  {
    if evs == [] {
    } else {
      var n := Apply(d, evs[0]).0;
      StepEndsExactly(d, evs[0], i);
      ReachableStep(d, evs[0]);
      hide Reachable, Apply, Ends;
      if RequireUser(n.rows, Some(i)) == Admitted {
        AdmittedExactly(n, evs[1..], i);
      } else {
        StillBorn(d, evs[0], i);
        NotAdmittedAgain(n, evs[1..], i);
      }
    }
  }

  lemma StillBorn(d: Db, e: Event, i: Id)
    requires Reachable(d) && Enabled(d, e) && i in d.rows
    ensures i in Apply(d, e).0.born
  {
    hide MemberInv, IndexInv, LinkInv, ClockInv, OrderInv, Apply;
    ReachableInv(d);
    StepEvolves(d, e);
  }

  // --- The list of active sessions ----------------------------------------------------------------------

  /** GET /v1/sessions shows at most one row per family. */
  lemma OneListedPerFamily(d: Db, userId: UserId, now: Time, i: Id, j: Id)
    requires Reachable(d) && i in d.rows && j in d.rows && d.rows[i].familyId == d.rows[j].familyId
    requires Listed(d.rows[i], userId, now) && Listed(d.rows[j], userId, now)
    ensures i == j
  {
    var tip := ExactlyOneUnspent(d, i);
    assert Unspent(d, d.rows[i].familyId, i) && Unspent(d, d.rows[i].familyId, j);
  }

  /** A listed row's token would be exchanged at that very instant, and a row of the user that would
      be exchanged is missing from the list only at the instant it expires. */
  lemma ListAgreesWithRotate(d: Db, e: Event, i: Id)
    requires Reachable(d) && Enabled(d, e) && e.Rotate? && HasToken(d.rows, i, e.token)
    ensures Listed(d.rows[i], d.rows[i].userId, e.at) <==> Apply(d, e).1.Issued? && e.at != d.rows[i].expiresAt
  {
    RotationOutcome(d, e, i);
  }

  ghost predicate NoLiveSession(rows: Rows, userId: UserId) {
    forall i :: i in rows && rows[i].userId == userId ==> rows[i].revokedAt.Some?
  }
}
