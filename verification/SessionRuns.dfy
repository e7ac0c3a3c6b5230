/** What every run of the sessions table guarantees. */
module SessionRuns {
  import opened Prelude
  import opened Sessions

  ghost predicate ValidRun(d: Db, evs: seq<Event>)
    decreases |evs|
  {
    evs == [] || (Enabled(d, evs[0]) && ValidRun(Apply(d, evs[0]).0, evs[1..]))
  }

  ghost function Final(d: Db, evs: seq<Event>): Db
    decreases |evs|
  {
    if evs == [] then d else Final(Apply(d, evs[0]).0, evs[1..])
  }

  ghost predicate Reachable(d: Db) {
    exists now: Time, evs: seq<Event> :: ValidRun(EmptyDb(now), evs) && Final(EmptyDb(now), evs) == d
  }

  lemma {:induction false} RunKeepsInv(d: Db, evs: seq<Event>)
    requires Inv(d) && ValidRun(d, evs)
    ensures Inv(Final(d, evs))
    decreases |evs|
  {
    hide Inv, Apply;
    if evs == [] {
    } else {
      StepKeepsInv(d, evs[0]);
      RunKeepsInv(Apply(d, evs[0]).0, evs[1..]);
    }
  }

  lemma ReachableInv(d: Db)
    requires Reachable(d)
    ensures Inv(d)
  {
    var now, evs :| ValidRun(EmptyDb(now), evs) && Final(EmptyDb(now), evs) == d;
    RunKeepsInv(EmptyDb(now), evs);
  }

  // --- The shape of a family ------------------------------------------------------------------

  /** The parent of a row is its predecessor in its family's chain. */
  lemma ParentIsPredecessor(d: Db, p: Id, i: Id)
    requires MemberInv(d) && IndexInv(d) && LinkInv(d)
    requires i in d.born && d.born[i].row.parentId == Some(p)
    ensures p in d.born && d.born[p].row.familyId == d.born[i].row.familyId && d.born[i].row.familyId in d.families
    ensures d.born[p].depth + 1 == d.born[i].depth < |d.families[d.born[i].row.familyId].chain|
    ensures d.families[d.born[i].row.familyId].chain[d.born[i].depth] == i
  {
    assert InChain(d, i, d.born[i]);
    assert ChainOk(d, d.born[i].row.familyId, d.families[d.born[i].row.familyId].chain);
  }

  /** No row ever gets two successors, not even counting rows already pruned. */
  lemma AtMostOneSuccessor(d: Db, p: Id, i: Id, j: Id)
    requires Reachable(d)
    requires i in d.born && j in d.born && d.born[i].row.parentId == Some(p) && d.born[j].row.parentId == Some(p)
    ensures i == j
  {
    hide Inv;
    ReachableInv(d);
    SameParentSameRow(d, p, i, j);
  }

  lemma SameParentSameRow(d: Db, p: Id, i: Id, j: Id)
    requires Inv(d)
    requires i in d.born && j in d.born && d.born[i].row.parentId == Some(p) && d.born[j].row.parentId == Some(p)
    ensures i == j
  {
    hide TableInv, MemberInv, IndexInv, LinkInv, ClockInv, OrderInv;
    ParentIsPredecessor(d, p, i);
    ParentIsPredecessor(d, p, j);
  }

  ghost predicate Unspent(d: Db, f: Id, i: Id) {
    i in d.rows && d.rows[i].familyId == f && d.rows[i].usedAt.None?
  }

  /** The newest row of a family expires last. */
  lemma TipExpiresLast(d: Db, f: Id)
    requires MemberInv(d) && IndexInv(d) && OrderInv(d) && f in d.families
    ensures var chain := d.families[f].chain;
      && 0 < |chain| && chain[|chain| - 1] in d.born && d.born[chain[|chain| - 1]].row.familyId == f
      && d.born[chain[|chain| - 1]].depth == |chain| - 1
      && forall j :: j in d.born && d.born[j].row.familyId == f ==>
           d.born[j].row.expiresAt <= d.born[chain[|chain| - 1]].row.expiresAt
  {
    var chain := d.families[f].chain;
    assert ChainOk(d, f, chain);
    forall j | j in d.born && d.born[j].row.familyId == f
      ensures d.born[j].row.expiresAt <= d.born[chain[|chain| - 1]].row.expiresAt
    {
      assert InChain(d, j, d.born[j]);
      assert Precedes(d.born[j], d.born[chain[|chain| - 1]]);
    }
  }

  /** As long as any row of a family is left, exactly one row of it is unspent: the newest. */
  lemma ExactlyOneUnspent(d: Db, i: Id) returns (tip: Id)
    requires Reachable(d) && i in d.rows
    ensures Unspent(d, d.rows[i].familyId, tip)
    ensures forall j :: Unspent(d, d.rows[i].familyId, j) ==> j == tip
    ensures forall j :: j in d.born && d.born[j].row.familyId == d.rows[i].familyId ==>
      d.born[j].row.expiresAt <= d.rows[tip].expiresAt
  {
    hide Inv;
    ReachableInv(d);
    tip := TipOf(d, i);
  }

  lemma TipOf(d: Db, i: Id) returns (tip: Id)
    requires Inv(d) && i in d.rows
    ensures Unspent(d, d.rows[i].familyId, tip)
    ensures forall j :: Unspent(d, d.rows[i].familyId, j) ==> j == tip
    ensures forall j :: j in d.born && d.born[j].row.familyId == d.rows[i].familyId ==>
      d.born[j].row.expiresAt <= d.rows[tip].expiresAt
  {
    hide TableInv, MemberInv, IndexInv, LinkInv, ClockInv, OrderInv;
    var f := d.rows[i].familyId;
    RowAgreesWithFamily(d, i);
    TipExpiresLast(d, f);
    var chain := d.families[f].chain;
    tip := chain[|chain| - 1];
    LatestIsKept(d, i, tip);
    forall j | Unspent(d, f, j) ensures j == tip {
      UnspentIsLast(d, j);
    }
    LastIsUnspent(d, tip);
  }

  lemma LatestIsKept(d: Db, i: Id, j: Id)
    requires TableInv(d) && i in d.rows && j in d.born && d.born[i].row.expiresAt <= d.born[j].row.expiresAt
    ensures j in d.rows && SameBirth(d.rows[j], d.born[j].row)
  {
  }

  lemma LastIsUnspent(d: Db, i: Id)
    requires TableInv(d) && LinkInv(d) && i in d.rows && d.born[i].row.familyId in d.families
    requires d.born[i].depth + 1 == |d.families[d.born[i].row.familyId].chain|
    ensures d.rows[i].usedAt.None?
  {
  }

  // --- Dead families ----------------------------------------------------------------------------

  /** Every row left of the family is revoked. */
  ghost predicate Dead(d: Db, f: Id) {
    f in d.families && forall i :: i in d.rows && d.rows[i].familyId == f ==> d.rows[i].revokedAt.Some?
  }

  ghost predicate GainsNoRow(d: Db, d': Db, f: Id) {
    forall i :: i in d'.born && d'.born[i].row.familyId == f ==> i in d.born && d'.born[i] == d.born[i]
  }

  lemma FamilySharesUser(d: Db, i: Id)
    requires TableInv(d) && MemberInv(d) && i in d.rows
    ensures d.rows[i].familyId in d.families
    ensures d.families[d.rows[i].familyId].userId == d.rows[i].userId
    ensures d.families[d.rows[i].familyId].clientId == d.rows[i].clientId
  {
    assert InChain(d, i, d.born[i]);
  }

  /** Presenting a spent token revokes the whole family it belongs to. */
  lemma ReplayKills(d: Db, e: Event, i: Id)
    requires Reachable(d) && Enabled(d, e) && e.Rotate?
    requires HasToken(d.rows, i, e.token) && d.rows[i].usedAt.Some?
    ensures Apply(d, e).1 == TokenReuse && Dead(Apply(d, e).0, d.rows[i].familyId)
  {
    hide TableInv, MemberInv, IndexInv, LinkInv, ClockInv, OrderInv;
    ReachableInv(d);
    RowOfTokenUnique(d, i, e.token);
    FamilySharesUser(d, i);
  }

  /** Logging out everywhere kills every family of the user. */
  lemma LogoutAllKills(d: Db, e: Event, f: Id)
    requires Reachable(d) && e.RevokeAllForUser? && f in d.families && d.families[f].userId == e.userId
    ensures Dead(Apply(d, e).0, f)
  {
    hide TableInv, MemberInv, IndexInv, LinkInv, ClockInv, OrderInv;
    ReachableInv(d);
    forall i | i in d.rows && d.rows[i].familyId == f ensures d.rows[i].userId == e.userId {
      FamilySharesUser(d, i);
    }
  }

  lemma RevokeFamilyKills(d: Db, e: Event)
    requires e.RevokeFamily? && e.familyId in d.families
    ensures Dead(Apply(d, e).0, e.familyId)
  {
  }

  lemma InsertKeepsDead(d: Db, s: Session, now: Time, f: Id)
    requires Dead(d, f) && s.familyId != f && s.id !in d.born
    ensures Dead(Inserted(d, s, now), f) && GainsNoRow(d, Inserted(d, s, now), f)
  {
  }

  lemma RotateKeepsDead(d: Db, e: Event, f: Id)
    requires Enabled(d, e) && Dead(d, f) && e.Rotate?
    ensures Dead(ApplyRotate(d, e).0, f) && GainsNoRow(d, ApplyRotate(d, e).0, f)
  {
    if RowOfToken(d.rows, e.token).Some? {
      var i := RowOfToken(d.rows, e.token).value;
      assert HasToken(d.rows, i, e.token);
      if Rotatable(d.rows[i], e.at) {
        InsertKeepsDead(Spent(d, i, e.at), Successor(d.rows[i], e), e.at, f);
      }
    }
  }

  lemma DeadStep(d: Db, e: Event, f: Id)
    requires Enabled(d, e) && Dead(d, f)
    ensures Dead(Apply(d, e).0, f) && GainsNoRow(d, Apply(d, e).0, f)
  {
    match e
    case Create(_, _, _, _, _, _) => InsertKeepsDead(d, Apply(d, e).1.session, e.at, f);
    case Rotate(_, _, _, _, _) => RotateKeepsDead(d, e, f);
    case RevokeFamily(_, _) =>
    case RevokeAllForUser(_, _) =>
    case Prune(_, _) =>
  }

  /** Once dead, a family stays dead and gains no row, whatever happens next. */
  lemma {:induction false} DeadFamilyStaysDead(d: Db, f: Id, evs: seq<Event>)
    requires Dead(d, f) && ValidRun(d, evs)
    ensures Dead(Final(d, evs), f) && GainsNoRow(d, Final(d, evs), f)
    decreases |evs|
  {
    if evs == [] {
    } else {
      DeadStep(d, evs[0], f);
      DeadFamilyStaysDead(Apply(d, evs[0]).0, f, evs[1..]);
    }
  }

  // --- Write-once stamps ------------------------------------------------------------------------

  /** The row is the same but for stamps that were still empty. */
  predicate StampsKept(s: Session, s': Session) {
    && s' == s.(usedAt := s'.usedAt, revokedAt := s'.revokedAt)
    && (s.usedAt.Some? ==> s'.usedAt == s.usedAt)
    && (s.revokedAt.Some? ==> s'.revokedAt == s.revokedAt)
  }

  /** History is kept, no old row comes back, and rows that stay keep their stamps. */
  ghost predicate Evolves(d: Db, d': Db) {
    && d.clock <= d'.clock
    && d.cutoff <= d'.cutoff
    && (forall i :: i in d.born ==> i in d'.born && d'.born[i] == d.born[i])
    && (forall i :: i in d.born && i in d'.rows ==> i in d.rows && StampsKept(d.rows[i], d'.rows[i]))
  }

  lemma InsertEvolves(d: Db, s: Session, now: Time)
    requires s.id !in d.born && d.clock <= now
    ensures Evolves(d, Inserted(d, s, now))
  {
  }

  lemma EvolvesTrans(a: Db, b: Db, c: Db)
    requires Evolves(a, b) && Evolves(b, c)
    ensures Evolves(a, c)
  {
  }

  lemma SpendEvolves(d: Db, i: Id, now: Time)
    requires i in d.rows && d.rows[i].usedAt.None?
    ensures Evolves(d, Spent(d, i, now))
  {
  }

  lemma RotateEvolves(d: Db, e: Event)
    requires Enabled(d, e) && e.Rotate?
    ensures Evolves(d, ApplyRotate(d, e).0)
  {
    if RowOfToken(d.rows, e.token).Some? {
      var i := RowOfToken(d.rows, e.token).value;
      assert HasToken(d.rows, i, e.token);
      if Rotatable(d.rows[i], e.at) {
        hide Evolves;
        SpendEvolves(d, i, e.at);
        InsertEvolves(Spent(d, i, e.at), Successor(d.rows[i], e), e.at);
        EvolvesTrans(d, Spent(d, i, e.at), ApplyRotate(d, e).0);
      }
    }
  }

  lemma RevokingEvolves(d: Db, e: Event)
    requires Enabled(d, e) && (e.RevokeFamily? || e.RevokeAllForUser?)
    ensures Evolves(d, Apply(d, e).0)
  {
  }

  lemma PruningEvolves(d: Db, e: Event)
    requires Enabled(d, e) && e.Prune?
    ensures Evolves(d, Apply(d, e).0)
  {
  }

  lemma StepEvolves(d: Db, e: Event)
    requires Enabled(d, e)
    ensures Evolves(d, Apply(d, e).0)
  {
    hide Evolves, Inserted, ApplyRotate;
    match e
    case Create(_, _, _, _, _, _) => InsertEvolves(d, Apply(d, e).1.session, e.at);
    case Rotate(_, _, _, _, _) => RotateEvolves(d, e);
    case RevokeFamily(_, _) => RevokingEvolves(d, e);
    case RevokeAllForUser(_, _) => RevokingEvolves(d, e);
    case Prune(_, _) => PruningEvolves(d, e);
  }

  /** used_at and revoked_at never change once set, and no other column ever changes. */
  lemma {:induction false} StampsAreWriteOnce(d: Db, evs: seq<Event>)
    requires ValidRun(d, evs)
    ensures Evolves(d, Final(d, evs))
    decreases |evs|
  {
    hide Evolves;
    if evs == [] {
      assert Evolves(d, d) by { NothingEvolves(d); }
    } else {
      StepEvolves(d, evs[0]);
      StampsAreWriteOnce(Apply(d, evs[0]).0, evs[1..]);
      EvolvesTrans(d, Apply(d, evs[0]).0, Final(d, evs));
    }
  }

  lemma NothingEvolves(d: Db)
    ensures Evolves(d, d)
  {
  }
}
