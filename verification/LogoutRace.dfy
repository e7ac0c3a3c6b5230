/** When logging out races with a rotation in flight. The UPDATE of RevokeFamily or RevokeAllForUser, too, stamps
    the rows its snapshot sees (internal/store/sessions.go). */
module LogoutRace {
  import opened Prelude
  import opened Sessions
  import opened SessionRuns
  import opened RotationRace
  import opened RevocationRace

  /** What is revoked: one family, or all the families of a user. */
  datatype Target = OfFamily(familyId: Id) | OfUser(userId: UserId)

  /** The WHERE clause: RevokeAllForUser passes over rows that are revoked already. */
  predicate Selects(t: Target, r: Session) {
    match t
    case OfFamily(f) => r.familyId == f
    case OfUser(u) => r.userId == u && r.revokedAt.None?
  }

  ghost predicate Targeted(t: Target, d: Db, f: Id) {
    && f in d.families
    && match t
       case OfFamily(g) => f == g
       case OfUser(u) => d.families[f].userId == u
  }

  /** The rows the UPDATE's snapshot sees. */
  ghost function Snapshot(t: Target, d: Db): set<Id> {
    set i | i in d.rows && Selects(t, d.rows[i])
  }

  /** The steps before the snapshot, those between it and the landing of the UPDATE, and those after. */
  datatype Logout = Logout(before: seq<Step>, meanwhile: seq<Step>, now: Time, afterwards: seq<Step>)

  ghost predicate Runs(d: Db, calls: seq<Token>, t: Target, l: Logout) {
    && ValidRace(InitialState(d, calls), calls, l.before)
    && ValidRace(AtSnapshot(d, calls, l), calls, l.meanwhile)
    && RotationRace.Enabled(AtLanding(d, calls, l), calls, Landing(d, calls, t, l))
    && ValidRace(Landed(d, calls, t, l), calls, l.afterwards)
  }

  ghost function AtSnapshot(d: Db, calls: seq<Token>, l: Logout): State
    requires ValidRace(InitialState(d, calls), calls, l.before)
  {
    FinalState(InitialState(d, calls), calls, l.before)
  }

  ghost function AtLanding(d: Db, calls: seq<Token>, l: Logout): State
    requires ValidRace(InitialState(d, calls), calls, l.before) && ValidRace(AtSnapshot(d, calls, l), calls, l.meanwhile)
  {
    FinalState(AtSnapshot(d, calls, l), calls, l.meanwhile)
  }

  ghost function Landing(d: Db, calls: seq<Token>, t: Target, l: Logout): Step
    requires ValidRace(InitialState(d, calls), calls, l.before)
  {
    RevokeRows(Snapshot(t, AtSnapshot(d, calls, l).d), l.now)
  }

  ghost function Landed(d: Db, calls: seq<Token>, t: Target, l: Logout): State
    requires ValidRace(InitialState(d, calls), calls, l.before) && ValidRace(AtSnapshot(d, calls, l), calls, l.meanwhile)
    requires RotationRace.Enabled(AtLanding(d, calls, l), calls, Landing(d, calls, t, l))
  {
    Next(AtLanding(d, calls, l), calls, Landing(d, calls, t, l))
  }

  ghost function AtEnd(d: Db, calls: seq<Token>, t: Target, l: Logout): State
    requires Runs(d, calls, t, l)
  {
    FinalState(Landed(d, calls, t, l), calls, l.afterwards)
  }

  // --- Nobody rotates --------------------------------------------------------------------------------------

  /** What holds of a family nobody can rotate, at every point of the race. */
  ghost predicate Kept(d: Db, calls: seq<Token>, f: Id, s: State) {
    RaceInv(s, calls) && Common(d, f, s) && Still(d, f, s)
  }

  lemma {:induction false} RunKeeps(d: Db, calls: seq<Token>, f: Id, s: State, steps: seq<Step>)
    requires Kept(d, calls, f, s) && ValidRace(s, calls, steps) && NobodyRotates(d, calls, f)
    ensures Kept(d, calls, f, FinalState(s, calls, steps))
    ensures AllRevoked(d, f, s) ==> AllRevoked(d, f, FinalState(s, calls, steps))
    decreases |steps|
  {
    hide Inv, LockInv, Next, Still, Common, NobodyRotates, RotationRace.Enabled, AllRevoked;
    if steps == [] {
    } else {
      StepKeeps(d, calls, f, s, steps[0]);
      RunKeeps(d, calls, f, Next(s, calls, steps[0]), steps[1..]);
    }
  }

  lemma StepKeeps(d: Db, calls: seq<Token>, f: Id, s: State, t: Step)
    requires Kept(d, calls, f, s) && RotationRace.Enabled(s, calls, t) && NobodyRotates(d, calls, f)
    ensures Kept(d, calls, f, Next(s, calls, t))
    ensures AllRevoked(d, f, s) ==> AllRevoked(d, f, Next(s, calls, t))
  {
    hide Inv, LockInv, Next, Still, Common, NobodyRotates, RotationRace.Enabled, AllRevoked;
    InvHasTable(s.d);
    StepKeepsTable(s, calls, t);
    StepKeepsLocks(s, calls, t);
    CommonStep(d, f, s, calls, t);
    StillStep(d, calls, f, s, t);
    if AllRevoked(d, f, s) {
      RevokedStays(d, f, s, calls, t);
    }
  }

  lemma {:induction false} StampsStay(d: Db, f: Id, s: State, calls: seq<Token>, steps: seq<Step>)
    requires RaceInv(s, calls) && ValidRace(s, calls, steps) && KeepsFamily(d, f, s)
    ensures KeepsFamily(d, f, FinalState(s, calls, steps))
    decreases |steps|
  {
    hide Inv, LockInv, Next, KeepsFamily, RotationRace.Enabled;
    if steps == [] {
    } else {
      InvHasTable(s.d);
      FamilyStep(d, f, s, calls, steps[0]);
      StepKeepsTable(s, calls, steps[0]);
      StepKeepsLocks(s, calls, steps[0]);
      StampsStay(d, f, Next(s, calls, steps[0]), calls, steps[1..]);
    }
  }

  /** The landing leaves revoked every row the family had at the start. */
  lemma LandingRevokes(d: Db, calls: seq<Token>, f: Id, s1: State, s2: State, ids: set<Id>, now: Time)
    requires KeepsFamily(d, f, s1) && KeepsFamily(s1.d, f, s2)
    requires forall i :: i in Lineage(s1.d, f) ==> i in ids || s1.d.rows[i].revokedAt.Some?
    requires RotationRace.Enabled(s2, calls, RevokeRows(ids, now))
    ensures AllRevoked(d, f, Next(s2, calls, RevokeRows(ids, now)))
  {
    forall i | i in d.rows && d.rows[i].familyId == f ensures i in s2.d.rows && (i in ids || s2.d.rows[i].revokedAt.Some?) {
      assert i in Lineage(s1.d, f);
    }
  }

  /** The families of a user are those whose rows are. */
  lemma SnapshotOfFamily(t: Target, d: Db, d': Db, f: Id)
    requires Inv(d') && Targeted(t, d, f) && f in d'.families && d'.families[f].userId == d.families[f].userId
    ensures forall i :: i in Lineage(d', f) ==> i in Snapshot(t, d') || d'.rows[i].revokedAt.Some?
  {
    hide TableInv, MemberInv, IndexInv, LinkInv, ClockInv, OrderInv;
    forall i | i in Lineage(d', f) ensures i in Snapshot(t, d') || d'.rows[i].revokedAt.Some? {
      FamilySharesUser(d', i);
    }
  }

  lemma {:induction false} RaceKeepsOwners(s: State, calls: seq<Token>, steps: seq<Step>, f: Id)
    requires RaceInv(s, calls) && ValidRace(s, calls, steps) && f in s.d.families
    ensures f in FinalState(s, calls, steps).d.families
    ensures FinalState(s, calls, steps).d.families[f].userId == s.d.families[f].userId
    decreases |steps|
  {
    hide Inv, LockInv, Next, RotationRace.Enabled;
    if steps == [] {
    } else {
      StepKeepsOwner(s, calls, steps[0], f);
      StepKeepsTable(s, calls, steps[0]);
      InvHasTable(s.d);
      StepKeepsLocks(s, calls, steps[0]);
      RaceKeepsOwners(Next(s, calls, steps[0]), calls, steps[1..], f);
    }
  }

  lemma StepKeepsOwner(s: State, calls: seq<Token>, t: Step, f: Id)
    requires RaceInv(s, calls) && RotationRace.Enabled(s, calls, t) && f in s.d.families
    ensures f in Next(s, calls, t).d.families && Next(s, calls, t).d.families[f].userId == s.d.families[f].userId
  {
    hide TableInv, MemberInv, IndexInv, LinkInv, ClockInv, OrderInv, LockInv;
    LockBasics(s, calls);
    if t.Commit? {
      HeldLock(s, calls, t.call);
      FamilySharesUser(s.d, s.pcs[t.call].row.id);
    }
  }

  lemma KeptIsDead(d: Db, calls: seq<Token>, f: Id, s: State)
    requires Kept(d, calls, f, s) && AllRevoked(d, f, s)
    ensures Dead(s.d, f)
  {
  }

  /** A logout that nobody's rotation meets ends every session it is meant for. */
  lemma LogoutKills(d: Db, calls: seq<Token>, t: Target, l: Logout, f: Id)
    requires Reachable(d) && Runs(d, calls, t, l) && Targeted(t, d, f) && NobodyRotates(d, calls, f)
    ensures Dead(AtEnd(d, calls, t, l).d, f)
  {
    hide Inv, LockInv, Next, ValidRace, FinalState, Still, KeepsFamily, RotatingInv, SweepingInv, NobodyRotates, RotationRace.Enabled, AllRevoked, Targeted, Reachable, Snapshot;
    ReachableInv(d);
    assert f in d.families by { TargetThere(t, d, f); }
    StartKept(d, calls, f);
    var s0, s1, s2, s3 := InitialState(d, calls), AtSnapshot(d, calls, l), AtLanding(d, calls, l), Landed(d, calls, t, l);
    RunKeeps(d, calls, f, s0, l.before);
    RunKeeps(d, calls, f, s1, l.meanwhile);
    RaceKeepsOwners(s0, calls, l.before, f);
    StampsStay(s1.d, f, s1, calls, l.meanwhile) by { FamilyStays(s1, f); }
    SnapshotOfFamily(t, d, s1.d, f);
    LandingRevokes(d, calls, f, s1, s2, Snapshot(t, s1.d), l.now);
    StepKeeps(d, calls, f, s2, Landing(d, calls, t, l));
    RunKeeps(d, calls, f, s3, l.afterwards);
    KeptIsDead(d, calls, f, AtEnd(d, calls, t, l));
  }

  lemma FamilyStays(s: State, f: Id)
    ensures KeepsFamily(s.d, f, s)
  {
  }

  lemma TargetThere(t: Target, d: Db, f: Id)
    requires Targeted(t, d, f)
    ensures f in d.families
  {
  }

  lemma StartKept(d: Db, calls: seq<Token>, f: Id)
    requires Inv(d) && f in d.families
    ensures Kept(d, calls, f, InitialState(d, calls))
  {
    hide TableInv, MemberInv, IndexInv, LinkInv, ClockInv, OrderInv;
  }

  // --- Somebody rotates ---------------------------------------------------------------------------------------

  /** A rotation past its check commits between the snapshot and the landing: its new row stays live. */
  lemma LogoutMissed(d: Db, calls: seq<Token>, t: Target, f: Id, q: Call) returns (l: Logout)
    requires Reachable(d) && Targeted(t, d, f) && q < |calls| && PresentsLive(d, f, calls[q])
    ensures Runs(d, calls, t, l) && AllFinished(AtEnd(d, calls, t, l)) && !Dead(AtEnd(d, calls, t, l).d, f)
  {
    hide Inv, TableInv, Next, RotationRace.Enabled, ValidRace, FinalState, Reachable, Rotated, RowsRevoked;
    ReachableInv(d);
    InvHasTable(d);
    var s0, now := InitialState(d, calls), d.clock;
    var j: Id :| TokenIn(d, f, j, calls[q]) && Rotatable(d.rows[j], d.clock);
    var first, s1 := GiveUp(s0, calls, q, q, 0);
    RowOfTokenUnique(d, j, calls[q]);
    LockAndCheck(s1, calls, q, j);
    var s2 := Next(Next(s1, calls, Lock(q)), calls, Check(q, now));
    TwoSteps(s1, calls, Lock(q), Check(q, now));
    Concatenated(s0, calls, first, [Lock(q), Check(q, now)]);
    var n, tok := FreshPair(d, calls);
    var commit := Commit(q, n, tok, SOME_META, now);
    RowHasId(d, j);
    var s3 := CommitFrom(s2, calls, q, j, commit, RotateEvent(commit, d.rows[j].token));
    OneStep(s2, calls, commit);
    assert s3.locks == map[];
    l := Logout(first + [Lock(q), Check(q, now)], [commit], now, []);
    MissedLands(s3, calls, Snapshot(t, d), d, f, j, RotateEvent(commit, d.rows[j].token), q);
    NoStepsLeft(Next(s3, calls, RevokeRows(Snapshot(t, d), now)), calls);
    assert LiveIn(AtEnd(d, calls, t, l).d, f, n);
  }

  lemma MissedLands(s: State, calls: seq<Token>, ids: set<Id>, d: Db, f: Id, j: Id, e: Event, q: Call)
    requires j in d.rows && d.rows[j].familyId == f && e.Rotate? && e.id !in d.rows && ids <= d.rows.Keys
    requires s == State(Rotated(d, j, e), map[], s.pcs)
    ensures RotationRace.Enabled(s, calls, RevokeRows(ids, e.at))
    ensures LiveIn(Next(s, calls, RevokeRows(ids, e.at)).d, f, e.id) && Next(s, calls, RevokeRows(ids, e.at)).pcs == s.pcs
  {
  }

  /** Every race in which the logout's UPDATE takes its snapshot and later lands leaves all the families it is for
      dead, if and only if no call presents an exchangeable token of one of them. */
  lemma LogoutKillsExactly(d: Db, calls: seq<Token>, t: Target)
    requires Reachable(d)
    ensures (forall l, f :: Runs(d, calls, t, l) && AllFinished(AtEnd(d, calls, t, l)) && Targeted(t, d, f) ==> Dead(AtEnd(d, calls, t, l).d, f)) <==>
            (forall q, f :: 0 <= q < |calls| && Targeted(t, d, f) ==> !PresentsLive(d, f, calls[q]))
  {
    hide PresentsLive, Runs, AtEnd, Targeted, Dead, Reachable, AllFinished;
    if q, f :| 0 <= q < |calls| && Targeted(t, d, f) && PresentsLive(d, f, calls[q]) {
      var l := LogoutMissed(d, calls, t, f, q);
    } else {
      forall l, f | Runs(d, calls, t, l) && Targeted(t, d, f) ensures Dead(AtEnd(d, calls, t, l).d, f) {
        LogoutKills(d, calls, t, l, f);
      }
    }
  }
}
