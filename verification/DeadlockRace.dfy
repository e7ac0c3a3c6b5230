/** Races in which no call gives up of its own accord: the database picks a victim where calls wait for each
    other. Two replays of one family do. */
module DeadlockRace {
  import opened Prelude
  import opened Sessions
  import opened SessionRuns
  import opened RotationRace
  import opened RevocationRace

  /** Each of the two holds a row that the other's family UPDATE waits for. */
  ghost predicate WaitForEachOther(s: State, c: Call, r: Call) {
    && c < |s.pcs| && r < |s.pcs| && c != r && s.pcs[c].Sweeping? && s.pcs[r].Sweeping?
    && s.pcs[r].row.id in s.pcs[c].visible && s.pcs[c].row.id in s.pcs[r].visible
  }

  ghost predicate Deadlocked(s: State, c: Call) {
    exists r: Call :: WaitForEachOther(s, c, r)
  }

  /** A call gives up only as a deadlock victim, and presents no token before it is minted. */
  ghost predicate Forced(s: State, calls: seq<Token>, t: Step) {
    Unpresented(t, calls) && (t.Abort? ==> Deadlocked(s, t.call))
  }

  ghost predicate ForcedRace(s: State, calls: seq<Token>, steps: seq<Step>)
    decreases |steps|
  {
    steps == [] ||
    (RotationRace.Enabled(s, calls, steps[0]) && Forced(s, calls, steps[0]) && ForcedRace(Next(s, calls, steps[0]), calls, steps[1..]))
  }

  lemma {:induction false} ForcedIsValid(s: State, calls: seq<Token>, steps: seq<Step>)
    requires ForcedRace(s, calls, steps)
    ensures ValidRace(s, calls, steps)
    decreases |steps|
  {
    hide Next, RotationRace.Enabled, Forced;
    if steps == [] {
    } else {
      ForcedIsValid(Next(s, calls, steps[0]), calls, steps[1..]);
    }
  }

  // --- An UPDATE's rows are those of one family --------------------------------------------------------

  ghost predicate VisibleInv(s: State) {
    forall p, i :: 0 <= p < |s.pcs| && s.pcs[p].Sweeping? && i in s.pcs[p].visible ==>
      i in s.d.rows && s.d.rows[i].familyId == s.pcs[p].row.familyId
  }

  lemma VisibleStep(s: State, calls: seq<Token>, t: Step)
    requires TableInv(s.d) && LockInv(s, calls) && RotationRace.Enabled(s, calls, t) && VisibleInv(s)
    ensures VisibleInv(Next(s, calls, t))
  {
    hide TableInv, LockInv;
    LockBasics(s, calls);
    if t.Commit? {
      HeldLock(s, calls, t.call);
      InsertedIsNew(s.d, t.newId);
    } else if t.Login? {
      InsertedIsNew(s.d, t.newId);
    }
  }

  /** The victim of a deadlock and the call it waits for hold rows of one family, and different ones. */
  lemma Partner(s: State, calls: seq<Token>, c: Call, r: Call)
    requires LockInv(s, calls) && VisibleInv(s) && WaitForEachOther(s, c, r)
    ensures c < |calls| && r < |calls| && s.pcs[r].row.familyId == s.pcs[c].row.familyId && s.pcs[r].row.id != s.pcs[c].row.id
    ensures HasToken(s.d.rows, s.pcs[r].row.id, calls[r]) && s.d.rows[s.pcs[r].row.id] == s.pcs[r].row && s.pcs[r].row.usedAt.Some?
  {
    HeldLock(s, calls, c);
    HeldLock(s, calls, r);
  }

  // --- Twins: a token presented twice ---------------------------------------------------------------------

  /** Calls `p` and `p'` present the same token, and nobody presents another spent one of the family. */
  ghost predicate Twins(d: Db, calls: seq<Token>, f: Id, p: Call, p': Call) {
    && p < |calls| && p' < |calls| && p != p' && calls[p'] == calls[p] && PresentsSpent(d, f, calls[p])
    && forall r :: 0 <= r < |calls| && PresentsSpent(d, f, calls[r]) ==> calls[r] == calls[p]
  }

  /** Before the family's rotation, no call of the family is in a deadlock: those that sweep want the same row. */
  lemma NoVictimBefore(d: Db, calls: seq<Token>, f: Id, s: State, c: Call, p: Call, p': Call)
    requires TableInv(s.d) && LockInv(s, calls) && VisibleInv(s) && KeepsFamily(d, f, s) && Still(d, f, s)
    requires Twins(d, calls, f, p, p') && c < |calls| && Deadlocked(s, c)
    ensures !Presents(d, f, calls[c])
  {
    hide LockInv, TableInv;
    if i :| TokenIn(d, f, i, calls[c]) {
      var r: Call :| WaitForEachOther(s, c, r);
      BusyWith(d, f, s, calls, c, i);
      HeldLock(s, calls, c);
      Partner(s, calls, c, r);
      assert TokenIn(d, f, i, calls[c]) && d.rows[i].usedAt.Some?;
      assert TokenIn(d, f, s.pcs[r].row.id, calls[r]) && d.rows[s.pcs[r].row.id].usedAt.Some?;
      BusyWith(d, f, s, calls, r, i);
    }
  }

  lemma BeforeIsStill(d: Db, calls: seq<Token>, f: Id, s: State)
    requires Unrotated(d, calls, f, s)
    ensures Still(d, f, s)
  {
  }

  lemma AbortBefore(d: Db, calls: seq<Token>, f: Id, s: State, t: Step)
    requires RaceInv(s, calls) && RotationRace.Enabled(s, calls, t) && t.Abort? && KeepsFamily(d, f, s) && Unrotated(d, calls, f, s)
    requires f in s.d.families && t.call < |calls| && !Presents(d, f, calls[t.call])
    ensures Unrotated(d, calls, f, Next(s, calls, t))
  {
    hide MemberInv, IndexInv, LinkInv, ClockInv, OrderInv, TableInv, LockInv, Unrotated, KeepsFamily;
    LockBasics(s, calls);
    var n := Next(s, calls, t);
    forall p: Call, i | FinishedWith(d, calls, f, n, p, i) ensures FinishedWith(d, calls, f, s, p, i) {
    }
    SameRowsStep(f, s, calls, t);
    StepKeepsLocks(s, calls, t);
    RotatingRows(n, calls);
    QuietBefore(d, calls, f, s, n);
  }

  // --- After the rotation: somebody is left to sweep the new row -------------------------------------------

  /** The call's UPDATE began before row `n` was there. */
  ghost predicate Blind(f: Id, s: State, n: Id, c: Call) {
    c < |s.pcs| && s.pcs[c].Sweeping? && s.pcs[c].row.familyId == f && n !in s.pcs[c].visible
  }

  /** A call of the family that is not through and that will see row `n`. */
  ghost predicate Keen(d: Db, calls: seq<Token>, f: Id, s: State, n: Id, c: Call) {
    c < |calls| && c < |s.pcs| && Presents(d, f, calls[c]) && !s.pcs[c].Finished? && !Blind(f, s, n, c)
  }

  /** A call that will miss row `n` holds the twins' row, so the other calls with their token have not begun. */
  ghost predicate TwinsWait(calls: seq<Token>, f: Id, s: State, n: Id, p: Call) {
    forall r: Call, c: Call :: Blind(f, s, n, r) && r < |calls| && p < |calls| && c < |calls| && c < |s.pcs| && c != r && calls[c] == calls[p] ==>
      calls[r] == calls[p] && s.pcs[c].Start?
  }

  ghost predicate Doomed(d: Db, calls: seq<Token>, f: Id, s: State, n: Id, q: Call, p: Call) {
    && Grown(d, calls, f, s, n, q)
    && (s.d.rows[n].revokedAt.None? ==> (exists c: Call :: Keen(d, calls, f, s, n, c)) && TwinsWait(calls, f, s, n, p))
  }

  lemma CommitDooms(d: Db, calls: seq<Token>, f: Id, s: State, t: Step, p: Call, p': Call)
    requires RaceInv(s, calls) && RotationRace.Enabled(s, calls, t) && t.Commit? && Orderly(t, calls) && Twins(d, calls, f, p, p')
    requires Common(d, f, s) && Unrotated(d, calls, f, s) && s.pcs[t.call].row.familyId == f && TableInv(d)
    ensures Doomed(d, calls, f, Next(s, calls, t), t.newId, t.call, p)
  {
    hide MemberInv, IndexInv, LinkInv, ClockInv, OrderInv, TableInv, LockInv, Unrotated, Next, KeepsFamily, SweepingInv, Grown, PresentsSpent, PresentsLive;
    LockBasics(s, calls);
    HeldLock(s, calls, t.call);
    InsertedIsNew(s.d, t.newId);
    var i, n := s.pcs[t.call].row.id, Next(s, calls, t);
    OnlyUnspent(s.d, f, i);
    CommitIsGrown(d, calls, f, s, t);
    NobodyThrough(d, calls, f, s, t.call, i);
    StepTouchesOne(s, calls, t);
    CommitFinishes(s, calls, t);
    GrownLive(d, calls, f, n, t.newId, t.call);
    SpentIsNotLive(d, f, calls[p], calls[t.call]);
    BeforeIsStill(d, calls, f, s);
    forall r: Call, c: Call | r < |calls| && c < |calls| && c != r && calls[c] == calls[p] && Blind(f, n, t.newId, r)
      ensures calls[r] == calls[p] && n.pcs[c].Start?
    {
      BlindTwin(d, calls, f, s, r, p, p');
      TwinStarts(d, calls, f, s, c, r, p, p');
    }
    SomeTwinStarts(d, calls, f, s, n, t.newId, t.call, p, p');
  }

  lemma CommitFinishes(s: State, calls: seq<Token>, t: Step)
    requires RotationRace.Enabled(s, calls, t) && t.Commit? && s.pcs[t.call].row.id in s.d.rows
    ensures Next(s, calls, t).pcs[t.call].Finished?
  {
  }

  lemma GrownLive(d: Db, calls: seq<Token>, f: Id, s: State, n: Id, q: Call)
    requires Grown(d, calls, f, s, n, q)
    ensures q < |calls| && PresentsLive(d, f, calls[q]) && n in s.d.rows
  {
  }

  /** A call that sweeps before the rotation presents the twins' token. */
  lemma BlindTwin(d: Db, calls: seq<Token>, f: Id, s: State, r: Call, p: Call, p': Call)
    requires LockInv(s, calls) && KeepsFamily(d, f, s) && Still(d, f, s) && Twins(d, calls, f, p, p')
    requires r < |calls| && r < |s.pcs| && s.pcs[r].Sweeping? && s.pcs[r].row.familyId == f
    ensures calls[r] == calls[p]
  {
    HeldLock(s, calls, r);
    assert TokenIn(d, f, s.pcs[r].row.id, calls[r]) && d.rows[s.pcs[r].row.id].usedAt.Some?;
  }

  /** While one of them holds the row, another call with the token waits. */
  lemma TwinStarts(d: Db, calls: seq<Token>, f: Id, s: State, c: Call, r: Call, p: Call, p': Call)
    requires TableInv(s.d) && LockInv(s, calls) && KeepsFamily(d, f, s) && Twins(d, calls, f, p, p')
    requires c < |calls| && r < |calls| && c != r && calls[c] == calls[r] == calls[p] && Busy(s.pcs[r])
    requires forall x: Call, j :: !FinishedWith(d, calls, f, s, x, j)
    ensures s.pcs[c].Start?
  {
    var i :| TokenIn(d, f, i, calls[p]) && d.rows[i].usedAt.Some?;
    assert !FinishedWith(d, calls, f, s, c, i);
    BusyWith(d, f, s, calls, r, i);
    if Busy(s.pcs[c]) {
      BusyWith(d, f, s, calls, c, i);
    }
  }

  lemma SomeTwinStarts(d: Db, calls: seq<Token>, f: Id, s: State, s': State, n: Id, q: Call, p: Call, p': Call)
    requires TableInv(s.d) && LockInv(s, calls) && KeepsFamily(d, f, s) && Twins(d, calls, f, p, p')
    requires forall x: Call, j :: !FinishedWith(d, calls, f, s, x, j)
    requires |s'.pcs| == |s.pcs| && forall x: Call :: x < |s.pcs| && x != q ==> s'.pcs[x] == s.pcs[x]
    requires q < |calls| && calls[q] != calls[p]
    ensures exists c: Call :: Keen(d, calls, f, s', n, c)
  {
    var i :| TokenIn(d, f, i, calls[p]) && d.rows[i].usedAt.Some?;
    assert Presents(d, f, calls[p]) && Presents(d, f, calls[p']);
    assert !FinishedWith(d, calls, f, s, p, i) && !FinishedWith(d, calls, f, s, p', i);
    if Busy(s.pcs[p]) {
      TwinStarts(d, calls, f, s, p', p, p, p');
      assert Keen(d, calls, f, s', n, p');
    } else {
      assert Keen(d, calls, f, s', n, p);
    }
  }

  /** A call of the family does not turn blind, and finishes only by sweeping or as a victim. */
  lemma KeenStep(d: Db, calls: seq<Token>, f: Id, s: State, t: Step, n: Id, q: Call, c: Call)
    requires TableInv(s.d) && LockInv(s, calls) && RotationRace.Enabled(s, calls, t) && Common(d, f, s) && Grown(d, calls, f, s, n, q)
    requires Keen(d, calls, f, s, n, c) && (t.Abort? ==> t.call != c)
    ensures Keen(d, calls, f, Next(s, calls, t), n, c) || (n in Next(s, calls, t).d.rows && Next(s, calls, t).d.rows[n].revokedAt.Some?)
  {
    hide TableInv, LockInv;
    LockBasics(s, calls);
    StepTouchesOne(s, calls, t);
    var i :| TokenIn(d, f, i, calls[c]);
    if Next(s, calls, t).pcs[c] != s.pcs[c] {
      if t.Lock? {
        RowOfTokenUnique(s.d, i, calls[c]);
      } else {
        BusyWith(d, f, s, calls, c, i);
        HeldIsSpent(d, calls, f, s, n, q, c);
      }
    }
  }

  /** Of two calls that wait for each other, one is left: it, or else a twin of it, will see row `n`. */
  lemma VictimLeavesAnother(d: Db, calls: seq<Token>, f: Id, s: State, c: Call, n: Id, q: Call, p: Call, p': Call)
    requires TableInv(s.d) && LockInv(s, calls) && VisibleInv(s) && Common(d, f, s) && Grown(d, calls, f, s, n, q) && Twins(d, calls, f, p, p')
    requires TwinsWait(calls, f, s, n, p) && Keen(d, calls, f, s, n, c) && Deadlocked(s, c)
    ensures exists c': Call :: c' != c && Keen(d, calls, f, s, n, c')
  {
    hide TableInv, LockInv, KeepsFamily, RotatingInv, SweepingInv;
    LockBasics(s, calls);
    var r: Call :| WaitForEachOther(s, c, r);
    var i :| TokenIn(d, f, i, calls[c]);
    BusyWith(d, f, s, calls, c, i) by { assert KeepsFamily(d, f, s); }
    Partner(s, calls, c, r);
    SameToken(d, f, s, s.pcs[r].row.id, calls[r], n, calls, q);
    if Blind(f, s, n, r) {
      var other := if r == p then p' else p;
      assert Presents(d, f, calls[p]) by { assert PresentsSpent(d, f, calls[p]); }
      assert s.pcs[other].Start?;
      assert Keen(d, calls, f, s, n, other);
    } else {
      assert Keen(d, calls, f, s, n, r);
    }
  }

  /** A row of the family whose token is presented was there at the start. */
  lemma SameToken(d: Db, f: Id, s: State, i: Id, tok: Token, n: Id, calls: seq<Token>, q: Call)
    requires HasToken(s.d.rows, i, tok) && s.d.rows[i].familyId == f && tok in calls && Grown(d, calls, f, s, n, q) && KeepsFamily(d, f, s)
    ensures Presents(d, f, tok)
  {
    assert TokenIn(d, f, i, tok);
  }

  lemma TwinsWaitStep(d: Db, calls: seq<Token>, f: Id, s: State, t: Step, n: Id, q: Call, p: Call)
    requires TableInv(s.d) && LockInv(s, calls) && RotationRace.Enabled(s, calls, t) && Forced(s, calls, t)
    requires Grown(d, calls, f, s, n, q) && TwinsWait(calls, f, s, n, p)
    ensures TwinsWait(calls, f, Next(s, calls, t), n, p)
  {
    hide TableInv, LockInv;
    LockBasics(s, calls);
    StepTouchesOne(s, calls, t);
    var s' := Next(s, calls, t);
    forall r: Call, c: Call | Blind(f, s', n, r) && r < |calls| && p < |calls| && c < |calls| && c != r && calls[c] == calls[p]
      ensures calls[r] == calls[p] && s'.pcs[c].Start?
    {
      assert Blind(f, s, n, r) by {
        if t.Check? && t.call == r {
          HeldLock(s, calls, r);
        }
      }
      HeldLock(s, calls, r);
    }
  }

  lemma StepDooms(d: Db, calls: seq<Token>, f: Id, s: State, t: Step, n: Id, q: Call, p: Call, p': Call)
    requires RaceInv(s, calls) && RotationRace.Enabled(s, calls, t) && Forced(s, calls, t) && Common(d, f, s) && VisibleInv(s)
    requires Twins(d, calls, f, p, p') && Doomed(d, calls, f, s, n, q, p)
    ensures Doomed(d, calls, f, Next(s, calls, t), n, q, p)
  {
    hide MemberInv, IndexInv, LinkInv, ClockInv, OrderInv, TableInv, LockInv, SameRows, Next, RotatingInv, SweepingInv, KeepsFamily, Keen, TwinsWait, VisibleInv, Twins;
    LockBasics(s, calls);
    var s' := Next(s, calls, t);
    if t.Commit? && s.pcs[t.call].row.familyId == f {
      HeldIsSpent(d, calls, f, s, n, q, t.call);
    }
    SameRowsStep(f, s, calls, t);
    GrownStays(d, calls, f, s, s', n, q);
    if s'.d.rows[n].revokedAt.None? {
      TwinsWaitStep(d, calls, f, s, t, n, q, p);
      var c: Call :| Keen(d, calls, f, s, n, c);
      if t.Abort? && t.call == c {
        VictimLeavesAnother(d, calls, f, s, c, n, q, p, p');
        c :| c != t.call && Keen(d, calls, f, s, n, c);
      }
      KeenStep(d, calls, f, s, t, n, q, c);
    }
  }

  lemma GrownStays(d: Db, calls: seq<Token>, f: Id, s: State, s': State, n: Id, q: Call)
    requires Grown(d, calls, f, s, n, q) && SameRows(f, s.d, s'.d)
    ensures Grown(d, calls, f, s', n, q)
    ensures s'.d.rows[n].revokedAt.None? ==> s.d.rows[n].revokedAt.None?
  {
  }

  // --- Whole races with twins --------------------------------------------------------------------------------

  ghost predicate Course(d: Db, calls: seq<Token>, f: Id, s: State, p: Call) {
    Unrotated(d, calls, f, s) || exists n, q: Call :: Doomed(d, calls, f, s, n, q, p)
  }

  lemma StepCourse(d: Db, calls: seq<Token>, f: Id, s: State, t: Step, p: Call, p': Call)
    requires RaceInv(s, calls) && RotationRace.Enabled(s, calls, t) && Forced(s, calls, t) && Common(d, f, s) && VisibleInv(s)
    requires TableInv(d) && Twins(d, calls, f, p, p') && Course(d, calls, f, s, p)
    ensures Course(d, calls, f, Next(s, calls, t), p)
  {
    hide MemberInv, IndexInv, LinkInv, ClockInv, OrderInv, TableInv, LockInv, Unrotated, Doomed, Next, KeepsFamily, RotatingInv, SweepingInv, VisibleInv, Twins, Deadlocked;
    if Unrotated(d, calls, f, s) {
      LockBasics(s, calls);
      if t.Abort? {
        BeforeIsStill(d, calls, f, s);
        NoVictimBefore(d, calls, f, s, t.call, p, p');
        AbortBefore(d, calls, f, s, t);
      } else if t.Commit? && s.pcs[t.call].row.familyId == f {
        CommitDooms(d, calls, f, s, t, p, p');
      } else {
        StepBefore(d, calls, f, s, t);
      }
    } else {
      var n, q: Call :| Doomed(d, calls, f, s, n, q, p);
      StepDooms(d, calls, f, s, t, n, q, p, p');
    }
  }

  lemma {:induction false} RunCourse(d: Db, calls: seq<Token>, f: Id, s: State, steps: seq<Step>, p: Call, p': Call)
    requires RaceInv(s, calls) && ForcedRace(s, calls, steps) && ValidRace(s, calls, steps) && Common(d, f, s) && VisibleInv(s)
    requires TableInv(d) && Twins(d, calls, f, p, p') && Course(d, calls, f, s, p)
    ensures Course(d, calls, f, FinalState(s, calls, steps), p)
    decreases |steps|
  {
    hide Inv, LockInv, Next, Course, Common, RotationRace.Enabled, Forced, TableInv, VisibleInv, Twins;
    if steps == [] {
    } else {
      InvHasTable(s.d);
      StepKeepsTable(s, calls, steps[0]);
      StepKeepsLocks(s, calls, steps[0]);
      VisibleStep(s, calls, steps[0]);
      CommonStep(d, f, s, calls, steps[0]);
      StepCourse(d, calls, f, s, steps[0], p, p');
      RunCourse(d, calls, f, Next(s, calls, steps[0]), steps[1..], p, p');
    }
  }

  lemma DoomedIsDead(d: Db, calls: seq<Token>, f: Id, s: State, n: Id, q: Call, p: Call)
    requires Doomed(d, calls, f, s, n, q, p) && AllFinished(s) && AllRevoked(d, f, s) && f in s.d.families
    ensures Dead(s.d, f)
  {
    forall c: Call ensures !Keen(d, calls, f, s, n, c) {
    }
    forall i | i in s.d.rows && s.d.rows[i].familyId == f ensures s.d.rows[i].revokedAt.Some? {
    }
  }

  lemma BeforeIsDead(d: Db, calls: seq<Token>, f: Id, s: State, p: Call)
    requires Common(d, f, s) && Unrotated(d, calls, f, s) && p < |calls| && p < |s.pcs| && s.pcs[p].Finished? && PresentsSpent(d, f, calls[p])
    ensures Dead(s.d, f)
  {
    var i :| TokenIn(d, f, i, calls[p]) && d.rows[i].usedAt.Some?;
    assert FinishedWith(d, calls, f, s, p, i);
    if !Dead(s.d, f) {
      NotBefore(d, calls, f, s, p, i);
    }
  }

  /** All calls come to their ends, giving up only as deadlock victims, and `p` reports reuse. */
  ghost predicate ForcedReport(d: Db, calls: seq<Token>, steps: seq<Step>, p: Call) {
    && ForcedRace(InitialState(d, calls), calls, steps) && ValidRace(InitialState(d, calls), calls, steps)
    && AllFinished(FinalState(InitialState(d, calls), calls, steps))
    && p < |FinalState(InitialState(d, calls), calls, steps).pcs|
    && FinalState(InitialState(d, calls), calls, steps).pcs[p] == Finished(ReuseSeen)
  }

  /** A token replayed twice kills its family, if nobody presents another spent token of the family. */
  lemma TwinsKill(d: Db, calls: seq<Token>, steps: seq<Step>, f: Id, p: Call, p': Call)
    requires Reachable(d) && Twins(d, calls, f, p, p') && ForcedReport(d, calls, steps, p)
    ensures Dead(FinalState(InitialState(d, calls), calls, steps).d, f)
  {
    hide Inv, LockInv, PresentsSpent, ForcedRace, ValidRace, FinalState, Reachable, Unrotated, Doomed, Still, Dead, TableInv;
    ReachableInv(d);
    InvHasTable(d);
    SpentHasFamily(d, f, calls[p]);
    StartFate(d, calls, f);
    StartSweptBy(d, calls, f, p);
    RunSweptBy(d, calls, f, InitialState(d, calls), steps, p);
    assert Unrotated(d, calls, f, InitialState(d, calls)) by { StartBefore(d, calls, f); }
    RunCourse(d, calls, f, InitialState(d, calls), steps, p, p');
    var s := FinalState(InitialState(d, calls), calls, steps);
    if Unrotated(d, calls, f, s) {
      BeforeIsDead(d, calls, f, s, p);
    } else {
      var n, q: Call :| Doomed(d, calls, f, s, n, q, p);
      DoomedIsDead(d, calls, f, s, n, q, p);
    }
  }

  lemma StartBefore(d: Db, calls: seq<Token>, f: Id)
    ensures Unrotated(d, calls, f, InitialState(d, calls))
  {
  }

  // --- Races in which a row escapes ----------------------------------------------------------------------------

  lemma {:induction false} ForcedConcatenated(s: State, calls: seq<Token>, xs: seq<Step>, ys: seq<Step>)
    requires ForcedRace(s, calls, xs) && ValidRace(s, calls, xs) && ForcedRace(FinalState(s, calls, xs), calls, ys)
    requires ValidRace(FinalState(s, calls, xs), calls, ys)
    ensures ForcedRace(s, calls, xs + ys) && ValidRace(s, calls, xs + ys)
    ensures FinalState(s, calls, xs + ys) == FinalState(FinalState(s, calls, xs), calls, ys)
    decreases |xs|
  {
    hide Next, RotationRace.Enabled, Forced;
    if xs == [] {
      assert xs + ys == ys;
    } else {
      assert (xs + ys)[1..] == xs[1..] + ys;
      ForcedConcatenated(Next(s, calls, xs[0]), calls, xs[1..], ys);
    }
  }

  lemma {:induction false} OrderlyIsForced(s: State, calls: seq<Token>, steps: seq<Step>)
    requires ValidRace(s, calls, steps) && AllOrderly(steps, calls)
    ensures ForcedRace(s, calls, steps)
    decreases |steps|
  {
    hide Next, RotationRace.Enabled;
    if steps == [] {
    } else {
      OrderlyIsForced(Next(s, calls, steps[0]), calls, steps[1..]);
    }
  }

  /** A part of a race, from one state to another. */
  ghost predicate Leads(s: State, calls: seq<Token>, steps: seq<Step>, s': State) {
    ForcedRace(s, calls, steps) && ValidRace(s, calls, steps) && s' == FinalState(s, calls, steps)
  }

  lemma LeadsOn(s: State, calls: seq<Token>, xs: seq<Step>, s': State, ys: seq<Step>, s'': State)
    requires Leads(s, calls, xs, s') && Leads(s', calls, ys, s'')
    ensures Leads(s, calls, xs + ys, s'')
  {
    ForcedConcatenated(s, calls, xs, ys);
  }

  lemma LeadsBy(s: State, calls: seq<Token>, t: Step)
    requires RotationRace.Enabled(s, calls, t) && Forced(s, calls, t)
    ensures Leads(s, calls, [t], Next(s, calls, t))
  {
    hide Next, RotationRace.Enabled, Forced;
    OneStep(s, calls, t);
    assert [t][1..] == [];
    assert ForcedRace(Next(s, calls, t), calls, []);
  }

  /** Call `h` is about to sweep the family and holds its row. */
  ghost predicate Sweeper(s: State, calls: seq<Token>, f: Id, h: Call) {
    && |s.pcs| == |calls| && h < |calls| && s.pcs[h].Sweeping? && s.pcs[h].row.familyId == f
    && s.pcs[h].row.id in s.d.rows && s.d.rows[s.pcs[h].row.id].familyId == f
  }

  /** A call that has not begun presents a spent row, other than the sweeper's and within its reach. */
  ghost predicate Exposed(s: State, calls: seq<Token>, f: Id, h: Call, c: Call, i: Id) {
    && c < |calls| && c < |s.pcs| && h < |s.pcs| && s.pcs[c].Start? && s.pcs[h].Sweeping?
    && TokenIn(s.d, f, i, calls[c]) && s.d.rows[i].usedAt.Some? && i != s.pcs[h].row.id && i in s.pcs[h].visible
  }

  /** A call locks its spent row and starts to sweep. */
  lemma StartsSweep(s: State, calls: seq<Token>, f: Id, c: Call, i: Id) returns (steps: seq<Step>, s': State)
    requires TableInv(s.d) && |s.pcs| == |calls| && c < |calls| && s.pcs[c].Start? && i !in s.locks
    requires TokenIn(s.d, f, i, calls[c]) && s.d.rows[i].usedAt.Some?
    ensures Leads(s, calls, steps, s')
    ensures s' == State(s.d, s.locks[i := c], s.pcs[c := Sweeping(s.d.rows[i], Lineage(s.d, f))]) && s.d.rows[i].id == i
  {
    hide TableInv, Next, RotationRace.Enabled, ForcedRace, ValidRace, FinalState, Deadlocked, Lineage, Leads;
    RowOfTokenUnique(s.d, i, calls[c]);
    RowHasId(s.d, i);
    LockAndCheck(s, calls, c, i);
    var now := s.d.clock;
    var s1 := Next(s, calls, Lock(c));
    s' := Next(s1, calls, Check(c, now));
    LeadsBy(s, calls, Lock(c));
    LeadsBy(s1, calls, Check(c, now));
    LeadsOn(s, calls, [Lock(c)], s1, [Check(c, now)], s');
    steps := [Lock(c)] + [Check(c, now)];
  }

  /** Such a call becomes the victim of a deadlock with the sweeper. */
  lemma KillOne(s: State, calls: seq<Token>, f: Id, h: Call, c: Call, i: Id) returns (steps: seq<Step>, s': State)
    requires TableInv(s.d) && Sweeper(s, calls, f, h) && Exposed(s, calls, f, h, c, i) && s.locks == map[s.pcs[h].row.id := h]
    ensures Leads(s, calls, steps, s')
    ensures s' == s.(pcs := s.pcs[c := Finished(Aborted)])
  {
    hide TableInv, ForcedRace, ValidRace, FinalState, Leads;
    var first, s1 := StartsSweep(s, calls, f, c, i);
    assert WaitForEachOther(s1, c, h);
    LeadsBy(s1, calls, Abort(c));
    s' := Next(s1, calls, Abort(c));
    assert s'.locks == s.locks;
    LeadsOn(s, calls, first, s1, [Abort(c)], s');
    steps := first + [Abort(c)];
  }

  lemma {:induction false} KillAll(s: State, calls: seq<Token>, f: Id, h: Call, victims: set<Call>) returns (steps: seq<Step>, s': State)
    requires TableInv(s.d) && Sweeper(s, calls, f, h) && s.locks == map[s.pcs[h].row.id := h]
    requires forall c :: c in victims ==> exists i :: Exposed(s, calls, f, h, c, i)
    ensures Leads(s, calls, steps, s')
    ensures s'.d == s.d && s'.locks == s.locks && |s'.pcs| == |calls|
    ensures forall c: Call :: c < |calls| ==> s'.pcs[c] == if c in victims then Finished(Aborted) else s.pcs[c]
    decreases |victims|
  {
    hide TableInv, Leads, TokenIn;
    if victims == {} {
      steps, s' := [], s;
      LeadsNowhere(s, calls);
    } else {
      var c :| c in victims;
      var i :| Exposed(s, calls, f, h, c, i);
      var first, s1 := KillOne(s, calls, f, h, c, i);
      var rest;
      forall x | x in victims - {c} ensures exists j :: Exposed(s1, calls, f, h, x, j) {
        var j :| Exposed(s, calls, f, h, x, j);
        assert Exposed(s1, calls, f, h, x, j);
      }
      rest, s' := KillAll(s1, calls, f, h, victims - {c});
      LeadsOn(s, calls, first, s1, rest, s');
      steps := first + rest;
    }
  }

  lemma LeadsNowhere(s: State, calls: seq<Token>)
    ensures Leads(s, calls, [], s)
  {
  }

  /** The calls other than `p` that present a spent token of the family. */
  ghost function Replays(d: Db, calls: seq<Token>, f: Id, p: Call): set<Call> {
    set c: Call | c < |calls| && c != p && PresentsSpent(d, f, calls[c])
  }

  /** Call `p` is about to sweep the family as it was at the start, holding its row alone; all other replays have
      given up and nobody else has begun. */
  ghost predicate Poised(d: Db, calls: seq<Token>, f: Id, s: State, p: Call, i: Id) {
    && p < |calls| && TokenIn(d, f, i, calls[p]) && d.rows[i].usedAt.Some? && d.rows[i].id == i
    && s.d == d && s.locks == map[i := p] && |s.pcs| == |calls|
    && s.pcs[p] == Sweeping(d.rows[i], Lineage(d, f))
    && forall c: Call :: c < |calls| && c != p ==> s.pcs[c] == if c in Replays(d, calls, f, p) then Finished(Aborted) else Start
  }

  /** The only replay. */
  lemma AloneIsPoised(d: Db, calls: seq<Token>, f: Id, p: Call) returns (steps: seq<Step>, s: State, i: Id)
    requires TableInv(d) && p < |calls| && PresentsSpent(d, f, calls[p]) && Replays(d, calls, f, p) == {}
    ensures Leads(InitialState(d, calls), calls, steps, s) && Poised(d, calls, f, s, p, i)
  {
    hide TableInv, Leads, PresentsSpent;
    i := SpentRow(d, f, calls[p]);
    steps, s := StartsSweep(InitialState(d, calls), calls, f, p, i);
  }

  lemma SpentRow(d: Db, f: Id, tok: Token) returns (i: Id)
    requires PresentsSpent(d, f, tok)
    ensures TokenIn(d, f, i, tok) && d.rows[i].usedAt.Some?
  {
    i :| TokenIn(d, f, i, tok) && d.rows[i].usedAt.Some?;
  }

  /** A replay of another row is the partner first of the calls that present the row of `p`, and then of `p`,
      which is the partner of the rest. */
  lemma PartnersArePoised(d: Db, calls: seq<Token>, f: Id, p: Call, r: Call) returns (steps: seq<Step>, s: State, i: Id)
    requires TableInv(d) && p < |calls| && r < |calls| && calls[r] != calls[p]
    requires PresentsSpent(d, f, calls[p]) && PresentsSpent(d, f, calls[r])
    ensures Leads(InitialState(d, calls), calls, steps, s) && Poised(d, calls, f, s, p, i)
  {
    hide TableInv, Leads, PresentsSpent, WaitForEachOther, Lineage, Exposed;
    i := SpentRow(d, f, calls[p]);
    var j := SpentRow(d, f, calls[r]);
    var s0 := InitialState(d, calls);
    var a, s1 := StartsSweep(s0, calls, f, r, j);
    var twins := set c: Call | c < |calls| && c != p && calls[c] == calls[p];
    forall c | c in twins ensures exists x :: Exposed(s1, calls, f, r, c, x) {
      ReplayExposed(s1, calls, f, r, c, i);
    }
    var b, s2 := KillAll(s1, calls, f, r, twins);
    LeadsOn(s0, calls, a, s1, b, s2);
    var c, s3 := StartsSweep(s2, calls, f, p, i);
    LeadsOn(s0, calls, a + b, s2, c, s3);
    var s4 := PartnerYields(s3, calls, f, p, i, r, j);
    LeadsOn(s0, calls, a + b + c, s3, [Abort(r)], s4);
    var others := Replays(d, calls, f, p) - twins - {r};
    forall x | x in others ensures exists y :: Exposed(s4, calls, f, p, x, y) {
      var y := SpentRow(d, f, calls[x]);
      ReplayExposed(s4, calls, f, p, x, y);
    }
    var e;
    e, s := KillAll(s4, calls, f, p, others);
    LeadsOn(s0, calls, a + b + c + [Abort(r)], s4, e, s);
    steps := a + b + c + [Abort(r)] + e;
    TwinsAreReplays(d, calls, f, p, i);
  }

  lemma TwinsAreReplays(d: Db, calls: seq<Token>, f: Id, p: Call, i: Id)
    requires p < |calls| && PresentsSpent(d, f, calls[p])
    ensures forall c: Call :: c < |calls| && c != p && calls[c] == calls[p] ==> c in Replays(d, calls, f, p)
  {
  }

  lemma ReplayExposed(s: State, calls: seq<Token>, f: Id, h: Call, c: Call, i: Id)
    requires h < |calls| && c < |calls| == |s.pcs| && s.pcs[h].Sweeping? && s.pcs[h].visible == Lineage(s.d, f) && s.pcs[c].Start?
    requires TokenIn(s.d, f, i, calls[c]) && s.d.rows[i].usedAt.Some?
    requires TableInv(s.d) && HasToken(s.d.rows, s.pcs[h].row.id, calls[h]) && calls[h] != calls[c]
    ensures Exposed(s, calls, f, h, c, i)
  {
  }

  lemma PartnerYields(s: State, calls: seq<Token>, f: Id, p: Call, i: Id, r: Call, j: Id) returns (s': State)
    requires p < |calls| == |s.pcs| && r < |calls| && p != r && i != j && s.locks == map[j := r, i := p]
    requires i in s.d.rows && s.d.rows[i].id == i && s.d.rows[i].familyId == f && j in s.d.rows && s.d.rows[j].id == j && s.d.rows[j].familyId == f
    requires s.pcs[p] == Sweeping(s.d.rows[i], Lineage(s.d, f)) && s.pcs[r] == Sweeping(s.d.rows[j], Lineage(s.d, f))
    ensures Leads(s, calls, [Abort(r)], s') && s' == State(s.d, map[i := p], s.pcs[r := Finished(Aborted)])
  {
    hide Leads;
    assert WaitForEachOther(s, r, p);
    LeadsBy(s, calls, Abort(r));
    s' := Next(s, calls, Abort(r));
    assert s'.locks == map[i := p];
  }

  /** From there one call rotates, the other rotations become victims, and the sweep lands. */
  ghost predicate Escaped(d: Db, calls: seq<Token>, f: Id, s: State, p: Call, n: Id) {
    && |s.pcs| == |calls| && s.locks == map[] && p < |calls| && s.pcs[p] == Finished(ReuseSeen) && LiveIn(s.d, f, n)
    && forall c: Call :: c < |calls| ==> s.pcs[c].Finished? || (s.pcs[c].Start? && !Presents(s.d, f, calls[c]))
  }

  /** The other call locks, checks and commits. */
  lemma Rotates(s: State, calls: seq<Token>, f: Id, p: Call, i: Id, q: Call, j: Id) returns (steps: seq<Step>, s': State, n: Id, e: Event)
    requires TableInv(s.d) && p < |calls| == |s.pcs| && q < |calls| && p != q && i != j && s.pcs[q].Start? && s.locks == map[i := p]
    requires TokenIn(s.d, f, j, calls[q]) && Rotatable(s.d.rows[j], s.d.clock)
    ensures Leads(s, calls, steps, s') && e.Rotate? && e.id == n && n !in s.d.rows && e.newToken !in calls && s.d.rows[j].id == j
    ensures s' == State(Rotated(s.d, j, e), map[i := p], s.pcs[q := Finished(Exchanged(n))]) && s'.d.clock == e.at == s.d.clock
  {
    hide TableInv, Leads, Rotated, Next, RotationRace.Enabled;
    var now := s.d.clock;
    RowOfTokenUnique(s.d, j, calls[q]);
    RowHasId(s.d, j);
    LockAndCheck(s, calls, q, j);
    var s1 := Next(s, calls, Lock(q));
    var s2 := Next(s1, calls, Check(q, now));
    LeadsBy(s, calls, Lock(q));
    LeadsBy(s1, calls, Check(q, now));
    LeadsOn(s, calls, [Lock(q)], s1, [Check(q, now)], s2);
    var tok;
    n, tok := FreshPair(s.d, calls);
    var commit := Commit(q, n, tok, SOME_META, now);
    e := RotateEvent(commit, s.d.rows[j].token);
    s' := CommitFrom(s2, calls, q, j, commit, e);
    assert s'.locks == map[i := p];
    LeadsBy(s2, calls, commit);
    LeadsOn(s, calls, [Lock(q)] + [Check(q, now)], s2, [commit], s');
    RotatedClock(s.d, j, e);
    steps := [Lock(q)] + [Check(q, now)] + [commit];
  }

  /** The calls other than `q` that present the exchangeable token. */
  ghost function Rotations(d: Db, calls: seq<Token>, f: Id, q: Call): set<Call> {
    set c: Call | c < |calls| && c != q && PresentsLive(d, f, calls[c])
  }

  /** What the rotation of row `j` leaves the family with. */
  lemma RotatedFamily(d: Db, f: Id, j: Id, e: Event)
    requires j in d.rows && d.rows[j].familyId == f && d.rows[j].id == j && e.Rotate? && e.id !in d.rows
    ensures Lineage(d, f) <= Rotated(d, j, e).rows.Keys && e.id !in Lineage(d, f)
    ensures forall k :: k in d.rows ==> k in Rotated(d, j, e).rows && Rotated(d, j, e).rows[k] == d.rows[k].(usedAt := if k == j then Some(e.at) else d.rows[k].usedAt)
  {
  }

  lemma RotatesAndLands(d: Db, calls: seq<Token>, f: Id, s: State, p: Call, i: Id, q: Call)
    returns (steps: seq<Step>, s': State, n: Id)
    requires Inv(d) && Poised(d, calls, f, s, p, i) && q < |calls| && PresentsLive(d, f, calls[q])
    requires RaceInv(s, calls)
    ensures Leads(s, calls, steps, s') && Escaped(d, calls, f, s', p, n)
  {
    hide MemberInv, IndexInv, LinkInv, ClockInv, OrderInv, TableInv, LockInv, Leads, PresentsSpent, PresentsLive, Rotated, Lineage, Next, RotationRace.Enabled, Exposed, Presents, LiveIn, WaitForEachOther;
    SpentNotLive(d, calls, f, p, q, i);
    var j := LiveRowOf(d, f, calls[q]);
    var a, s1, e;
    a, s1, n, e := Rotates(s, calls, f, p, i, q, j);
    RotatedFamily(d, f, j, e);
    LeadsKeepsInv(s, calls, a, s1);
    var others := Rotations(d, calls, f, q);
    forall c | c in others ensures exists x :: Exposed(s1, calls, f, p, c, x) {
      OtherRotationExposed(d, calls, f, s, s1, p, i, q, j, c, e);
    }
    SweeperStays(d, calls, f, s1, p, i);
    var b, s2 := KillAll(s1, calls, f, p, others);
    LeadsOn(s, calls, a, s1, b, s2);
    var c, s3 := Lands(s2, calls, f, p, i, d, j, e);
    LeadsOn(s, calls, a + b, s2, c, s3);
    steps, s' := a + b + c, s3;
    NewRowSurvives(d, f, j, e);
    forall x: Call | x < |calls| ensures s'.pcs[x].Finished? || (s'.pcs[x].Start? && !Presents(s'.d, f, calls[x])) {
      if x != p && x != q && x !in others && x !in Replays(d, calls, f, p) {
        NotOfFamily(d, calls, f, x, q, j);
        NotPresented(d, s'.d, f, n, e.newToken, calls[x]);
      }
    }
  }

  lemma LiveRowOf(d: Db, f: Id, tok: Token) returns (j: Id)
    requires PresentsLive(d, f, tok)
    ensures TokenIn(d, f, j, tok) && Rotatable(d.rows[j], d.clock)
  {
    j :| TokenIn(d, f, j, tok) && Rotatable(d.rows[j], d.clock);
  }

  lemma SpentNotLive(d: Db, calls: seq<Token>, f: Id, p: Call, q: Call, i: Id)
    requires TableInv(d) && p < |calls| && q < |calls| && TokenIn(d, f, i, calls[p]) && d.rows[i].usedAt.Some? && PresentsLive(d, f, calls[q])
    ensures calls[p] != calls[q] && p != q && q !in Replays(d, calls, f, p) && !PresentsLive(d, f, calls[p])
    ensures forall j :: TokenIn(d, f, j, calls[q]) ==> j != i
  {
    SpentIsNotLive(d, f, calls[p], calls[q]);
    if PresentsLive(d, f, calls[p]) {
      SpentIsNotLive(d, f, calls[p], calls[p]);
    }
    if PresentsSpent(d, f, calls[q]) {
      SpentIsNotLive(d, f, calls[q], calls[q]);
    }
  }

  lemma LeadsKeepsInv(s: State, calls: seq<Token>, steps: seq<Step>, s': State)
    requires Leads(s, calls, steps, s') && RaceInv(s, calls)
    ensures RaceInv(s', calls)
  {
    RaceKeepsInv(s, calls, steps);
  }

  lemma SweeperStays(d: Db, calls: seq<Token>, f: Id, s: State, p: Call, i: Id)
    requires p < |calls| == |s.pcs| && i in d.rows && d.rows[i].familyId == f && d.rows[i].id == i && s.pcs[p] == Sweeping(d.rows[i], Lineage(d, f))
    requires i in s.d.rows && s.d.rows[i].familyId == f
    ensures Sweeper(s, calls, f, p)
  {
  }

  /** The row of the other rotations is now spent, and the sweeper's UPDATE waits for it. */
  lemma OtherRotationExposed(d: Db, calls: seq<Token>, f: Id, s: State, s1: State, p: Call, i: Id, q: Call, j: Id, c: Call, e: Event)
    requires Inv(d) && Poised(d, calls, f, s, p, i) && q < |calls| && c in Rotations(d, calls, f, q)
    requires TokenIn(d, f, j, calls[q]) && Rotatable(d.rows[j], d.clock) && i != j && d.rows[j].id == j && e.Rotate? && e.id !in d.rows
    requires s1.d == Rotated(d, j, e) && |s1.pcs| == |s.pcs| && forall x: Call :: x < |s.pcs| && x != q ==> s1.pcs[x] == s.pcs[x]
    ensures Exposed(s1, calls, f, p, c, j)
  {
    hide TableInv, MemberInv, IndexInv, LinkInv, ClockInv, OrderInv, Rotated;
    RotatedFamily(d, f, j, e);
    SpentNotLive(d, calls, f, p, c, i);
    var k := LiveRowOf(d, f, calls[c]);
    RowOfTokenUnique(d, k, calls[c]);
    LiveIsLive(d, f, j, k);
  }

  /** A family has one exchangeable row. */
  lemma LiveIsLive(d: Db, f: Id, j: Id, k: Id)
    requires Inv(d) && j in d.rows && k in d.rows && d.rows[j].familyId == d.rows[k].familyId == f
    requires d.rows[j].usedAt.None? && d.rows[k].usedAt.None?
    ensures j == k
  {
    hide TableInv, MemberInv, IndexInv, LinkInv, ClockInv, OrderInv;
    OnlyUnspent(d, f, j);
    assert Unspent(d, f, k);
  }

  /** A call that presents neither a spent nor the exchangeable token presents none of the family. */
  lemma NotOfFamily(d: Db, calls: seq<Token>, f: Id, x: Call, q: Call, j: Id)
    requires Inv(d) && x < |calls| && q < |calls| && !PresentsSpent(d, f, calls[x]) && !PresentsLive(d, f, calls[x])
    requires TokenIn(d, f, j, calls[q]) && Rotatable(d.rows[j], d.clock)
    ensures !Presents(d, f, calls[x])
  {
    hide TableInv, MemberInv, IndexInv, LinkInv, ClockInv, OrderInv;
    if k :| TokenIn(d, f, k, calls[x]) {
      LiveIsLive(d, f, j, k);
      assert false;
    }
  }

  lemma Lands(s: State, calls: seq<Token>, f: Id, p: Call, i: Id, d: Db, j: Id, e: Event) returns (steps: seq<Step>, s': State)
    requires p < |calls| == |s.pcs| && s.pcs[p].Sweeping? && s.pcs[p].visible == Lineage(d, f) && s.locks == map[i := p]
    requires j in d.rows && e.Rotate? && s.d == Rotated(d, j, e) && s.d.clock == e.at
    ensures Leads(s, calls, steps, s')
    ensures s' == State(Swept(d, j, e, Lineage(d, f)), map[], s.pcs[p := Finished(ReuseSeen)])
  {
    hide Leads, Rotated, Lineage, RowsRevoked;
    var t := Sweep(p, e.at);
    LeadsBy(s, calls, t);
    s' := Next(s, calls, t);
    assert s'.locks == map[];
    steps := [t];
  }

  // --- Exactly when ------------------------------------------------------------------------------------------------

  /** Somebody presents the exchangeable token; and either call `p` is the only replay, or some other replay is of
      another row. */
  ghost predicate CanEscape(d: Db, calls: seq<Token>, f: Id, p: Call) {
    && (exists q :: 0 <= q < |calls| && PresentsLive(d, f, calls[q]))
    && (Replays(d, calls, f, p) == {} || exists r: Call :: r in Replays(d, calls, f, p) && r < |calls| && p < |calls| && calls[r] != calls[p])
  }

  lemma ForcedEscape(d: Db, calls: seq<Token>, f: Id, p: Call) returns (steps: seq<Step>)
    requires Reachable(d) && p < |calls| && PresentsSpent(d, f, calls[p]) && CanEscape(d, calls, f, p)
    ensures ForcedReport(d, calls, steps, p) && !Dead(FinalState(InitialState(d, calls), calls, steps).d, f)
  {
    hide Inv, TableInv, Next, RotationRace.Enabled, ValidRace, FinalState, ForcedRace, LockInv, Reachable, Presents, PresentsSpent, PresentsLive, Poised;
    ReachableInv(d);
    InvHasTable(d);
    var s0 := InitialState(d, calls);
    var a, s1, i;
    if r: Call :| r in Replays(d, calls, f, p) && r < |calls| && calls[r] != calls[p] {
      a, s1, i := PartnersArePoised(d, calls, f, p, r);
    } else {
      assert Replays(d, calls, f, p) == {};
      a, s1, i := AloneIsPoised(d, calls, f, p);
    }
    StartRaceInv(d, calls);
    LeadsKeepsInv(s0, calls, a, s1);
    var q: Call :| q < |calls| && PresentsLive(d, f, calls[q]);
    var b, s2, n := RotatesAndLands(d, calls, f, s1, p, i, q);
    LeadsOn(s0, calls, a, s1, b, s2);
    LeadsKeepsInv(s0, calls, a + b, s2);
    var c := FinishRest(s2, calls, f, n, 0);
    OrderlyIsForced(s2, calls, c);
    LeadsOn(s0, calls, a + b, s2, c, FinalState(s2, calls, c));
    steps := a + b + c;
    assert LiveIn(FinalState(s0, calls, steps).d, f, n);
  }

  /** When calls give up only as deadlock victims, every race that brings all calls to their ends and has the replay
      `p` report reuse leaves the family dead, if and only if nobody presents the exchangeable token, or the
      replayed token is the only one replayed and it is presented twice or more. */
  lemma DeadlockedFamilyDiesExactly(d: Db, calls: seq<Token>, f: Id, p: Call)
    requires Reachable(d) && p < |calls| && PresentsSpent(d, f, calls[p])
    ensures (forall steps :: ForcedReport(d, calls, steps, p) ==> Dead(FinalState(InitialState(d, calls), calls, steps).d, f)) <==>
            !CanEscape(d, calls, f, p)
  {
    hide PresentsSpent, PresentsLive, ValidRace, FinalState, ForcedRace, Dead, Reachable, AllFinished;
    if CanEscape(d, calls, f, p) {
      var steps := ForcedEscape(d, calls, f, p);
    } else {
      forall steps | ForcedReport(d, calls, steps, p) ensures Dead(FinalState(InitialState(d, calls), calls, steps).d, f) {
        if NobodyRotates(d, calls, f) {
          ReportedReplayKills(d, calls, steps, f, p);
        } else {
          var p': Call :| p' in Replays(d, calls, f, p);
          TwinsKill(d, calls, steps, f, p, p');
        }
      }
    }
  }
}
