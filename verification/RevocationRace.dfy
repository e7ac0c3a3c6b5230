/** When revoking a whole family races with rotating it: which calls have to meet for a row to escape. */
module RevocationRace {
  import opened Prelude
  import opened Sessions
  import opened SessionRuns
  import opened RotationRace

  /** The token is that of row `i` of the family. */
  ghost predicate TokenIn(d: Db, f: Id, i: Id, tok: Token) {
    HasToken(d.rows, i, tok) && d.rows[i].familyId == f
  }

  ghost predicate Presents(d: Db, f: Id, tok: Token) {
    exists i :: TokenIn(d, f, i, tok)
  }

  ghost predicate PresentsSpent(d: Db, f: Id, tok: Token) {
    exists i :: TokenIn(d, f, i, tok) && d.rows[i].usedAt.Some?
  }

  ghost predicate PresentsLive(d: Db, f: Id, tok: Token) {
    exists i :: TokenIn(d, f, i, tok) && Rotatable(d.rows[i], d.clock)
  }

  /** No call presents a token before it is minted. */
  predicate Unpresented(t: Step, calls: seq<Token>) {
    t.Commit? || t.Login? ==> t.newToken !in calls
  }

  /** Nor does any call give up. */
  predicate Orderly(t: Step, calls: seq<Token>) {
    !t.Abort? && Unpresented(t, calls)
  }

  predicate AllFinished(s: State) {
    forall p :: 0 <= p < |s.pcs| ==> s.pcs[p].Finished?
  }

  // --- What every state keeps of the family ---------------------------------------------------------

  ghost predicate KeepsFamily(d: Db, f: Id, s: State) {
    forall i :: i in d.rows && d.rows[i].familyId == f ==> i in s.d.rows && StampsKept(d.rows[i], s.d.rows[i])
  }

  /** A call about to rotate found its row unrevoked and unexpired. */
  ghost predicate RotatingInv(d: Db, s: State) {
    forall p :: 0 <= p < |s.pcs| && s.pcs[p].Rotating? ==> s.pcs[p].row.revokedAt.None? && d.clock <= s.pcs[p].row.expiresAt
  }

  /** A call about to sweep saw at least the rows there were at the start. */
  ghost predicate SweepingInv(d: Db, f: Id, s: State) {
    forall p, i :: 0 <= p < |s.pcs| && s.pcs[p].Sweeping? && s.pcs[p].row.familyId == f && i in d.rows && d.rows[i].familyId == f ==>
      i in s.pcs[p].visible
  }

  ghost predicate Common(d: Db, f: Id, s: State) {
    d.clock <= s.d.clock && f in s.d.families && KeepsFamily(d, f, s) && RotatingInv(d, s) && SweepingInv(d, f, s)
  }

  lemma FamilyStep(d: Db, f: Id, s: State, calls: seq<Token>, t: Step)
    requires TableInv(s.d) && LockInv(s, calls) && RotationRace.Enabled(s, calls, t) && KeepsFamily(d, f, s)
    ensures KeepsFamily(d, f, Next(s, calls, t)) && s.d.clock <= Next(s, calls, t).d.clock
    ensures s.d.families.Keys <= Next(s, calls, t).d.families.Keys
  {
    hide TableInv, LockInv;
    LockBasics(s, calls);
    if t.Commit? {
      HeldLock(s, calls, t.call);
      InsertedIsNew(s.d, t.newId);
    } else if t.Login? {
      InsertedIsNew(s.d, t.newId);
    }
  }

  lemma RotatingStep(d: Db, s: State, calls: seq<Token>, t: Step)
    requires d.clock <= s.d.clock && RotationRace.Enabled(s, calls, t) && RotatingInv(d, s)
    ensures RotatingInv(d, Next(s, calls, t))
  {
  }

  lemma SweepingStep(d: Db, f: Id, s: State, calls: seq<Token>, t: Step)
    requires RotationRace.Enabled(s, calls, t) && KeepsFamily(d, f, s) && SweepingInv(d, f, s)
    ensures SweepingInv(d, f, Next(s, calls, t))
  {
  }

  lemma CommonStep(d: Db, f: Id, s: State, calls: seq<Token>, t: Step)
    requires RaceInv(s, calls) && RotationRace.Enabled(s, calls, t) && Common(d, f, s)
    ensures Common(d, f, Next(s, calls, t))
  {
    hide TableInv, LockInv, RotationRace.Enabled, Next, KeepsFamily, RotatingInv, SweepingInv;
    FamilyStep(d, f, s, calls, t);
    RotatingStep(d, s, calls, t);
    SweepingStep(d, f, s, calls, t);
  }

  /** A busy call holds the family's row whose token it presents. */
  lemma BusyWith(d: Db, f: Id, s: State, calls: seq<Token>, p: Call, i: Id)
    requires TableInv(s.d) && LockInv(s, calls) && KeepsFamily(d, f, s)
    requires p < |calls| && Busy(s.pcs[p]) && TokenIn(d, f, i, calls[p])
    ensures s.pcs[p].row.id == i && s.pcs[p].row.familyId == f && i in s.locks && s.locks[i] == p
  {
    HeldLock(s, calls, p);
    RowOfTokenUnique(s.d, i, calls[p]);
    RowOfTokenUnique(s.d, s.pcs[p].row.id, calls[p]);
  }

  // --- Before a rotation of the family ----------------------------------------------------------------

  /** Nobody will rotate row `i` any more. */
  ghost predicate Barred(s: State, i: Id) {
    && i in s.d.rows && s.d.rows[i].usedAt.None? && !Rotatable(s.d.rows[i], s.d.clock)
    && forall p :: 0 <= p < |s.pcs| && s.pcs[p].Rotating? ==> s.pcs[p].row.id != i
  }

  ghost predicate FinishedWith(d: Db, calls: seq<Token>, f: Id, s: State, p: Call, i: Id) {
    p < |calls| && p < |s.pcs| && s.pcs[p].Finished? && TokenIn(d, f, i, calls[p])
  }

  /** The family has no new row, and either it is dead or a call has finished with it only because its one
      unspent row cannot be rotated. */
  ghost predicate Unrotated(d: Db, calls: seq<Token>, f: Id, s: State) {
    && (forall i :: i in s.d.rows && s.d.rows[i].familyId == f ==>
          i in d.rows && d.rows[i].familyId == f && s.d.rows[i].usedAt == d.rows[i].usedAt)
    && (Dead(s.d, f) || forall p, i :: FinishedWith(d, calls, f, s, p, i) ==> Barred(s, i))
  }

  /** The family has the same rows as before, with no row newly spent. */
  ghost predicate SameRows(f: Id, d: Db, d': Db) {
    && d.clock <= d'.clock && (f in d.families ==> f in d'.families)
    && (forall i :: i in d.rows && d.rows[i].familyId == f ==>
          i in d'.rows && StampsKept(d.rows[i], d'.rows[i]) && d'.rows[i].usedAt == d.rows[i].usedAt)
    && (forall i :: i in d'.rows && d'.rows[i].familyId == f ==> i in d.rows && d.rows[i].familyId == f)
  }

  lemma RevokingSameRows(f: Id, d: Db, ids: set<Id>, now: Time)
    requires d.clock <= now
    ensures SameRows(f, d, d.(rows := RowsRevoked(d.rows, ids, now), clock := now))
  {
  }

  lemma InsertingSameRows(f: Id, d: Db, r: Session, now: Time)
    requires d.clock <= now && r.id !in d.rows && r.familyId != f
    ensures SameRows(f, d, Inserted(d, r, now))
  {
  }

  lemma RotatingSameRows(f: Id, d: Db, i: Id, e: Event)
    requires e.Rotate? && d.clock <= e.at && i in d.rows && d.rows[i].familyId != f && e.id !in d.rows
    ensures SameRows(f, d, Rotated(d, i, e))
  {
    var d' := Rotated(d, i, e);
    assert forall j :: j in d'.rows ==> d'.rows[j] == if j == e.id then Successor(d.rows[i], e) else if j == i then d.rows[i].(usedAt := Some(e.at)) else d.rows[j];
  }

  lemma SameRowsStep(f: Id, s: State, calls: seq<Token>, t: Step)
    requires TableInv(s.d) && LockInv(s, calls) && RotationRace.Enabled(s, calls, t) && f in s.d.families
    requires t.Commit? ==> s.pcs[t.call].row.familyId != f
    ensures SameRows(f, s.d, Next(s, calls, t).d)
  {
    hide TableInv, LockInv, Rotated, Inserted, RowsRevoked;
    LockBasics(s, calls);
    match t
    case Lock(_) =>
    case Check(_, _) =>
    case Commit(p, id, _, _, _) =>
      HeldLock(s, calls, p);
      InsertedIsNew(s.d, id);
      RotatingSameRows(f, s.d, s.pcs[p].row.id, RotateEvent(t, s.pcs[p].row.token));
    case Sweep(p, now) => RevokingSameRows(f, s.d, s.pcs[p].visible, now);
    case Abort(_) =>
    case RevokeRows(ids, now) => RevokingSameRows(f, s.d, ids, now);
    case Login(u, c, id, tok, meta, now) =>
      InsertedIsNew(s.d, id);
      InsertingSameRows(f, s.d, FreshRow(id, u, c, id, None, tok, meta, now), now);
  }

  /** No call has finished with the family, and none is newly about to rotate its row. */
  ghost predicate SameCalls(d: Db, calls: seq<Token>, f: Id, s: State, n: State) {
    && |n.pcs| == |s.pcs|
    && (forall p: Call, i :: FinishedWith(d, calls, f, n, p, i) ==> FinishedWith(d, calls, f, s, p, i))
    && (forall p: Call :: p < |n.pcs| && n.pcs[p].Rotating? && n.pcs[p].row.familyId == f ==> n.pcs[p] == s.pcs[p])
  }

  lemma QuietBefore(d: Db, calls: seq<Token>, f: Id, s: State, n: State)
    requires Unrotated(d, calls, f, s) && SameRows(f, s.d, n.d) && SameCalls(d, calls, f, s, n)
    requires forall p: Call :: p < |n.pcs| && n.pcs[p].Rotating? && n.pcs[p].row.id in n.d.rows ==> n.d.rows[n.pcs[p].row.id] == n.pcs[p].row
    requires KeepsFamily(d, f, s)
    ensures Unrotated(d, calls, f, n)
  {
    if !Dead(s.d, f) {
      forall p: Call, i | FinishedWith(d, calls, f, n, p, i) ensures Barred(n, i) {
        assert FinishedWith(d, calls, f, s, p, i);
        assert Barred(s, i);
      }
    }
  }

  lemma RotatingRows(s: State, calls: seq<Token>)
    requires LockInv(s, calls)
    ensures forall p: Call :: p < |s.pcs| && s.pcs[p].Rotating? && s.pcs[p].row.id in s.d.rows ==> s.d.rows[s.pcs[p].row.id] == s.pcs[p].row
  {
    forall p: Call | p < |s.pcs| && s.pcs[p].Rotating? && s.pcs[p].row.id in s.d.rows ensures s.d.rows[s.pcs[p].row.id] == s.pcs[p].row {
      HeldLock(s, calls, p);
    }
  }

  /** A call ends its part in the family only by a Check that fails, a Commit or a Sweep. */
  lemma SameCallsStep(d: Db, calls: seq<Token>, f: Id, s: State, t: Step)
    requires TableInv(s.d) && LockInv(s, calls) && RotationRace.Enabled(s, calls, t) && Orderly(t, calls) && KeepsFamily(d, f, s)
    requires t.Check? || t.Commit? || t.Sweep? ==> s.pcs[t.call].row.familyId != f
    ensures SameCalls(d, calls, f, s, Next(s, calls, t))
  {
    hide TableInv, LockInv;
    LockBasics(s, calls);
    var n := Next(s, calls, t);
    forall p: Call, i | FinishedWith(d, calls, f, n, p, i) ensures FinishedWith(d, calls, f, s, p, i) {
      if !s.pcs[p].Finished? {
        if t.Lock? {
          RowOfTokenUnique(s.d, i, calls[p]);
        } else {
          BusyWith(d, f, s, calls, p, i);
        }
      }
    }
  }

  lemma CheckBefore(d: Db, calls: seq<Token>, f: Id, s: State, t: Step)
    requires RaceInv(s, calls) && RotationRace.Enabled(s, calls, t) && t.Check? && KeepsFamily(d, f, s) && Unrotated(d, calls, f, s)
    ensures Unrotated(d, calls, f, Next(s, calls, t))
  {
    hide MemberInv, IndexInv, LinkInv, ClockInv, OrderInv, TableInv, LockInv;
    LockBasics(s, calls);
    HeldLock(s, calls, t.call);
    var n := Next(s, calls, t);
    if !Dead(s.d, f) {
      forall p: Call, i | FinishedWith(d, calls, f, n, p, i) ensures Barred(n, i) {
        if s.pcs[p].Finished? {
          assert FinishedWith(d, calls, f, s, p, i);
        } else {
          BusyWith(d, f, s, calls, p, i);
          forall r | 0 <= r < |n.pcs| && n.pcs[r].Rotating? ensures n.pcs[r].row.id != i {
            HeldLock(s, calls, r);
          }
        }
      }
    }
  }

  /** A sweep of the family leaves it dead. */
  lemma SweepKillsBefore(d: Db, calls: seq<Token>, f: Id, s: State, t: Step)
    requires TableInv(s.d) && LockInv(s, calls) && RotationRace.Enabled(s, calls, t) && t.Sweep?
    requires Common(d, f, s) && Unrotated(d, calls, f, s) && s.pcs[t.call].row.familyId == f
    ensures Unrotated(d, calls, f, Next(s, calls, t))
  {
    hide TableInv, LockInv, KeepsFamily, RotatingInv, FinishedWith;
    SameRowsStep(f, s, calls, t);
    var n := Next(s, calls, t);
    forall i | i in n.d.rows && n.d.rows[i].familyId == f ensures n.d.rows[i].revokedAt.Some? {
      assert i in s.pcs[t.call].visible;
    }
  }

  /** Steps before the family's one rotation. */
  lemma StepBefore(d: Db, calls: seq<Token>, f: Id, s: State, t: Step)
    requires RaceInv(s, calls) && RotationRace.Enabled(s, calls, t) && Orderly(t, calls) && Common(d, f, s) && Unrotated(d, calls, f, s)
    requires t.Commit? ==> s.pcs[t.call].row.familyId != f
    ensures Unrotated(d, calls, f, Next(s, calls, t))
  {
    hide MemberInv, IndexInv, LinkInv, ClockInv, OrderInv, TableInv, LockInv, Unrotated, SameRows, SameCalls, Next, RotatingInv, SweepingInv, KeepsFamily;
    if t.Check? {
      CheckBefore(d, calls, f, s, t);
      assert Unrotated(d, calls, f, Next(s, calls, t));
    } else if t.Sweep? && s.pcs[t.call].row.familyId == f {
      SweepKillsBefore(d, calls, f, s, t);
      assert Unrotated(d, calls, f, Next(s, calls, t));
    } else {
      SameRowsStep(f, s, calls, t);
      SameCallsStep(d, calls, f, s, t);
      StepKeepsLocks(s, calls, t);
      RotatingRows(Next(s, calls, t), calls);
      QuietBefore(d, calls, f, s, Next(s, calls, t));
      assert Unrotated(d, calls, f, Next(s, calls, t));
    }
  }

  // --- After it -------------------------------------------------------------------------------------------

  ghost predicate AllRevoked(d: Db, f: Id, s: State) {
    forall i :: i in d.rows && d.rows[i].familyId == f ==> i in s.d.rows && s.d.rows[i].revokedAt.Some?
  }

  /** The call is through with the family, or will be without touching row `n`. */
  ghost predicate Early(d: Db, calls: seq<Token>, f: Id, s: State, n: Id, p: Call) {
    && p < |calls| && p < |s.pcs| && Presents(d, f, calls[p])
    && (s.pcs[p].Finished? || (s.pcs[p].Sweeping? && n !in s.pcs[p].visible))
  }

  /** Call `q` has rotated the family's one unspent row into `n`, and everything else is spent. */
  ghost predicate Grown(d: Db, calls: seq<Token>, f: Id, s: State, n: Id, q: Call) {
    && q < |calls| && PresentsLive(d, f, calls[q])
    && n in s.d.rows && s.d.rows[n].familyId == f && s.d.rows[n].token !in calls
    && (forall i :: i in s.d.rows && s.d.rows[i].familyId == f && i != n ==>
          i in d.rows && d.rows[i].familyId == f && s.d.rows[i].usedAt.Some?)
    && (n in d.rows ==> d.rows[n].familyId != f)
  }

  /** Any other call that is through has revoked all the rows there were; and as long as `n` is live, two
      other calls that will not touch it are waiting for each other. */
  ghost predicate After(d: Db, calls: seq<Token>, f: Id, s: State, n: Id, q: Call) {
    && Grown(d, calls, f, s, n, q)
    && (forall p, i :: p != q && FinishedWith(d, calls, f, s, p, i) ==> AllRevoked(d, f, s))
    && (s.d.rows[n].revokedAt.None? ==>
          forall p: Call, r: Call :: p != q && r != q && p != r && Early(d, calls, f, s, n, p) && Early(d, calls, f, s, n, r) ==>
            s.pcs[p].Sweeping? && s.pcs[r].Sweeping?)
  }

  /** The family's rotation: nobody else is through with the family at that moment. */
  lemma CommitGrows(d: Db, calls: seq<Token>, f: Id, s: State, t: Step)
    requires RaceInv(s, calls) && RotationRace.Enabled(s, calls, t) && t.Commit? && Orderly(t, calls)
    requires Common(d, f, s) && Unrotated(d, calls, f, s) && s.pcs[t.call].row.familyId == f
    ensures After(d, calls, f, Next(s, calls, t), t.newId, t.call)
  {
    hide MemberInv, IndexInv, LinkInv, ClockInv, OrderInv, TableInv, LockInv, After, Unrotated, Next;
    LockBasics(s, calls);
    HeldLock(s, calls, t.call);
    InsertedIsNew(s.d, t.newId);
    var i := s.pcs[t.call].row.id;
    OnlyUnspent(s.d, f, i);
    CommitIsGrown(d, calls, f, s, t);
    NobodyThrough(d, calls, f, s, t.call, i);
    StepTouchesOne(s, calls, t);
    NobodyElse(d, calls, f, s, Next(s, calls, t), t.newId, t.call);
  }

  lemma NobodyElse(d: Db, calls: seq<Token>, f: Id, s: State, s': State, n: Id, q: Call)
    requires Grown(d, calls, f, s', n, q) && |s'.pcs| == |s.pcs|
    requires forall p: Call, j :: !FinishedWith(d, calls, f, s, p, j)
    requires forall p: Call :: p < |s.pcs| && p != q ==> s'.pcs[p] == s.pcs[p]
    ensures After(d, calls, f, s', n, q)
  {
    forall p: Call, j | p != q ensures !FinishedWith(d, calls, f, s', p, j) {
      assert !FinishedWith(d, calls, f, s, p, j);
    }
    forall p: Call | p != q && Early(d, calls, f, s', n, p) ensures s'.pcs[p].Sweeping? {
      var j :| TokenIn(d, f, j, calls[p]);
      assert !FinishedWith(d, calls, f, s', p, j);
    }
  }

  lemma OnlyUnspent(d: Db, f: Id, i: Id)
    requires Inv(d) && Unspent(d, f, i)
    ensures forall j :: Unspent(d, f, j) ==> j == i
  {
    hide TableInv, MemberInv, IndexInv, LinkInv, ClockInv, OrderInv;
    var tip := TipOf(d, i);
  }

  lemma StepTouchesOne(s: State, calls: seq<Token>, t: Step)
    requires RotationRace.Enabled(s, calls, t)
    ensures |Next(s, calls, t).pcs| == |s.pcs|
    ensures forall p: Call :: p < |s.pcs| && (t.RevokeRows? || t.Login? || p != t.call) ==> Next(s, calls, t).pcs[p] == s.pcs[p]
  {
  }

  lemma CommitIsGrown(d: Db, calls: seq<Token>, f: Id, s: State, t: Step)
    requires LockInv(s, calls) && RotationRace.Enabled(s, calls, t) && t.Commit? && Orderly(t, calls) && t.newId !in s.d.rows
    requires t.call < |calls| && HoldsRow(s, calls, t.call, s.pcs[t.call])
    requires Common(d, f, s) && Unrotated(d, calls, f, s) && s.pcs[t.call].row.familyId == f
    requires forall j :: Unspent(s.d, f, j) ==> j == s.pcs[t.call].row.id
    ensures Grown(d, calls, f, Next(s, calls, t), t.newId, t.call)
  {
    hide LockInv;
    var n, i := Next(s, calls, t), s.pcs[t.call].row.id;
    assert TokenIn(d, f, i, calls[t.call]) && Rotatable(d.rows[i], d.clock);
    forall j | j in n.d.rows && n.d.rows[j].familyId == f && j != t.newId
      ensures j in d.rows && d.rows[j].familyId == f && n.d.rows[j].usedAt.Some?
    {
      assert Unspent(s.d, f, j) ==> j == i;
    }
  }

  lemma NobodyThrough(d: Db, calls: seq<Token>, f: Id, s: State, q: Call, i: Id)
    requires Unrotated(d, calls, f, s) && q < |s.pcs| && s.pcs[q].Rotating? && s.pcs[q].row.id == i && s.pcs[q].row.revokedAt.None?
    requires i in s.d.rows && s.d.rows[i] == s.pcs[q].row && s.d.rows[i].familyId == f
    requires forall j :: Unspent(s.d, f, j) ==> j == i
    requires KeepsFamily(d, f, s)
    ensures forall p: Call, j :: !FinishedWith(d, calls, f, s, p, j)
  {
    forall p: Call, j ensures !FinishedWith(d, calls, f, s, p, j) {
      if FinishedWith(d, calls, f, s, p, j) {
        assert Barred(s, j);
        assert Unspent(s.d, f, j);
      }
    }
  }

  ghost predicate NoNewlyEarly(d: Db, calls: seq<Token>, f: Id, s: State, s': State, n: Id) {
    && (forall p: Call, i :: FinishedWith(d, calls, f, s', p, i) ==> FinishedWith(d, calls, f, s, p, i))
    && (forall p: Call :: Early(d, calls, f, s', n, p) ==> Early(d, calls, f, s, n, p) && s'.pcs[p] == s.pcs[p])
  }

  lemma QuietAfter(d: Db, calls: seq<Token>, f: Id, s: State, s': State, n: Id, q: Call)
    requires After(d, calls, f, s, n, q) && SameRows(f, s.d, s'.d) && NoNewlyEarly(d, calls, f, s, s', n) && KeepsFamily(d, f, s)
    ensures After(d, calls, f, s', n, q)
  {
  }

  /** Every row of the family a call can hold is spent. */
  lemma HeldIsSpent(d: Db, calls: seq<Token>, f: Id, s: State, n: Id, q: Call, p: Call)
    requires LockInv(s, calls) && Grown(d, calls, f, s, n, q) && p < |calls| && Busy(s.pcs[p]) && s.pcs[p].row.familyId == f
    ensures s.pcs[p].row.usedAt.Some? && !s.pcs[p].Rotating?
  {
    assert HoldsRow(s, calls, p, s.pcs[p]);
  }

  lemma NoNewlyEarlyStep(d: Db, calls: seq<Token>, f: Id, s: State, t: Step, n: Id, q: Call)
    requires TableInv(s.d) && LockInv(s, calls) && RotationRace.Enabled(s, calls, t) && Orderly(t, calls) && KeepsFamily(d, f, s)
    requires Grown(d, calls, f, s, n, q) && (t.Sweep? ==> s.pcs[t.call].row.familyId != f)
    ensures NoNewlyEarly(d, calls, f, s, Next(s, calls, t), n)
  {
    hide TableInv, LockInv;
    LockBasics(s, calls);
    StepTouchesOne(s, calls, t);
    var s' := Next(s, calls, t);
    forall p: Call, i | p < |calls| && s'.pcs[p] != s.pcs[p] && TokenIn(d, f, i, calls[p])
      ensures s'.pcs[p].Holding? || (s'.pcs[p].Sweeping? && n in s'.pcs[p].visible)
    {
      if t.Lock? {
        RowOfTokenUnique(s.d, i, calls[p]);
      } else {
        BusyWith(d, f, s, calls, p, i);
        HeldIsSpent(d, calls, f, s, n, q, p);
      }
    }
  }

  lemma SweeperIsEarly(d: Db, calls: seq<Token>, f: Id, s: State, n: Id, p: Call, r: Call)
    requires p < |s.pcs| && s.pcs[p].Sweeping? && n !in s.pcs[p].visible && p < |calls| && (p == r ==> Presents(d, f, calls[p]))
    ensures p == r ==> Early(d, calls, f, s, n, r)
  {
  }

  /** Two calls about to sweep the family wait for each other's locks. */
  lemma SweepersExclude(d: Db, calls: seq<Token>, f: Id, s: State, p: Call, r: Call)
    requires TableInv(s.d) && LockInv(s, calls) && Common(d, f, s)
    requires p < |calls| && r < |calls| && s.pcs[p].Sweeping? && s.pcs[p].row.familyId == f && p != r
    requires s.pcs[r].Sweeping? && Presents(d, f, calls[r])
    ensures !FreeFor(s, s.pcs[p].visible, p)
  {
    var i :| TokenIn(d, f, i, calls[r]);
    BusyWith(d, f, s, calls, r, i);
  }

  /** A sweep that other calls are not waiting to make either revokes `n` or is the only one that misses it. */
  lemma SweepAfter(d: Db, calls: seq<Token>, f: Id, s: State, t: Step, n: Id, q: Call)
    requires TableInv(s.d) && LockInv(s, calls) && RotationRace.Enabled(s, calls, t) && t.Sweep?
    requires Common(d, f, s) && After(d, calls, f, s, n, q) && s.pcs[t.call].row.familyId == f
    ensures After(d, calls, f, Next(s, calls, t), n, q)
  {
    hide TableInv, LockInv;
    LockBasics(s, calls);
    SameRowsStep(f, s, calls, t);
    var s' := Next(s, calls, t);
    assert AllRevoked(d, f, s');
    if s'.d.rows[n].revokedAt.None? {
      forall p: Call, r: Call | p != q && r != q && p != r && Early(d, calls, f, s', n, p) && Early(d, calls, f, s', n, r)
        ensures s'.pcs[p].Sweeping? && s'.pcs[r].Sweeping?
      {
        assert Early(d, calls, f, s, n, p) && Early(d, calls, f, s, n, r) by {
          assert p != t.call ==> s'.pcs[p] == s.pcs[p];
          assert r != t.call ==> s'.pcs[r] == s.pcs[r];
          SweeperIsEarly(d, calls, f, s, n, t.call, p);
          SweeperIsEarly(d, calls, f, s, n, t.call, r);
        }
        if p == t.call {
          SweepersExclude(d, calls, f, s, p, r);
        } else if r == t.call {
          SweepersExclude(d, calls, f, s, r, p);
        }
      }
    }
  }

  lemma StepAfter(d: Db, calls: seq<Token>, f: Id, s: State, t: Step, n: Id, q: Call)
    requires RaceInv(s, calls) && RotationRace.Enabled(s, calls, t) && Orderly(t, calls) && Common(d, f, s)
    requires After(d, calls, f, s, n, q)
    ensures After(d, calls, f, Next(s, calls, t), n, q)
  {
    hide MemberInv, IndexInv, LinkInv, ClockInv, OrderInv, TableInv, LockInv, SameRows, NoNewlyEarly, Next, RotatingInv, SweepingInv, KeepsFamily, Grown;
    LockBasics(s, calls);
    if t.Sweep? && s.pcs[t.call].row.familyId == f {
      SweepAfter(d, calls, f, s, t, n, q);
    } else {
      if t.Commit? && s.pcs[t.call].row.familyId == f {
        HeldIsSpent(d, calls, f, s, n, q, t.call);
      }
      SameRowsStep(f, s, calls, t);
      NoNewlyEarlyStep(d, calls, f, s, t, n, q);
      QuietAfter(d, calls, f, s, Next(s, calls, t), n, q);
    }
  }

  // --- Whole races ---------------------------------------------------------------------------------------

  ghost predicate Fate(d: Db, calls: seq<Token>, f: Id, s: State) {
    Unrotated(d, calls, f, s) || exists n, q :: After(d, calls, f, s, n, q)
  }

  lemma StepFate(d: Db, calls: seq<Token>, f: Id, s: State, t: Step)
    requires RaceInv(s, calls) && RotationRace.Enabled(s, calls, t) && Orderly(t, calls) && Common(d, f, s) && Fate(d, calls, f, s)
    ensures Fate(d, calls, f, Next(s, calls, t))
  {
    hide MemberInv, IndexInv, LinkInv, ClockInv, OrderInv, TableInv, LockInv, Unrotated, After, Next, KeepsFamily, RotatingInv, SweepingInv;
    if Unrotated(d, calls, f, s) {
      if t.Commit? && s.pcs[t.call].row.familyId == f {
        CommitGrows(d, calls, f, s, t);
      } else {
        StepBefore(d, calls, f, s, t);
      }
    } else {
      var n, q :| After(d, calls, f, s, n, q);
      StepAfter(d, calls, f, s, t, n, q);
    }
  }

  lemma {:induction false} RunFate(d: Db, calls: seq<Token>, f: Id, s: State, steps: seq<Step>)
    requires RaceInv(s, calls) && ValidRace(s, calls, steps) && Common(d, f, s) && Fate(d, calls, f, s)
    requires forall k :: 0 <= k < |steps| ==> Orderly(steps[k], calls)
    ensures var n := FinalState(s, calls, steps);
      RaceInv(n, calls) && Common(d, f, n) && Fate(d, calls, f, n)
    decreases |steps|
  {
    hide Inv, LockInv, Next, Fate, Common, RotationRace.Enabled;
    if steps == [] {
    } else {
      StepKeepsTable(s, calls, steps[0]);
      StepKeepsLocks(s, calls, steps[0]) by {
        InvHasTable(s.d);
      }
      CommonStep(d, f, s, calls, steps[0]);
      StepFate(d, calls, f, s, steps[0]);
      RunFate(d, calls, f, Next(s, calls, steps[0]), steps[1..]);
    }
  }

  lemma StartFate(d: Db, calls: seq<Token>, f: Id)
    requires Inv(d) && f in d.families
    ensures RaceInv(InitialState(d, calls), calls) && Common(d, f, InitialState(d, calls)) && Fate(d, calls, f, InitialState(d, calls))
  {
    hide TableInv, MemberInv, IndexInv, LinkInv, ClockInv, OrderInv;
  }

  /** Of the calls that present tokens of the family there are just two: one presents a spent token, the other
      the one that can be exchanged. */
  ghost predicate EscapesBy(d: Db, calls: seq<Token>, f: Id, p: Call, q: Call) {
    && p < |calls| && q < |calls| && p != q
    && PresentsSpent(d, f, calls[p]) && PresentsLive(d, f, calls[q])
    && forall r :: 0 <= r < |calls| && r != p && r != q ==> !Presents(d, f, calls[r])
  }

  /** When all calls are through and the family is not dead, only one call had presented a spent token of it,
      and only one the exchangeable token. */
  lemma SurvivorEscaped(d: Db, calls: seq<Token>, f: Id, s: State, p: Call) returns (q: Call)
    requires TableInv(d) && Common(d, f, s) && Fate(d, calls, f, s) && AllFinished(s) && |s.pcs| == |calls|
    requires p < |calls| && PresentsSpent(d, f, calls[p]) && !Dead(s.d, f)
    ensures EscapesBy(d, calls, f, p, q)
  {
    hide TableInv;
    var i :| TokenIn(d, f, i, calls[p]) && d.rows[i].usedAt.Some?;
    assert FinishedWith(d, calls, f, s, p, i);
    NotBefore(d, calls, f, s, p, i);
    var n;
    n, q :| After(d, calls, f, s, n, q);
    SpentIsNotLive(d, f, calls[p], calls[q]);
    assert AllRevoked(d, f, s);
    assert s.d.rows[n].revokedAt.None?;
    assert Early(d, calls, f, s, n, p);
    forall r | 0 <= r < |calls| && r != p && r != q ensures !Presents(d, f, calls[r]) {
      assert !Early(d, calls, f, s, n, r);
    }
  }

  lemma NotBefore(d: Db, calls: seq<Token>, f: Id, s: State, p: Call, i: Id)
    requires KeepsFamily(d, f, s) && FinishedWith(d, calls, f, s, p, i) && d.rows[i].usedAt.Some? && !Dead(s.d, f)
    ensures !Unrotated(d, calls, f, s)
  {
  }

  lemma SpentIsNotLive(d: Db, f: Id, tok: Token, tok': Token)
    requires TableInv(d) && PresentsSpent(d, f, tok) && PresentsLive(d, f, tok')
    ensures tok != tok'
  {
    var i :| TokenIn(d, f, i, tok) && d.rows[i].usedAt.Some?;
    var j :| TokenIn(d, f, j, tok') && Rotatable(d.rows[j], d.clock);
    if tok == tok' {
      RowOfTokenUnique(d, i, tok);
      RowOfTokenUnique(d, j, tok);
    }
  }

  // --- Fresh ids and tokens -----------------------------------------------------------------------------

  const SOME_META := Meta("", "")

  /** There is always an id and a token that were never minted, and that nobody presents. */
  lemma FreshPair(d: Db, calls: seq<Token>) returns (id: Id, tok: Token)
    ensures Fresh(d, id, tok) && tok !in calls && id !in d.rows
  {
    id := AboveAll(d.born.Keys + d.families.Keys + d.rows.Keys);
    tok := AboveAll(d.minted.Keys + set t | t in calls);
  }

  // --- A run in which the row escapes --------------------------------------------------------------------

  /** The row is live in its family. */
  ghost predicate LiveIn(d: Db, f: Id, n: Id) {
    n in d.rows && d.rows[n].familyId == f && d.rows[n].revokedAt.None?
  }

  ghost function Lineage(d: Db, f: Id): set<Id> {
    set i | i in d.rows && d.rows[i].familyId == f
  }

  /** A call locks its row and looks at it. */
  lemma LockAndCheck(s: State, calls: seq<Token>, p: Call, i: Id)
    requires p < |s.pcs| == |calls| && s.pcs[p].Start? && RowOfToken(s.d.rows, calls[p]) == Some(i) && TokenIn(s.d, s.d.rows[i].familyId, i, calls[p])
    requires TableInv(s.d) && i !in s.locks && (s.d.rows[i].usedAt.Some? || Rotatable(s.d.rows[i], s.d.clock))
    ensures RotationRace.Enabled(s, calls, Lock(p)) && RotationRace.Enabled(Next(s, calls, Lock(p)), calls, Check(p, s.d.clock))
    ensures Next(Next(s, calls, Lock(p)), calls, Check(p, s.d.clock)) ==
            State(s.d, s.locks[i := p],
                  s.pcs[p := if s.d.rows[i].usedAt.Some? then Sweeping(s.d.rows[i], Lineage(s.d, s.d.rows[i].familyId))
                             else Rotating(s.d.rows[i])])
  {
    hide TableInv;
    forall j | HasToken(s.d.rows, j, calls[p]) ensures j == i {
      RowOfTokenUnique(s.d, j, calls[p]);
    }
    var s1 := Next(s, calls, Lock(p));
    assert s1.pcs == s.pcs[p := Holding(s.d.rows[i])] && s1.d.(clock := s.d.clock) == s.d;
    var s2 := Next(s1, calls, Check(p, s.d.clock));
    assert s2.d == s.d;
  }

  lemma RowHasId(d: Db, i: Id)
    requires TableInv(d) && i in d.rows
    ensures d.rows[i].id == i
  {
  }

  /** A call past its check commits. */
  lemma CommitFrom(s: State, calls: seq<Token>, q: Call, j: Id, commit: Step, e: Event) returns (s': State)
    requires q < |s.pcs| && j in s.d.rows && s.d.rows[j].id == j && s.pcs[q] == Rotating(s.d.rows[j])
    requires commit.Commit? && commit.call == q && commit.now == s.d.clock && Fresh(s.d, commit.newId, commit.newToken)
    requires e == RotateEvent(commit, s.d.rows[j].token)
    ensures RotationRace.Enabled(s, calls, commit) && s' == Next(s, calls, commit)
    ensures s' == State(Rotated(s.d, j, e), Released(s.locks, q), s.pcs[q := Finished(Exchanged(commit.newId))])
  {
    hide Rotated;
    s' := Next(s, calls, commit);
  }

  /** A rotation that commits and a sweep of a set of rows that does not include the new one. */
  ghost function Swept(d: Db, j: Id, e: Event, visible: set<Id>): Db
    requires j in d.rows && e.Rotate?
  {
    Rotated(d, j, e).(rows := RowsRevoked(Rotated(d, j, e).rows, visible, e.at), clock := e.at)
  }

  lemma NewRowSurvives(d: Db, f: Id, j: Id, e: Event)
    requires j in d.rows && d.rows[j].familyId == f && e.Rotate? && e.id !in d.rows
    ensures LiveIn(Swept(d, j, e, Lineage(d, f)), f, e.id)
    ensures forall k :: k in Swept(d, j, e, Lineage(d, f)).rows ==>
      var row := Swept(d, j, e, Lineage(d, f)).rows[k];
      if k == e.id then row.token == e.newToken
      else k in d.rows && row.token == d.rows[k].token && row.familyId == d.rows[k].familyId
  {
  }

  /** Between the snapshot of the sweep and its landing, the other call commits. */
  lemma CommitThenSweep(s: State, calls: seq<Token>, f: Id, p: Call, q: Call, i: Id, j: Id, commit: Step) returns (n: State)
    requires p < |s.pcs| && q < |s.pcs| && p != q && i != j && j in s.d.rows && s.d.rows[j].id == j
    requires s.pcs[p].Sweeping? && s.pcs[p].visible == Lineage(s.d, f) && s.pcs[q] == Rotating(s.d.rows[j])
    requires s.locks == map[i := p, j := q]
    requires commit.Commit? && commit.call == q && commit.now == s.d.clock && Fresh(s.d, commit.newId, commit.newToken)
    ensures RotationRace.Enabled(s, calls, commit) && RotationRace.Enabled(Next(s, calls, commit), calls, Sweep(p, s.d.clock))
    ensures n == Next(Next(s, calls, commit), calls, Sweep(p, s.d.clock))
    ensures n.locks == map[] && |n.pcs| == |s.pcs| && n.pcs[p] == Finished(ReuseSeen) && n.pcs[q].Finished?
    ensures forall r :: 0 <= r < |s.pcs| && r != p && r != q ==> n.pcs[r] == s.pcs[r]
    ensures n.d == Swept(s.d, j, RotateEvent(commit, s.d.rows[j].token), Lineage(s.d, f))
  {
    hide Rotated, RowsRevoked, Lineage;
    var s1 := Next(s, calls, commit);
    assert s1.locks == map[i := p];
    assert s1.d.clock == s.d.clock by {
      RotatedClock(s.d, j, RotateEvent(commit, s.d.rows[j].token));
    }
    n := Next(s1, calls, Sweep(p, s.d.clock));
    assert n.locks == map[];
  }

  lemma RotatedClock(d: Db, j: Id, e: Event)
    requires j in d.rows && e.Rotate?
    ensures Rotated(d, j, e).clock == e.at
  {
  }

  predicate AllOrderly(steps: seq<Step>, calls: seq<Token>) {
    forall k :: 0 <= k < |steps| ==> Orderly(steps[k], calls)
  }

  lemma {:induction false} Concatenated(s: State, calls: seq<Token>, xs: seq<Step>, ys: seq<Step>)
    requires ValidRace(s, calls, xs) && ValidRace(FinalState(s, calls, xs), calls, ys)
    ensures ValidRace(s, calls, xs + ys) && FinalState(s, calls, xs + ys) == FinalState(FinalState(s, calls, xs), calls, ys)
    decreases |xs|
  {
    hide Next, RotationRace.Enabled;
    if xs == [] {
      assert xs + ys == ys;
    } else {
      assert (xs + ys)[1..] == xs[1..] + ys;
      Concatenated(Next(s, calls, xs[0]), calls, xs[1..], ys);
    }
  }

  /** A rotation outside the family leaves its live row alone, and no token presents the family that did not. */
  lemma OtherRotation(d: Db, e: Event, f: Id, n: Id)
    requires TableInv(d) && e.Rotate? && Fresh(d, e.id, e.newToken) && !Presents(d, f, e.token) && LiveIn(d, f, n)
    ensures LiveIn(ApplyRotate(d, e).0, f, n)
    ensures forall tok :: tok != e.newToken && !Presents(d, f, tok) ==> !Presents(ApplyRotate(d, e).0, f, tok)
  {
    hide TableInv;
    InsertedIsNew(d, e.id);
    var d', row := ApplyRotate(d, e).0, RowOfToken(d.rows, e.token);
    if row.Some? {
      assert HasToken(d.rows, row.value, e.token);
      assert !TokenIn(d, f, row.value, e.token);
    }
    forall i, tok | tok != e.newToken && TokenIn(d', f, i, tok) ensures Presents(d, f, tok) {
      assert TokenIn(d, f, i, tok);
    }
  }

  /** A call that presents nothing of the family runs to its end and leaves the live row alone. */
  lemma FinishOne(s: State, calls: seq<Token>, f: Id, n: Id, r: Call) returns (steps: seq<Step>, s': State)
    requires RaceInv(s, calls) && r < |calls| && s.pcs[r].Start? && s.locks == map[] && !Presents(s.d, f, calls[r]) && LiveIn(s.d, f, n)
    ensures ValidRace(s, calls, steps) && AllOrderly(steps, calls) && s' == FinalState(s, calls, steps)
    ensures RaceInv(s', calls) && s'.locks == map[] && LiveIn(s'.d, f, n) && |s'.pcs| == |calls| && s'.pcs[r].Finished?
    ensures forall p :: 0 <= p < |calls| && p != r ==> s'.pcs[p] == s.pcs[p]
    ensures forall p :: 0 <= p < |calls| && !Presents(s.d, f, calls[p]) ==> !Presents(s'.d, f, calls[p])
  {
    hide Inv, LockInv, Next, ValidRace, FinalState, RotationRace.Enabled, ApplyRotate;
    InvHasTable(s.d);
    LockBasics(s, calls);
    var id, tok := FreshPair(s.d, calls);
    var e := Event.Rotate(calls[r], id, tok, SOME_META, s.d.clock);
    steps := AloneIsAtomic(s, calls, r, e);
    s' := FinalState(s, calls, steps);
    OtherRotation(s.d, e, f, n);
    assert s'.d.rows == ApplyRotate(s.d, e).0.rows;
    SamePresents(s'.d, ApplyRotate(s.d, e).0, f);
    RaceKeepsInv(s, calls, steps);
  }

  lemma SamePresents(d: Db, d': Db, f: Id)
    requires d.rows == d'.rows
    ensures forall tok :: Presents(d, f, tok) <==> Presents(d', f, tok)
  {
    forall tok, i ensures TokenIn(d, f, i, tok) <==> TokenIn(d', f, i, tok) {
    }
  }

  /** All calls that have not begun run to their ends, one after the other. */
  lemma {:induction false} FinishRest(s: State, calls: seq<Token>, f: Id, n: Id, k: nat) returns (steps: seq<Step>)
    requires RaceInv(s, calls) && k <= |calls| == |s.pcs| && s.locks == map[] && LiveIn(s.d, f, n)
    requires forall p :: 0 <= p < k ==> s.pcs[p].Finished?
    requires forall p :: k <= p < |calls| ==> s.pcs[p].Finished? || (s.pcs[p].Start? && !Presents(s.d, f, calls[p]))
    ensures ValidRace(s, calls, steps) && AllOrderly(steps, calls)
    ensures AllFinished(FinalState(s, calls, steps)) && |FinalState(s, calls, steps).pcs| == |calls|
    ensures LiveIn(FinalState(s, calls, steps).d, f, n)
    ensures forall p :: 0 <= p < |calls| && s.pcs[p].Finished? ==> FinalState(s, calls, steps).pcs[p] == s.pcs[p]
    decreases |calls| - k
  {
    hide Inv, LockInv, Next, RotationRace.Enabled, Presents, LiveIn;
    if k == |calls| {
      steps := [];
    } else if s.pcs[k].Finished? {
      steps := FinishRest(s, calls, f, n, k + 1);
    } else {
      var first, s1 := FinishOne(s, calls, f, n, k);
      var rest := FinishRest(s1, calls, f, n, k + 1);
      Concatenated(s, calls, first, rest);
      steps := first + rest;
    }
  }

  lemma ThreePairs(s: State, calls: seq<Token>, a: Step, a': Step, b: Step, b': Step, c: Step, c': Step)
    returns (steps: seq<Step>)
    requires Orderly(a, calls) && Orderly(a', calls) && Orderly(b, calls) && Orderly(b', calls) && Orderly(c, calls) && Orderly(c', calls)
    requires RotationRace.Enabled(s, calls, a) && RotationRace.Enabled(Next(s, calls, a), calls, a')
    requires var s2 := Next(Next(s, calls, a), calls, a');
      RotationRace.Enabled(s2, calls, b) && RotationRace.Enabled(Next(s2, calls, b), calls, b')
    requires var s4 := Next(Next(Next(Next(s, calls, a), calls, a'), calls, b), calls, b');
      RotationRace.Enabled(s4, calls, c) && RotationRace.Enabled(Next(s4, calls, c), calls, c')
    ensures ValidRace(s, calls, steps) && AllOrderly(steps, calls)
    ensures FinalState(s, calls, steps) ==
            Next(Next(Next(Next(Next(Next(s, calls, a), calls, a'), calls, b), calls, b'), calls, c), calls, c')
  {
    hide Next, RotationRace.Enabled, ValidRace, FinalState, Orderly;
    var s2 := Next(Next(s, calls, a), calls, a');
    var s4 := Next(Next(s2, calls, b), calls, b');
    TwoSteps(s, calls, a, a');
    TwoSteps(s2, calls, b, b');
    TwoSteps(s4, calls, c, c');
    Concatenated(s2, calls, [b, b'], [c, c']);
    Concatenated(s, calls, [a, a'], [b, b'] + [c, c']);
    steps := [a, a'] + ([b, b'] + [c, c']);
  }

  /** Two calls that present the family meet: one takes its snapshot, the other commits, the first sweeps. */
  lemma TwoMeet(s: State, calls: seq<Token>, f: Id, p: Call, q: Call) returns (steps: seq<Step>, n: Id, s': State)
    requires Inv(s.d) && |s.pcs| == |calls| && s.locks == map[] && p < |calls| && q < |calls| && s.pcs[p].Start? && s.pcs[q].Start?
    requires PresentsSpent(s.d, f, calls[p]) && PresentsLive(s.d, f, calls[q])
    ensures ValidRace(s, calls, steps) && AllOrderly(steps, calls) && s' == FinalState(s, calls, steps)
    ensures s'.locks == map[] && |s'.pcs| == |calls| && LiveIn(s'.d, f, n)
    ensures s'.pcs[p] == Finished(ReuseSeen) && s'.pcs[q].Finished?
    ensures forall r :: 0 <= r < |calls| && r != p && r != q ==> s'.pcs[r] == s.pcs[r]
    ensures forall r :: 0 <= r < |calls| && !Presents(s.d, f, calls[r]) ==> !Presents(s'.d, f, calls[r])
  {
    hide MemberInv, IndexInv, LinkInv, ClockInv, OrderInv, TableInv, Next, RotationRace.Enabled, ValidRace, FinalState, Lineage, Swept, LiveIn, Presents;
    var d, now := s.d, s.d.clock;
    SpentIsNotLive(d, f, calls[p], calls[q]);
    var i: Id :| TokenIn(d, f, i, calls[p]) && d.rows[i].usedAt.Some?;
    var j: Id :| TokenIn(d, f, j, calls[q]) && Rotatable(d.rows[j], d.clock);
    RowAgreesWithFamily(d, j);
    RowOfTokenUnique(d, i, calls[p]);
    RowOfTokenUnique(d, j, calls[q]);
    LockAndCheck(s, calls, p, i);
    var s2 := Next(Next(s, calls, Lock(p)), calls, Check(p, now));
    LockAndCheck(s2, calls, q, j);
    var s4 := Next(Next(s2, calls, Lock(q)), calls, Check(q, now));
    var tok;
    n, tok := FreshPair(d, calls);
    var commit := Commit(q, n, tok, SOME_META, now);
    assert s4.locks == map[i := p, j := q];
    s' := CommitThenSweep(s4, calls, f, p, q, i, j, commit);
    NewRowSurvives(d, f, j, RotateEvent(commit, d.rows[j].token));
    forall r | 0 <= r < |calls| && !Presents(d, f, calls[r]) ensures !Presents(s'.d, f, calls[r]) {
      NotPresented(d, s'.d, f, n, tok, calls[r]);
    }
    steps := ThreePairs(s, calls, Lock(p), Check(p, now), Lock(q), Check(q, now), commit, Sweep(p, now));
  }

  lemma NotPresented(d: Db, d': Db, f: Id, n: Id, newToken: Token, tok: Token)
    requires !Presents(d, f, tok) && tok != newToken
    requires forall k :: k in d'.rows ==>
      if k == n then d'.rows[k].token == newToken
      else k in d.rows && d'.rows[k].token == d.rows[k].token && d'.rows[k].familyId == d.rows[k].familyId
    ensures !Presents(d', f, tok)
  {
    forall k ensures !TokenIn(d', f, k, tok) {
      assert !TokenIn(d, f, k, tok);
    }
  }

  ghost predicate CompleteRace(d: Db, calls: seq<Token>, steps: seq<Step>) {
    && ValidRace(InitialState(d, calls), calls, steps) && AllOrderly(steps, calls)
    && AllFinished(FinalState(InitialState(d, calls), calls, steps))
  }

  ghost predicate Escapes(d: Db, calls: seq<Token>, f: Id) {
    exists p, q :: EscapesBy(d, calls, f, p, q)
  }

  lemma EscapeRun(d: Db, calls: seq<Token>, f: Id, p: Call, q: Call) returns (steps: seq<Step>)
    requires Reachable(d) && EscapesBy(d, calls, f, p, q)
    ensures CompleteRace(d, calls, steps) && !Dead(FinalState(InitialState(d, calls), calls, steps).d, f)
  {
    hide Inv, Next, RotationRace.Enabled, ValidRace, FinalState, LockInv, Reachable;
    ReachableInv(d);
    var s0 := InitialState(d, calls);
    var meet, n, s := TwoMeet(s0, calls, f, p, q);
    StartRaceInv(d, calls);
    RaceKeepsInv(s0, calls, meet);
    var rest := FinishRest(s, calls, f, n, 0);
    Concatenated(s0, calls, meet, rest);
    steps := meet + rest;
    assert !Dead(FinalState(s0, calls, steps).d, f) by {
      assert LiveIn(FinalState(s0, calls, steps).d, f, n);
    }
  }

  lemma StartRaceInv(d: Db, calls: seq<Token>)
    requires Inv(d)
    ensures RaceInv(InitialState(d, calls), calls)
  {
    hide Inv;
  }

  /** When some call presents a spent token of the family, and no call gives up, every run of all the calls to
      their ends, in any interleaving, leaves the family dead, if and only if it is not so that exactly one call
      presents a spent token, exactly one the token that can still be exchanged, and none any other of the
      family. Among more calls than two the later one sees the new row, or all wait for each other for good. */
  lemma UnabortedFamilyDiesExactly(d: Db, calls: seq<Token>, f: Id, p: Call)
    requires Reachable(d) && p < |calls| && PresentsSpent(d, f, calls[p])
    ensures (forall steps :: CompleteRace(d, calls, steps) ==> Dead(FinalState(InitialState(d, calls), calls, steps).d, f)) <==>
            !Escapes(d, calls, f)
  {
    hide Inv, Next, RotationRace.Enabled, ValidRace, FinalState, LockInv, Reachable, Common, Fate, Dead, EscapesBy, TableInv;
    ReachableInv(d);
    InvHasTable(d);
    if !Escapes(d, calls, f) {
      forall steps | CompleteRace(d, calls, steps) ensures Dead(FinalState(InitialState(d, calls), calls, steps).d, f) {
        var s := FinalState(InitialState(d, calls), calls, steps);
        SpentHasFamily(d, f, calls[p]);
        StartFate(d, calls, f);
        RunFate(d, calls, f, InitialState(d, calls), steps);
        LockBasics(s, calls);
        if !Dead(s.d, f) {
          var q := SurvivorEscaped(d, calls, f, s, p);
        }
      }
    } else {
      var p', q' :| EscapesBy(d, calls, f, p', q');
      var steps := EscapeRun(d, calls, f, p', q');
    }
  }

  lemma SpentHasFamily(d: Db, f: Id, tok: Token)
    requires Inv(d) && PresentsSpent(d, f, tok)
    ensures f in d.families
  {
    hide TableInv, MemberInv, IndexInv, LinkInv, ClockInv, OrderInv;
    var i :| TokenIn(d, f, i, tok) && d.rows[i].usedAt.Some?;
    FamilySharesUser(d, i);
  }

  // --- Calls that give up -----------------------------------------------------------------------------------

  /** Nobody presents the token of the family that could be exchanged at the start. */
  ghost predicate NobodyRotates(d: Db, calls: seq<Token>, f: Id) {
    forall q :: 0 <= q < |calls| ==> !PresentsLive(d, f, calls[q])
  }

  /** The family has no row it did not have, and none is newly spent. */
  ghost predicate Still(d: Db, f: Id, s: State) {
    forall i :: i in s.d.rows && s.d.rows[i].familyId == f ==>
      i in d.rows && d.rows[i].familyId == f && s.d.rows[i].usedAt == d.rows[i].usedAt
  }

  /** Once call `p` has reported reuse, the rows the family had at the start are revoked. */
  ghost predicate SweptBy(d: Db, f: Id, s: State, p: Call) {
    p < |s.pcs| && (s.pcs[p] == Finished(ReuseSeen) ==> AllRevoked(d, f, s))
  }

  /** A call that rotates a row of the family presents its exchangeable token. */
  lemma RotatesLive(d: Db, calls: seq<Token>, f: Id, s: State, q: Call)
    requires LockInv(s, calls) && Common(d, f, s) && Still(d, f, s)
    requires q < |calls| && s.pcs[q].Rotating? && s.pcs[q].row.familyId == f
    ensures PresentsLive(d, f, calls[q])
  {
    HeldLock(s, calls, q);
    assert TokenIn(d, f, s.pcs[q].row.id, calls[q]);
  }

  lemma StillStep(d: Db, calls: seq<Token>, f: Id, s: State, t: Step)
    requires TableInv(s.d) && LockInv(s, calls) && RotationRace.Enabled(s, calls, t)
    requires NobodyRotates(d, calls, f) && Common(d, f, s) && Still(d, f, s)
    ensures Still(d, f, Next(s, calls, t))
  {
    hide TableInv, LockInv, Next, KeepsFamily, RotatingInv, SweepingInv, PresentsLive;
    LockBasics(s, calls);
    if t.Commit? && s.pcs[t.call].row.familyId == f {
      RotatesLive(d, calls, f, s, t.call);
    }
    SameRowsStep(f, s, calls, t);
  }

  lemma RevokedStays(d: Db, f: Id, s: State, calls: seq<Token>, t: Step)
    requires TableInv(s.d) && LockInv(s, calls) && RotationRace.Enabled(s, calls, t) && AllRevoked(d, f, s)
    ensures AllRevoked(d, f, Next(s, calls, t))
  {
    hide TableInv, LockInv;
    LockBasics(s, calls);
    if t.Commit? {
      HeldLock(s, calls, t.call);
      InsertedIsNew(s.d, t.newId);
    } else if t.Login? {
      InsertedIsNew(s.d, t.newId);
    }
  }

  lemma SweptByStep(d: Db, calls: seq<Token>, f: Id, s: State, t: Step, p: Call)
    requires TableInv(s.d) && LockInv(s, calls) && RotationRace.Enabled(s, calls, t) && Common(d, f, s) && SweptBy(d, f, s, p)
    requires p < |calls| && PresentsSpent(d, f, calls[p])
    ensures SweptBy(d, f, Next(s, calls, t), p)
  {
    hide TableInv, LockInv, AllRevoked;
    LockBasics(s, calls);
    StepTouchesOne(s, calls, t);
    if s.pcs[p] == Finished(ReuseSeen) {
      RevokedStays(d, f, s, calls, t);
    } else if Next(s, calls, t).pcs[p] == Finished(ReuseSeen) {
      var i :| TokenIn(d, f, i, calls[p]) && d.rows[i].usedAt.Some?;
      BusyWith(d, f, s, calls, p, i);
      SweepReaches(d, f, s, calls, t);
    }
  }

  lemma SweepReaches(d: Db, f: Id, s: State, calls: seq<Token>, t: Step)
    requires RotationRace.Enabled(s, calls, t) && t.Sweep? && s.pcs[t.call].row.familyId == f
    requires KeepsFamily(d, f, s) && SweepingInv(d, f, s)
    ensures AllRevoked(d, f, Next(s, calls, t))
  {
  }

  lemma {:induction false} RunSweptBy(d: Db, calls: seq<Token>, f: Id, s: State, steps: seq<Step>, p: Call)
    requires RaceInv(s, calls) && ValidRace(s, calls, steps) && Common(d, f, s) && SweptBy(d, f, s, p)
    requires p < |calls| && PresentsSpent(d, f, calls[p])
    ensures var n := FinalState(s, calls, steps);
      RaceInv(n, calls) && Common(d, f, n) && SweptBy(d, f, n, p)
      && (NobodyRotates(d, calls, f) && Still(d, f, s) ==> Still(d, f, n))
    decreases |steps|
  {
    hide Inv, LockInv, Next, SweptBy, Still, Common, NobodyRotates, RotationRace.Enabled, PresentsSpent;
    if steps == [] {
    } else {
      StepKeepsTable(s, calls, steps[0]);
      InvHasTable(s.d);
      StepKeepsLocks(s, calls, steps[0]);
      CommonStep(d, f, s, calls, steps[0]);
      SweptByStep(d, calls, f, s, steps[0], p);
      if NobodyRotates(d, calls, f) && Still(d, f, s) {
        StillStep(d, calls, f, s, steps[0]);
      }
      RunSweptBy(d, calls, f, Next(s, calls, steps[0]), steps[1..], p);
    }
  }

  lemma StartSweptBy(d: Db, calls: seq<Token>, f: Id, p: Call)
    requires Inv(d) && f in d.families && p < |calls|
    ensures var s := InitialState(d, calls); RaceInv(s, calls) && Common(d, f, s) && SweptBy(d, f, s, p) && Still(d, f, s)
  {
    hide TableInv, MemberInv, IndexInv, LinkInv, ClockInv, OrderInv;
  }

  /** Where nobody presents the exchangeable token, whatever the other calls do, and however many of them give up
      at whatever point, a replay that is reported has killed the family. */
  lemma ReportedReplayKills(d: Db, calls: seq<Token>, steps: seq<Step>, f: Id, p: Call)
    requires Reachable(d) && p < |calls| && PresentsSpent(d, f, calls[p]) && NobodyRotates(d, calls, f)
    requires ValidRace(InitialState(d, calls), calls, steps)
    requires p < |FinalState(InitialState(d, calls), calls, steps).pcs|
    requires FinalState(InitialState(d, calls), calls, steps).pcs[p] == Finished(ReuseSeen)
    ensures Dead(FinalState(InitialState(d, calls), calls, steps).d, f)
  {
    hide Inv, LockInv, NobodyRotates, PresentsSpent, ValidRace, FinalState, KeepsFamily, RotatingInv, SweepingInv, Reachable;
    ReachableInv(d);
    SpentHasFamily(d, f, calls[p]);
    StartSweptBy(d, calls, f, p);
    RunSweptBy(d, calls, f, InitialState(d, calls), steps, p);
  }

  /** All calls but two give up before they begin. */
  lemma {:induction false} GiveUp(s: State, calls: seq<Token>, p: Call, q: Call, k: nat) returns (steps: seq<Step>, s': State)
    requires |s.pcs| == |calls| && s.locks == map[] && k <= |calls|
    requires forall r :: 0 <= r < |calls| ==> if r < k && r != p && r != q then s.pcs[r].Finished? else s.pcs[r].Start?
    ensures ValidRace(s, calls, steps) && s' == FinalState(s, calls, steps) && AllUnpresented(steps, calls)
    ensures s'.d == s.d && s'.locks == map[] && |s'.pcs| == |calls|
    ensures forall r :: 0 <= r < |calls| ==> if r != p && r != q then s'.pcs[r].Finished? else s'.pcs[r].Start?
    decreases |calls| - k
  {
    hide ValidRace, FinalState;
    if k == |calls| {
      steps, s' := [], s;
      NoStepsLeft(s, calls);
    } else if k == p || k == q {
      steps, s' := GiveUp(s, calls, p, q, k + 1);
    } else {
      var n := Next(s, calls, Abort(k));
      assert n.locks == map[];
      steps, s' := GiveUp(n, calls, p, q, k + 1);
      StepFirst(s, calls, Abort(k), steps);
      steps := [Abort(k)] + steps;
    }
  }

  predicate AllUnpresented(steps: seq<Step>, calls: seq<Token>) {
    forall k :: 0 <= k < |steps| ==> Unpresented(steps[k], calls)
  }

  /** All calls come to their ends, some of them perhaps by giving up, and `p` reports reuse. */
  ghost predicate ReportsReuse(d: Db, calls: seq<Token>, steps: seq<Step>, p: Call) {
    && ValidRace(InitialState(d, calls), calls, steps) && AllUnpresented(steps, calls)
    && AllFinished(FinalState(InitialState(d, calls), calls, steps))
    && p < |FinalState(InitialState(d, calls), calls, steps).pcs|
    && FinalState(InitialState(d, calls), calls, steps).pcs[p] == Finished(ReuseSeen)
  }

  /** A race in which the replay is reported and a row stays live. */
  lemma ReportedEscape(d: Db, calls: seq<Token>, f: Id, p: Call, q: Call) returns (steps: seq<Step>)
    requires Reachable(d) && p < |calls| && q < |calls| && PresentsSpent(d, f, calls[p]) && PresentsLive(d, f, calls[q])
    ensures ReportsReuse(d, calls, steps, p) && !Dead(FinalState(InitialState(d, calls), calls, steps).d, f)
  {
    hide Inv, Next, RotationRace.Enabled, ValidRace, FinalState, LockInv, Reachable, Presents, PresentsSpent, PresentsLive;
    ReachableInv(d);
    var s0 := InitialState(d, calls);
    var first, s1 := GiveUp(s0, calls, p, q, 0);
    var meet, n, s := TwoMeet(s1, calls, f, p, q);
    Concatenated(s0, calls, first, meet);
    steps := first + meet;
  }

  /** When a call presents a spent token of the family, every race, in which calls may give up at any point, that
      brings all calls to their ends and has this one report reuse, leaves the family dead, if and only if
      no call presents the token of the family that can still be exchanged. */
  lemma FamilyDiesExactly(d: Db, calls: seq<Token>, f: Id, p: Call)
    requires Reachable(d) && p < |calls| && PresentsSpent(d, f, calls[p])
    ensures (forall steps :: ReportsReuse(d, calls, steps, p) ==> Dead(FinalState(InitialState(d, calls), calls, steps).d, f)) <==>
            forall q :: 0 <= q < |calls| ==> !PresentsLive(d, f, calls[q])
  {
    hide PresentsSpent, PresentsLive, ValidRace, FinalState, Dead, Reachable, AllFinished;
    if NobodyRotates(d, calls, f) {
      forall steps | ReportsReuse(d, calls, steps, p) ensures Dead(FinalState(InitialState(d, calls), calls, steps).d, f) {
        ReportedReplayKills(d, calls, steps, f, p);
      }
    } else {
      var q :| 0 <= q < |calls| && PresentsLive(d, f, calls[q]);
      var steps := ReportedEscape(d, calls, f, p, q);
    }
  }
}
