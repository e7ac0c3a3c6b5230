/** Concurrent Rotate calls at the granularity of row locks: each call locks the presented row, looks at
    it, and commits, and any other call may run in between. */
module RotationRace {
  import opened Prelude
  import opened Sessions
  import opened SessionRuns

  datatype Outcome = Exchanged(id: Id) | ReuseSeen | Missing | Aborted

  /** Where a call stands. A call past Start and not Finished holds the lock on `row`. */
  datatype Pc =
    | Start
    | Holding(row: Session)
    | Rotating(row: Session)
    /** The family UPDATE has started: it will stamp the rows its snapshot saw. */
    | Sweeping(row: Session, visible: set<Id>)
    | Finished(outcome: Outcome)

  type Call = nat

  datatype State = State(d: Db, locks: map<Id, Call>, pcs: seq<Pc>)

  datatype Step =
    | Lock(call: Call)
    | Check(call: Call, now: Time)
    | Commit(call: Call, newId: Id, newToken: Token, meta: Meta, now: Time)
    | Sweep(call: Call, now: Time)
    /** A call gives up: deadlock victim, cancelled request or lost connection. */
    | Abort(call: Call)
    /** Anything else that revokes: any set of unlocked rows, in any grouping. */
    | RevokeRows(ids: set<Id>, now: Time)
    /** A fresh login. */
    | Login(userId: UserId, clientId: ClientId, newId: Id, newToken: Token, meta: Meta, now: Time)

  ghost predicate Busy(pc: Pc) {
    pc.Holding? || pc.Rotating? || pc.Sweeping?
  }

  ghost predicate FreeFor(s: State, ids: set<Id>, p: Call) {
    forall i :: i in ids && i in s.locks ==> s.locks[i] == p
  }

  ghost predicate Enabled(s: State, calls: seq<Token>, t: Step) {
    match t
    case Lock(p) =>
      p < |s.pcs| == |calls| && s.pcs[p].Start? && forall i :: HasToken(s.d.rows, i, calls[p]) ==> i !in s.locks
    case Check(p, now) => p < |s.pcs| && s.pcs[p].Holding? && s.d.clock <= now
    case Commit(p, id, tok, _, now) => p < |s.pcs| && s.pcs[p].Rotating? && s.d.clock <= now && Fresh(s.d, id, tok)
    case Sweep(p, now) => p < |s.pcs| && s.pcs[p].Sweeping? && s.d.clock <= now && FreeFor(s, s.pcs[p].visible, p)
    case Abort(p) => p < |s.pcs| && !s.pcs[p].Finished?
    case RevokeRows(ids, now) => s.d.clock <= now && forall i :: i in ids ==> i !in s.locks
    case Login(_, _, id, tok, _, now) => s.d.clock <= now && Fresh(s.d, id, tok)
  }

  function RowsRevoked(rows: Rows, ids: set<Id>, now: Time): Rows {
    map i | i in rows :: if i in ids then Revoked(rows[i], now) else rows[i]
  }

  function Released(locks: map<Id, Call>, p: Call): map<Id, Call> {
    map i | i in locks && locks[i] != p :: locks[i]
  }

  function Done(s: State, p: Call, d: Db, o: Outcome): State
    requires p < |s.pcs|
  {
    State(d, Released(s.locks, p), s.pcs[p := Finished(o)])
  }

  function RotateEvent(t: Step, tok: Token): Event
    requires t.Commit?
  {
    Event.Rotate(tok, t.newId, t.newToken, t.meta, t.now)
  }

  ghost function Next(s: State, calls: seq<Token>, t: Step): State
    requires Enabled(s, calls, t)
  {
    match t
    case Lock(p) =>
      (match RowOfToken(s.d.rows, calls[p])
       case None => Done(s, p, s.d, Missing)
       case Some(i) =>
         // The lock is granted on the latest committed version of the row.
         s.(locks := s.locks[i := p], pcs := s.pcs[p := Holding(s.d.rows[i])]))
    case Check(p, now) =>
      var r := s.pcs[p].row;
      var d := s.d.(clock := now);
      if r.usedAt.Some? then
        s.(d := d, pcs := s.pcs[p := Sweeping(r, set i | i in d.rows && d.rows[i].familyId == r.familyId)])
      else if !Rotatable(r, now) then Done(s, p, d, Missing)
      else s.(d := d, pcs := s.pcs[p := Rotating(r)])
    case Commit(p, id, tok, meta, now) =>
      var i := s.pcs[p].row.id;
      if i in s.d.rows then Done(s, p, Rotated(s.d, i, RotateEvent(t, s.pcs[p].row.token)), Exchanged(id)) else s
    case Sweep(p, now) =>
      Done(s, p, s.d.(rows := RowsRevoked(s.d.rows, s.pcs[p].visible, now), clock := now), ReuseSeen)
    case Abort(p) => Done(s, p, s.d, Aborted)
    case RevokeRows(ids, now) => s.(d := s.d.(rows := RowsRevoked(s.d.rows, ids, now), clock := now))
    case Login(u, c, id, tok, meta, now) =>
      s.(d := Inserted(s.d, FreshRow(id, u, c, id, None, tok, meta, now), now))
  }

  /** A busy call holds the lock on its row, which nobody has changed since. */
  ghost predicate HoldsRow(s: State, calls: seq<Token>, p: Call, pc: Pc)
    requires p < |calls|
  {
    Busy(pc) ==>
      && HasToken(s.d.rows, pc.row.id, calls[p])
      && s.d.rows[pc.row.id] == pc.row
      && pc.row.id in s.locks && s.locks[pc.row.id] == p
      && (pc.Rotating? ==> pc.row.usedAt.None?)
      && (pc.Sweeping? ==> pc.row.usedAt.Some? && pc.visible <= s.d.rows.Keys)
  }

  ghost predicate LockInv(s: State, calls: seq<Token>) {
    && |s.pcs| == |calls|
    && (forall p :: 0 <= p < |calls| ==> HoldsRow(s, calls, p, s.pcs[p]))
    && (forall i :: i in s.locks ==> s.locks[i] < |calls| && Busy(s.pcs[s.locks[i]]) && s.pcs[s.locks[i]].row.id == i)
  }

  ghost predicate RaceInv(s: State, calls: seq<Token>) {
    Inv(s.d) && LockInv(s, calls)
  }

  ghost function InitialState(d: Db, calls: seq<Token>): State {
    State(d, map[], seq(|calls|, _ => Start))
  }

  ghost predicate ValidRace(s: State, calls: seq<Token>, steps: seq<Step>)
    decreases |steps|
  {
    steps == [] || (Enabled(s, calls, steps[0]) && ValidRace(Next(s, calls, steps[0]), calls, steps[1..]))
  }

  ghost function FinalState(s: State, calls: seq<Token>, steps: seq<Step>): State
    requires ValidRace(s, calls, steps)
    decreases |steps|
  {
    if steps == [] then s else FinalState(Next(s, calls, steps[0]), calls, steps[1..])
  }

  // --- Every step keeps the table and the locks consistent -------------------------------------------

  lemma StepKeepsTable(s: State, calls: seq<Token>, t: Step)
    requires RaceInv(s, calls) && Enabled(s, calls, t)
    ensures Inv(Next(s, calls, t).d)
  {
    hide Inv, LockInv, Rotated, RowOfToken;
    LockBasics(s, calls);
    match t
    case Lock(_) =>
    case Check(p, now) => RestampKeepsInv(s.d, s.d.rows, now);
    case Commit(p, _, _, _, now) =>
      HeldLock(s, calls, p);
      RotateKeepsInv(s.d, s.pcs[p].row.id, RotateEvent(t, s.pcs[p].row.token));
    case Sweep(p, now) => RestampKeepsInv(s.d, RowsRevoked(s.d.rows, s.pcs[p].visible, now), now);
    case Abort(_) =>
    case RevokeRows(ids, now) => RestampKeepsInv(s.d, RowsRevoked(s.d.rows, ids, now), now);
    case Login(u, c, id, tok, meta, now) => CreateKeepsInv(s.d, Create(u, c, id, tok, meta, now));
  }

  lemma LockKeepsLocks(s: State, calls: seq<Token>, t: Step)
    requires TableInv(s.d) && LockInv(s, calls) && Enabled(s, calls, t) && t.Lock?
    ensures LockInv(Next(s, calls, t), calls)
  {
    var i := RowOfToken(s.d.rows, calls[t.call]);
    if i.Some? {
      assert HasToken(s.d.rows, i.value, calls[t.call]);
      GrantKeepsLocks(s, calls, t.call, i.value);
    } else {
      DoneKeepsLocks(s, calls, t.call, s.d, Missing);
    }
  }

  lemma GrantKeepsLocks(s: State, calls: seq<Token>, p: Call, i: Id)
    requires LockInv(s, calls) && p < |calls| && s.pcs[p].Start?
    requires HasToken(s.d.rows, i, calls[p]) && i !in s.locks && s.d.rows[i].id == i
    ensures LockInv(s.(locks := s.locks[i := p], pcs := s.pcs[p := Holding(s.d.rows[i])]), calls)
  {
    var n := s.(locks := s.locks[i := p], pcs := s.pcs[p := Holding(s.d.rows[i])]);
    forall q | 0 <= q < |calls| ensures HoldsRow(n, calls, q, n.pcs[q]) {
      assert HoldsRow(s, calls, q, s.pcs[q]);
    }
  }

  /** No row is gone, and rows locked by calls other than `p` are as they were. */
  ghost predicate OthersUntouched(s: State, d: Db, p: Call) {
    && s.d.rows.Keys <= d.rows.Keys
    && forall i :: i in s.locks && s.locks[i] != p && i in s.d.rows ==> d.rows[i] == s.d.rows[i]
  }

  lemma DoneKeepsLocks(s: State, calls: seq<Token>, p: Call, d: Db, o: Outcome)
    requires LockInv(s, calls) && p < |calls| && OthersUntouched(s, d, p)
    ensures LockInv(Done(s, p, d, o), calls)
  {
    var n := Done(s, p, d, o);
    forall q | 0 <= q < |calls| ensures HoldsRow(n, calls, q, n.pcs[q]) {
      assert HoldsRow(s, calls, q, s.pcs[q]);
    }
  }

  /** Changing rows no call has locked, or moving a call on while it keeps its lock. */
  lemma MoveKeepsLocks(s: State, calls: seq<Token>, p: Call, d: Db, pc: Pc)
    requires LockInv(s, calls) && p < |calls| && OthersUntouched(s, d, |calls|)
    requires Busy(pc) <==> Busy(s.pcs[p])
    requires Busy(pc) ==> pc.row == s.pcs[p].row
    requires pc.Rotating? ==> pc.row.usedAt.None?
    requires pc.Sweeping? ==> pc.row.usedAt.Some? && pc.visible <= s.d.rows.Keys
    ensures LockInv(s.(d := d, pcs := s.pcs[p := pc]), calls)
  {
    var n := s.(d := d, pcs := s.pcs[p := pc]);
    forall q | 0 <= q < |calls| ensures HoldsRow(n, calls, q, n.pcs[q]) {
      assert HoldsRow(s, calls, q, s.pcs[q]);
    }
  }

  lemma EnvKeepsLocks(s: State, calls: seq<Token>, d: Db)
    requires LockInv(s, calls) && OthersUntouched(s, d, |calls|)
    ensures LockInv(s.(d := d), calls)
  {
    var n := s.(d := d);
    forall q | 0 <= q < |calls| ensures HoldsRow(n, calls, q, n.pcs[q]) {
      assert HoldsRow(s, calls, q, s.pcs[q]);
    }
  }

  lemma StepKeepsLocks(s: State, calls: seq<Token>, t: Step)
    requires TableInv(s.d) && LockInv(s, calls) && Enabled(s, calls, t)
    ensures LockInv(Next(s, calls, t), calls)
  {
    hide LockInv, TableInv;
    assert |s.pcs| == |calls| by { LockBasics(s, calls); }
    match t
    case Lock(_) => LockKeepsLocks(s, calls, t);
    case Check(p, now) =>
      var d := s.d.(clock := now);
      if s.pcs[p].row.usedAt.None? && !Rotatable(s.pcs[p].row, now) {
        DoneKeepsLocks(s, calls, p, d, Missing);
      } else {
        MoveKeepsLocks(s, calls, p, d, Next(s, calls, t).pcs[p]);
      }
    case Commit(p, id, _, _, _) =>
      var i := s.pcs[p].row.id;
      if i in s.d.rows {
        HeldLock(s, calls, p);
        InsertedIsNew(s.d, id);
        DoneKeepsLocks(s, calls, p, Rotated(s.d, i, RotateEvent(t, s.pcs[p].row.token)), Exchanged(id));
      }
    case Sweep(p, now) =>
      DoneKeepsLocks(s, calls, p, s.d.(rows := RowsRevoked(s.d.rows, s.pcs[p].visible, now), clock := now), ReuseSeen);
    case Abort(p) => DoneKeepsLocks(s, calls, p, s.d, Aborted);
    case RevokeRows(ids, now) => EnvKeepsLocks(s, calls, s.d.(rows := RowsRevoked(s.d.rows, ids, now), clock := now));
    case Login(_, _, id, _, _, _) =>
      InsertedIsNew(s.d, id);
      EnvKeepsLocks(s, calls, Next(s, calls, t).d);
  }

  lemma LockBasics(s: State, calls: seq<Token>)
    requires LockInv(s, calls)
    ensures |s.pcs| == |calls|
  {
  }

  lemma HeldLock(s: State, calls: seq<Token>, p: Call)
    requires LockInv(s, calls) && p < |calls| && Busy(s.pcs[p])
    ensures HoldsRow(s, calls, p, s.pcs[p])
    ensures forall i :: i in s.locks && s.locks[i] != p ==> i != s.pcs[p].row.id
  {
  }

  lemma InsertedIsNew(d: Db, id: Id)
    requires TableInv(d) && id !in d.born
    ensures id !in d.rows
  {
  }

  lemma {:induction false} RaceKeepsInv(s: State, calls: seq<Token>, steps: seq<Step>)
    requires RaceInv(s, calls) && ValidRace(s, calls, steps)
    ensures RaceInv(FinalState(s, calls, steps), calls)
    decreases |steps|
  {
    if steps == [] {
    } else {
      StepKeepsTable(s, calls, steps[0]);
      StepKeepsLocks(s, calls, steps[0]);
      hide Next, Inv, LockInv;
      RaceKeepsInv(Next(s, calls, steps[0]), calls, steps[1..]);
    }
  }

  // --- One call at a time ------------------------------------------------------------------------------

  function OutcomeOf(r: Reply): Outcome {
    match r
    case Issued(session) => Exchanged(session.id)
    case TokenReuse => ReuseSeen
    case _ => Missing
  }

  lemma StepFirst(s: State, calls: seq<Token>, t: Step, rest: seq<Step>)
    requires Enabled(s, calls, t) && ValidRace(Next(s, calls, t), calls, rest)
    ensures ValidRace(s, calls, [t] + rest)
    ensures FinalState(s, calls, [t] + rest) == FinalState(Next(s, calls, t), calls, rest)
  {
    hide Next, Enabled;
    assert ([t] + rest)[1..] == rest;
  }

  lemma OneStep(s: State, calls: seq<Token>, t: Step)
    requires Enabled(s, calls, t)
    ensures ValidRace(s, calls, [t]) && FinalState(s, calls, [t]) == Next(s, calls, t)
  {
    hide Next, Enabled;
    NoStepsLeft(Next(s, calls, t), calls);
    StepFirst(s, calls, t, []);
  }

  lemma NoStepsLeft(s: State, calls: seq<Token>)
    ensures ValidRace(s, calls, []) && FinalState(s, calls, []) == s
  {
  }

  lemma TwoSteps(s: State, calls: seq<Token>, t: Step, u: Step)
    requires Enabled(s, calls, t) && Enabled(Next(s, calls, t), calls, u)
    ensures ValidRace(s, calls, [t, u]) && FinalState(s, calls, [t, u]) == Next(Next(s, calls, t), calls, u)
  {
    hide Next, Enabled;
    OneStep(Next(s, calls, t), calls, u);
    StepFirst(s, calls, t, [u]);
    assert [t] + [u] == [t, u];
  }

  ghost predicate HoldsAlone(s: State, p: Call, i: Id, e: Event) {
    && p < |s.pcs| && e.Rotate? && s.d.clock <= e.at && Fresh(s.d, e.id, e.newToken)
    && i in s.d.rows && s.d.rows[i].id == i && s.d.rows[i].token == e.token && s.pcs[p] == Holding(s.d.rows[i])
    && RowOfToken(s.d.rows, e.token) == Some(i) && s.locks == map[i := p]
  }

  ghost predicate EndsAs(s: State, p: Call, e: Event, n: State)
    requires e.Rotate? && p < |s.pcs|
  {
    && n.d == ApplyRotate(s.d, e).0 && n.locks == map[]
    && n.pcs == s.pcs[p := Finished(OutcomeOf(ApplyRotate(s.d, e).1))]
  }

  /** The steps of one call that mints this token at most. */
  predicate StepsOf(p: Call, newToken: Token, steps: seq<Step>) {
    forall k :: 0 <= k < |steps| ==>
      && (steps[k].Lock? || steps[k].Check? || steps[k].Commit? || steps[k].Sweep?)
      && steps[k].call == p && (steps[k].Commit? ==> steps[k].newToken == newToken)
  }

  lemma SweepAlone(s: State, calls: seq<Token>, p: Call, i: Id, e: Event)
    requires HoldsAlone(s, p, i, e) && s.d.rows[i].usedAt.Some?
    ensures Enabled(s, calls, Check(p, e.at)) && Enabled(Next(s, calls, Check(p, e.at)), calls, Sweep(p, e.at))
    ensures EndsAs(s, p, e, Next(Next(s, calls, Check(p, e.at)), calls, Sweep(p, e.at)))
  {
    var s1 := Next(s, calls, Check(p, e.at));
    assert RowsRevoked(s1.d.rows, s1.pcs[p].visible, e.at) == FamilyRevoked(s.d.rows, s.d.rows[i].familyId, e.at);
  }

  lemma CommitAlone(s: State, calls: seq<Token>, p: Call, i: Id, e: Event)
    requires HoldsAlone(s, p, i, e) && Rotatable(s.d.rows[i], e.at)
    ensures var commit := Commit(p, e.id, e.newToken, e.meta, e.at);
      && Enabled(s, calls, Check(p, e.at)) && Enabled(Next(s, calls, Check(p, e.at)), calls, commit)
      && EndsAs(s, p, e, Next(Next(s, calls, Check(p, e.at)), calls, commit))
  {
    assert Rotated(Next(s, calls, Check(p, e.at)).d, i, e) == Rotated(s.d, i, e);
  }

  /** After the lock, a call that nothing disturbs ends as the transaction does. */
  lemma HolderFinishes(s: State, calls: seq<Token>, p: Call, i: Id, e: Event) returns (steps: seq<Step>)
    requires HoldsAlone(s, p, i, e)
    ensures ValidRace(s, calls, steps) && EndsAs(s, p, e, FinalState(s, calls, steps)) && StepsOf(p, e.newToken, steps)
  {
    hide ValidRace, FinalState;
    if s.d.rows[i].usedAt.Some? {
      hide Next, Enabled, EndsAs;
      SweepAlone(s, calls, p, i, e);
      TwoSteps(s, calls, Check(p, e.at), Sweep(p, e.at));
      steps := [Check(p, e.at), Sweep(p, e.at)];
    } else if Rotatable(s.d.rows[i], e.at) {
      hide Next, Enabled, EndsAs;
      CommitAlone(s, calls, p, i, e);
      TwoSteps(s, calls, Check(p, e.at), Commit(p, e.id, e.newToken, e.meta, e.at));
      steps := [Check(p, e.at), Commit(p, e.id, e.newToken, e.meta, e.at)];
    } else {
      OneStep(s, calls, Check(p, e.at));
      steps := [Check(p, e.at)];
    }
  }

  /** The lock-level steps of a call that runs alone amount to the transaction of the table. */
  lemma AloneIsAtomic(s: State, calls: seq<Token>, p: Call, e: Event) returns (steps: seq<Step>)
    requires RaceInv(s, calls) && p < |calls| && s.pcs[p].Start? && s.locks == map[]
    requires e.Rotate? && e.token == calls[p] && s.d.clock <= e.at && Fresh(s.d, e.id, e.newToken)
    ensures ValidRace(s, calls, steps)
    ensures FinalState(s, calls, steps).d.(clock := e.at) == Apply(s.d, e).0 && FinalState(s, calls, steps).d.clock <= e.at
    ensures FinalState(s, calls, steps).locks == map[] && StepsOf(p, e.newToken, steps)
    ensures FinalState(s, calls, steps).pcs == s.pcs[p := Finished(OutcomeOf(Apply(s.d, e).1))]
  {
    hide TableInv, MemberInv, IndexInv, LinkInv, ClockInv, OrderInv, FinalState, ValidRace;
    var row := RowOfToken(s.d.rows, e.token);
    if row.Some? {
      assert HasToken(s.d.rows, row.value, e.token);
      RowAgreesWithFamily(s.d, row.value);
      steps := HolderFinishes(Next(s, calls, Lock(p)), calls, p, row.value, e);
    } else {
      steps := [];
      NoStepsLeft(Next(s, calls, Lock(p)), calls);
    }
    StepFirst(s, calls, Lock(p), steps);
    steps := [Lock(p)] + steps;
  }

  // --- What a race can do to a family ---------------------------------------------------------------------

  predicate Siblings(a: Birth, b: Birth) {
    a.row.parentId.Some? && a.row.parentId == b.row.parentId
  }

  /** Whatever the calls and their interleaving, no row ever gets two successors, and every family
      keeps exactly one unspent row. */
  lemma RacesKeepFamiliesLinear(d: Db, calls: seq<Token>, steps: seq<Step>, i: Id) returns (tip: Id)
    requires Reachable(d) && ValidRace(InitialState(d, calls), calls, steps)
    requires i in FinalState(InitialState(d, calls), calls, steps).d.rows
    ensures var d' := FinalState(InitialState(d, calls), calls, steps).d;
      && Unspent(d', d'.rows[i].familyId, tip)
      && (forall j :: Unspent(d', d'.rows[i].familyId, j) ==> j == tip)
      && (forall j, k :: j in d'.born && k in d'.born && Siblings(d'.born[j], d'.born[k]) ==> j == k)
  {
    hide Inv;
    ReachableInv(d);
    RaceKeepsInv(InitialState(d, calls), calls, steps);
    var d' := FinalState(InitialState(d, calls), calls, steps).d;
    tip := TipOf(d', i);
    forall j, k | j in d'.born && k in d'.born && Siblings(d'.born[j], d'.born[k]) ensures j == k
    {
      SameParentSameRow(d', d'.born[j].row.parentId.value, j, k);
    }
  }

  // --- One winner ---------------------------------------------------------------------------------------------

  /** Call `w` exchanged the target for its one successor; every other finished call saw reuse. */
  ghost predicate Won(s: State, target: Id, w: Call) {
    && w < |s.pcs| && s.pcs[w].Finished? && s.pcs[w].outcome.Exchanged?
    && s.pcs[w].outcome.id in s.d.born && s.d.born[s.pcs[w].outcome.id].row.parentId == Some(target)
    && forall p :: 0 <= p < |s.pcs| && p != w && s.pcs[p].Finished? ==> s.pcs[p].outcome == ReuseSeen
  }

  /** Either the contested row is still exchangeable and no call has finished, or it is spent, one call
      has won and no other call is about to. */
  ghost predicate Contest(s: State, target: Id) {
    && target in s.d.rows
    && if s.d.rows[target].usedAt.None? then
         s.d.rows[target].revokedAt.None? && forall p :: 0 <= p < |s.pcs| ==> !s.pcs[p].Finished?
       else
         exists w :: Won(s, target, w)
  }

  /** Nobody gives up, nothing else revokes the row, and every look at it comes before its expiry. */
  predicate Undisturbed(t: Step, target: Id, expiresAt: Time) {
    && !t.Abort?
    && (t.RevokeRows? ==> target !in t.ids)
    && (t.Check? ==> t.now <= expiresAt)
  }

  lemma HeldIsTarget(s: State, calls: seq<Token>, p: Call, target: Id)
    requires TableInv(s.d) && LockInv(s, calls) && p < |calls| && Busy(s.pcs[p])
    requires HasToken(s.d.rows, target, calls[p])
    ensures s.pcs[p].row.id == target && s.pcs[p].row == s.d.rows[target] && target in s.locks && s.locks[target] == p
    ensures s.pcs[p].Rotating? ==> s.d.rows[target].usedAt.None?
    ensures s.pcs[p].Sweeping? ==> s.d.rows[target].usedAt.Some?
  {
    assert HoldsRow(s, calls, p, s.pcs[p]);
    RowOfTokenUnique(s.d, s.pcs[p].row.id, calls[p]);
    RowOfTokenUnique(s.d, target, calls[p]);
  }

  /** A call that commits the contested row is the first to finish. */
  lemma CommitWins(s: State, calls: seq<Token>, t: Step, target: Id)
    requires TableInv(s.d) && LockInv(s, calls) && Enabled(s, calls, t) && t.Commit? && Contest(s, target)
    requires t.call < |calls| && HasToken(s.d.rows, target, calls[t.call])
    ensures var n := Next(s, calls, t);
      Contest(n, target) && n.d.rows[target] == s.d.rows[target].(usedAt := Some(t.now))
  {
    hide LockInv, TableInv;
    LockBasics(s, calls);
    HeldIsTarget(s, calls, t.call, target);
    InsertedIsNew(s.d, t.newId);
    assert Won(Next(s, calls, t), target, t.call);
  }

  /** Steps that leave the contested row's stamps alone, or only add a revocation to a spent row. */
  lemma OtherStepsKeepContest(s: State, calls: seq<Token>, t: Step, target: Id)
    requires TableInv(s.d) && LockInv(s, calls) && Enabled(s, calls, t) && !t.Commit? && Contest(s, target)
    requires forall p :: 0 <= p < |calls| ==> HasToken(s.d.rows, target, calls[p])
    requires Undisturbed(t, target, s.d.rows[target].expiresAt)
    ensures var n := Next(s, calls, t);
      Contest(n, target) && n.d.rows[target] == s.d.rows[target].(revokedAt := n.d.rows[target].revokedAt)
  {
    hide LockInv, TableInv;
    LockBasics(s, calls);
    if t.Lock? {
      RowOfTokenUnique(s.d, target, calls[t.call]);
    } else if t.Check? || t.Sweep? {
      HeldIsTarget(s, calls, t.call, target);
    } else if t.Login? {
      InsertedIsNew(s.d, t.newId);
    }
    if w :| Won(s, target, w) {
      assert Won(Next(s, calls, t), target, w);
    }
  }

  lemma ContestStep(s: State, calls: seq<Token>, t: Step, target: Id)
    requires TableInv(s.d) && LockInv(s, calls) && Enabled(s, calls, t) && Contest(s, target)
    requires forall p :: 0 <= p < |calls| ==> HasToken(s.d.rows, target, calls[p])
    requires Undisturbed(t, target, s.d.rows[target].expiresAt)
    ensures Contest(Next(s, calls, t), target)
    ensures Next(s, calls, t).d.rows[target].token == s.d.rows[target].token
    ensures Next(s, calls, t).d.rows[target].expiresAt == s.d.rows[target].expiresAt
  {
    hide LockInv, TableInv, Next;
    LockBasics(s, calls);
    if t.Commit? {
      CommitWins(s, calls, t, target);
    } else {
      OtherStepsKeepContest(s, calls, t, target);
    }
  }

  lemma {:induction false} ContestRun(s: State, calls: seq<Token>, steps: seq<Step>, target: Id)
    requires RaceInv(s, calls) && ValidRace(s, calls, steps) && Contest(s, target)
    requires forall p :: 0 <= p < |calls| ==> HasToken(s.d.rows, target, calls[p])
    requires forall k :: 0 <= k < |steps| ==> Undisturbed(steps[k], target, s.d.rows[target].expiresAt)
    ensures Contest(FinalState(s, calls, steps), target)
    ensures |FinalState(s, calls, steps).pcs| == |calls|
    decreases |steps|
  {
    hide Inv, LockInv, TableInv, Next, Contest;
    assert target in s.d.rows by { ContestHasTarget(s, target); }
    if steps == [] {
      LockBasics(s, calls);
    } else {
      var n := Next(s, calls, steps[0]);
      InvHasTable(s.d);
      StepKeepsTable(s, calls, steps[0]);
      StepKeepsLocks(s, calls, steps[0]);
      ContestStep(s, calls, steps[0], target);
      ContestHasTarget(n, target);
      ContestRun(n, calls, steps[1..], target);
    }
  }

  lemma ContestHasTarget(s: State, target: Id)
    requires Contest(s, target)
    ensures target in s.d.rows
  {
  }

  lemma InvHasTable(d: Db)
    requires Inv(d)
    ensures TableInv(d)
  {
  }

  /** Of any number of calls presenting one live token, in any interleaving that runs all of them to the
      end, exactly one exchanges it and every other one reports reuse. */
  lemma ExactlyOneWins(d: Db, calls: seq<Token>, steps: seq<Step>, target: Id) returns (w: Call)
    requires Reachable(d) && target in d.rows && d.rows[target].usedAt.None? && d.rows[target].revokedAt.None?
    requires 0 < |calls| && forall p :: 0 <= p < |calls| ==> calls[p] == d.rows[target].token
    requires ValidRace(InitialState(d, calls), calls, steps)
    requires forall k :: 0 <= k < |steps| ==> Undisturbed(steps[k], target, d.rows[target].expiresAt)
    requires forall p :: 0 <= p < |calls| ==>
      p < |FinalState(InitialState(d, calls), calls, steps).pcs| &&
      FinalState(InitialState(d, calls), calls, steps).pcs[p].Finished?
    ensures var s := FinalState(InitialState(d, calls), calls, steps);
      && |s.pcs| == |calls| && w < |calls|
      && (forall p :: 0 <= p < |calls| && p != w ==> s.pcs[p] == Finished(ReuseSeen))
      && s.pcs[w].Finished? && s.pcs[w].outcome.Exchanged?
      && s.pcs[w].outcome.id in s.d.born && s.d.born[s.pcs[w].outcome.id].row.parentId == Some(target)
      && target in s.d.rows && s.d.rows[target].usedAt.Some?
  {
    hide Inv, Next, FinalState;
    ReachableInv(d);
    var s0 := InitialState(d, calls);
    ContestRun(s0, calls, steps, target);
    var s := FinalState(s0, calls, steps);
    assert s.pcs[0].Finished?;
    w :| Won(s, target, w);
  }
}
