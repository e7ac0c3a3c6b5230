/** What disabling a user does to requests already under way: the handlers read disabled_at in one store call and
    issue or revoke sessions in another (internal/httpapi/auth.go, otp.go, oauth.go and sessions.go). */
module DisablingRace {
  import opened Prelude
  import opened Sessions
  import opened SessionRuns

  type Call = nat

  /** A request between two of its store calls. */
  datatype Pc =
    /** A sign-in that has authenticated its user, and is about to read the user's row. */
    | Arriving(userId: UserId, clientId: ClientId)
    /** The row it read, or has just made, was not disabled: it is about to open a session. */
    | Passed(userId: UserId, clientId: ClientId)
    /** handleRefresh, before Rotate. */
    | Presenting(token: Token)
    /** It has been issued a row, and is about to read the user's. */
    | Exchanged(userId: UserId, row: Id)
    /** It has found the user disabled, and is about to call RevokeAllForUser. */
    | Revoking(userId: UserId, row: Id)
    | Through

  /** `openers` are the sign-ins that opened the sessions. */
  datatype World = World(d: Db, disabled: set<UserId>, pcs: map<Call, Pc>, openers: map<Id, Call>)

  datatype Step =
    | Arrive(call: Call, pc: Pc)
    /** A request reads the user's disabled_at. */
    | Look(call: Call)
    | Open(call: Call, id: Id, newToken: Token, meta: Meta, at: Time)
    | Exchange(call: Call, id: Id, newToken: Token, meta: Meta, at: Time)
    | RevokeAll(call: Call, at: Time)
    | SetDisabled(userId: UserId, on: bool)
    /** Logouts, and the pruning job. */
    | Other(event: Event)

  /** What a step does to the sessions table. */
  function Transaction(w: World, t: Step): Option<Event> {
    match t
    case Open(p, id, tok, meta, at) =>
      if p in w.pcs && w.pcs[p].Passed? then Some(Create(w.pcs[p].userId, w.pcs[p].clientId, id, tok, meta, at)) else None
    case Exchange(p, id, tok, meta, at) =>
      if p in w.pcs && w.pcs[p].Presenting? then Some(Event.Rotate(w.pcs[p].token, id, tok, meta, at)) else None
    case RevokeAll(p, at) =>
      if p in w.pcs && w.pcs[p].Revoking? then Some(RevokeAllForUser(w.pcs[p].userId, at)) else None
    case Other(e) => Some(e)
    case _ => None
  }

  ghost predicate Enabled(w: World, t: Step) {
    && (Transaction(w, t).Some? ==> Sessions.Enabled(w.d, Transaction(w, t).value))
    && match t
       // A registration passes with the row it makes.
       case Arrive(p, pc) => p !in w.pcs && (pc.Arriving? || pc.Presenting? || (pc.Passed? && pc.userId !in w.disabled))
       case Look(p) => p in w.pcs && (w.pcs[p].Arriving? || w.pcs[p].Exchanged?)
       case SetDisabled(_, _) => true
       case Other(e) => !e.Create? && !e.Rotate?
       case _ => Transaction(w, t).Some?
  }

  ghost function PcAfter(w: World, t: Step): Pc {
    match t
    case Arrive(_, pc) => pc
    case Look(p) =>
      if p !in w.pcs then Through
      else
        (match w.pcs[p]
         case Arriving(u, c) => if u in w.disabled then Through else Passed(u, c)
         case Exchanged(u, row) => if u in w.disabled then Revoking(u, row) else Through
         case pc => pc)
    case Exchange(p, _, _, _, _) =>
      if Transaction(w, t).None? then Through
      else
        (match Sessions.Apply(w.d, Transaction(w, t).value).1
         case Issued(s) => Exchanged(s.userId, s.id)
         case _ => Through)
    case _ => Through
  }

  ghost function Next(w: World, t: Step): World {
    World(
      if Transaction(w, t).Some? then Sessions.Apply(w.d, Transaction(w, t).value).0 else w.d,
      if !t.SetDisabled? then w.disabled else if t.on then w.disabled + {t.userId} else w.disabled - {t.userId},
      if t.SetDisabled? || t.Other? then w.pcs else w.pcs[t.call := PcAfter(w, t)],
      if t.Open? then w.openers[t.id := t.call] else w.openers)
  }

  ghost predicate ValidRun(w: World, steps: seq<Step>)
    decreases |steps|
  {
    steps == [] || (Enabled(w, steps[0]) && ValidRun(Next(w, steps[0]), steps[1..]))
  }

  ghost function Final(w: World, steps: seq<Step>): World
    decreases |steps|
  {
    if steps == [] then w else Final(Next(w, steps[0]), steps[1..])
  }

  predicate StaysDisabled(steps: seq<Step>, u: UserId) {
    forall k :: 0 <= k < |steps| && steps[k].SetDisabled? && steps[k].userId == u ==> steps[k].on
  }

  ghost predicate LiveRow(d: Db, u: UserId, i: Id) {
    i in d.rows && d.rows[i].userId == u && d.rows[i].revokedAt.None?
  }

  /** A sign-in of the user that has read disabled_at before it was set. */
  predicate PastCheck(w: World, u: UserId, p: Call) {
    p in w.pcs && w.pcs[p].Passed? && w.pcs[p].userId == u
  }

  /** A refresh was issued the row, and has yet to look at the user, or to revoke. */
  predicate Holds(w: World, p: Call, i: Id) {
    p in w.pcs && (w.pcs[p].Exchanged? || w.pcs[p].Revoking?) && w.pcs[p].row == i
  }

  /** A refresh under way was issued a row of its user's. */
  ghost predicate HoldersOwn(w: World) {
    forall p :: p in w.pcs && (w.pcs[p].Exchanged? || w.pcs[p].Revoking?) ==>
      w.pcs[p].row in w.d.born && w.d.born[w.pcs[p].row].row.userId == w.pcs[p].userId
  }

  ghost predicate WorldOk(w: World) {
    Inv(w.d) && w.openers.Keys <= w.d.born.Keys && HoldersOwn(w)
  }

  lemma {:induction false} RunKeepsOk(w: World, steps: seq<Step>)
    requires WorldOk(w) && ValidRun(w, steps)
    ensures WorldOk(Final(w, steps))
    decreases |steps|
  {
    hide WorldOk, Enabled, Next;
    if steps == [] {
    } else {
      StepKeepsOk(w, steps[0]);
      RunKeepsOk(Next(w, steps[0]), steps[1..]);
    }
  }

  lemma StepKeepsOk(w: World, t: Step)
    requires WorldOk(w) && Enabled(w, t)
    ensures WorldOk(Next(w, t))
  {
    hide TableInv, MemberInv, IndexInv, LinkInv, ClockInv, OrderInv, Sessions.Apply, Next, HoldersOwn;
    StepKeepsTable(w, t);
    StepKeepsHolders(w, t);
  }

  lemma StepKeepsTable(w: World, t: Step)
    requires WorldOk(w) && Enabled(w, t)
    ensures Inv(Next(w, t).d) && Next(w, t).openers.Keys <= Next(w, t).d.born.Keys
  {
    hide Inv, HoldersOwn, ApplyRotate;
    if Transaction(w, t).Some? {
      StepKeepsInv(w.d, Transaction(w, t).value) by { hide Sessions.Apply; }
      BornStay(w.d, Transaction(w, t).value);
    }
  }

  lemma BornStay(d: Db, e: Event)
    requires Sessions.Enabled(d, e)
    ensures forall i :: i in d.born ==> i in Sessions.Apply(d, e).0.born && Sessions.Apply(d, e).0.born[i] == d.born[i]
    ensures Sessions.Apply(d, e).1.Issued? ==>
      var s := Sessions.Apply(d, e).1.session; s.id in Sessions.Apply(d, e).0.born && Sessions.Apply(d, e).0.born[s.id].row.userId == s.userId
  {
  }

  lemma StepKeepsHolders(w: World, t: Step)
    requires WorldOk(w) && Enabled(w, t)
    ensures HoldersOwn(Next(w, t))
  {
    hide Inv, Sessions.Apply;
    if Transaction(w, t).Some? {
      BornStay(w.d, Transaction(w, t).value);
    }
  }

  /** The rows a transaction adds to the user's live ones. */
  lemma Gains(d: Db, e: Event, u: UserId, i: Id)
    requires TableInv(d) && Sessions.Enabled(d, e) && LiveRow(Sessions.Apply(d, e).0, u, i) && !LiveRow(d, u, i)
    ensures (e.Create? && e.id == i && e.userId == u) || (e.Rotate? && Sessions.Apply(d, e).1.Issued? && e.id == i)
    ensures e.Rotate? && Sessions.Apply(d, e).1.Issued? ==>
              Sessions.Apply(d, e).1.session.id == i && Sessions.Apply(d, e).1.session.userId == u
  {
    if e.Rotate? {
      RotateGains(d, e, u, i);
    } else if e.Create? {
      InsertedGains(d, FreshRow(e.id, e.userId, e.clientId, e.id, None, e.newToken, e.meta, e.at), e.at, u, i);
    }
  }

  lemma InsertedGains(d: Db, s: Session, now: Time, u: UserId, i: Id)
    requires LiveRow(Inserted(d, s, now), u, i) && !LiveRow(d, u, i)
    ensures s.id == i && s.userId == u
  {
  }

  lemma RotateGains(d: Db, e: Event, u: UserId, i: Id)
    requires TableInv(d) && e.Rotate? && LiveRow(ApplyRotate(d, e).0, u, i) && !LiveRow(d, u, i)
    ensures ApplyRotate(d, e).1.Issued? && e.id == i
    ensures ApplyRotate(d, e).1.session.id == i && ApplyRotate(d, e).1.session.userId == u
  {
    hide TableInv, Inserted;
    if j: Id :| RowOfToken(d.rows, e.token) == Some(j) {
      assert HasToken(d.rows, j, e.token);
      if Rotatable(d.rows[j], e.at) {
        InsertedGains(Spent(d, j, e.at), Successor(d.rows[j], e), e.at, u, i);
      }
    }
  }

  lemma RevokedAll(d: Db, u: UserId, at: Time, i: Id)
    ensures !LiveRow(Sessions.Apply(d, RevokeAllForUser(u, at)).0, u, i)
  {
  }

  /** Where a live row of the user may come from: it was live, or a sign-in past its check opened it, or a refresh
      that has yet to look or to revoke was issued it. */
  ghost predicate Explained(start: World, u: UserId, w: World, i: Id) {
    LiveRow(start.d, u, i) || (i in w.openers && PastCheck(start, u, w.openers[i])) || exists p :: Holds(w, p, i)
  }

  ghost predicate Followed(start: World, u: UserId, w: World) {
    && u in w.disabled
    && (forall i :: LiveRow(w.d, u, i) ==> Explained(start, u, w, i))
    && (forall p :: PastCheck(w, u, p) ==> PastCheck(start, u, p))
  }

  lemma RowFollowed(start: World, u: UserId, w: World, t: Step, i: Id)
    requires WorldOk(w) && Enabled(w, t) && Followed(start, u, w) && (t.SetDisabled? && t.userId == u ==> t.on)
    requires LiveRow(Next(w, t).d, u, i)
    ensures Explained(start, u, Next(w, t), i)
  {
    hide TableInv, MemberInv, IndexInv, LinkInv, ClockInv, OrderInv, Sessions.Apply;
    var n := Next(w, t);
    if !LiveRow(w.d, u, i) {
      Gains(w.d, Transaction(w, t).value, u, i);
      if t.Exchange? {
        assert Holds(n, t.call, i);
      }
    } else if !LiveRow(start.d, u, i) {
      if p :| Holds(w, p, i) {
        HoldersUser(w, u, p, i);
        if t.RevokeAll? && t.call == p {
          RevokedAll(w.d, u, t.at, i);
        } else {
          assert Holds(n, p, i);
        }
      } else {
        StaysOpened(w, t, i);
      }
    }
  }

  lemma HoldersUser(w: World, u: UserId, p: Call, i: Id)
    requires WorldOk(w) && Holds(w, p, i) && LiveRow(w.d, u, i)
    ensures w.pcs[p].userId == u
  {
    hide MemberInv, IndexInv, LinkInv, ClockInv, OrderInv;
  }

  lemma StaysOpened(w: World, t: Step, i: Id)
    requires WorldOk(w) && Enabled(w, t) && i in w.openers
    ensures i in Next(w, t).openers && Next(w, t).openers[i] == w.openers[i]
  {
    hide Inv;
  }

  lemma StepFollowed(start: World, u: UserId, w: World, t: Step)
    requires WorldOk(w) && Enabled(w, t) && Followed(start, u, w) && (t.SetDisabled? && t.userId == u ==> t.on)
    ensures Followed(start, u, Next(w, t))
  {
    hide Inv, Sessions.Apply, Explained, LiveRow, WorldOk;
    var n := Next(w, t);
    forall i | LiveRow(n.d, u, i) ensures Explained(start, u, n, i) {
      RowFollowed(start, u, w, t, i);
    }
  }

  lemma {:induction false} RunFollowed(start: World, u: UserId, w: World, steps: seq<Step>)
    requires WorldOk(w) && ValidRun(w, steps) && Followed(start, u, w) && StaysDisabled(steps, u)
    ensures Followed(start, u, Final(w, steps))
    decreases |steps|
  {
    hide WorldOk, Enabled, Next, Followed;
    if steps == [] {
    } else {
      StepKeepsOk(w, steps[0]);
      StepFollowed(start, u, w, steps[0]);
      RunFollowed(start, u, Next(w, steps[0]), steps[1..]);
    }
  }

  /** However requests interleave, while a user is disabled every live session of the user was live at the beginning,
      or was opened by a sign-in that was past its check then, or is in the hands of a refresh that has yet to
      notice and will revoke it. */
  lemma LiveWhileDisabled(w: World, u: UserId, steps: seq<Step>, i: Id)
    requires WorldOk(w) && u in w.disabled && ValidRun(w, steps) && StaysDisabled(steps, u)
    requires LiveRow(Final(w, steps).d, u, i)
    ensures Explained(w, u, Final(w, steps), i)
  {
    hide WorldOk;
    RunFollowed(w, u, w, steps);
  }

  /** No run ends with a live session of the user that was not live before, other than in the hands of such a
      refresh. */
  ghost predicate GainsNothing(w: World, u: UserId) {
    forall steps, i :: ValidRun(w, steps) && StaysDisabled(steps, u) && LiveRow(Final(w, steps).d, u, i) ==>
      LiveRow(w.d, u, i) || exists p :: Holds(Final(w, steps), p, i)
  }

  /** A sign-in past its check opens a session for the disabled user. */
  lemma OpensForDisabled(w: World, u: UserId, p: Call) returns (steps: seq<Step>, i: Id)
    requires WorldOk(w) && PastCheck(w, u, p)
    ensures ValidRun(w, steps) && StaysDisabled(steps, u) && LiveRow(Final(w, steps).d, u, i)
    ensures !LiveRow(w.d, u, i) && forall q :: !Holds(Final(w, steps), q, i)
  {
    hide MemberInv, IndexInv, LinkInv, ClockInv, OrderInv;
    i := AboveAll(w.d.born.Keys + w.d.families.Keys + w.d.rows.Keys);
    var tok := AboveAll(w.d.minted.Keys);
    var t := Open(p, i, tok, Meta("", ""), w.d.clock);
    var n := Next(w, t);
    assert ValidRun(n, []) && Final(n, []) == n;
    assert [t][1..] == [];
    steps := [t];
    assert Final(w, steps) == n;
  }

  /** Disabling a user keeps the user from gaining sessions, over every run and interleaving, if and only if no
      sign-in of the user is past its check at that moment. */
  lemma DisablingHoldsExactly(w: World, u: UserId)
    requires WorldOk(w) && u in w.disabled
    ensures GainsNothing(w, u) <==> forall p :: !PastCheck(w, u, p)
  {
    hide WorldOk, ValidRun, Final, LiveRow, Holds;
    if p :| PastCheck(w, u, p) {
      var steps, i := OpensForDisabled(w, u, p);
    } else {
      forall steps, i | ValidRun(w, steps) && StaysDisabled(steps, u) && LiveRow(Final(w, steps).d, u, i)
        ensures LiveRow(w.d, u, i) || exists p :: Holds(Final(w, steps), p, i)
      {
        LiveWhileDisabled(w, u, steps, i);
      }
    }
  }
}
