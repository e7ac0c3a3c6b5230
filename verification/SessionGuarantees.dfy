/** What callers of the sessions table rely on, in every reachable state and over every run. */
module SessionGuarantees {
  import opened Prelude
  import opened Sessions
  import opened SessionRuns

  // --- Outcomes of a rotation -----------------------------------------------------------------

  /** Which reply a rotation gets is decided by the one row holding the token: exchanged exactly
      when it is unspent, unrevoked and unexpired; reuse exactly when it is spent. The new row
      carries the login over and names the exchanged row as its parent. */
  lemma RotationOutcome(d: Db, e: Event, i: Id)
    requires Reachable(d) && Enabled(d, e) && e.Rotate? && HasToken(d.rows, i, e.token)
    ensures Apply(d, e).1.Issued? <==> Rotatable(d.rows[i], e.at)
    ensures Apply(d, e).1 == TokenReuse <==> d.rows[i].usedAt.Some?
    ensures Apply(d, e).1.Issued? ==>
      var s := Apply(d, e).1.session;
      && s == Successor(d.rows[i], e)
      && Apply(d, e).0.rows == d.rows[i := d.rows[i].(usedAt := Some(e.at))][e.id := s]
  {
    hide TableInv, MemberInv, IndexInv, LinkInv, ClockInv, OrderInv;
    ReachableInv(d);
    RowOfTokenUnique(d, i, e.token);
  }

  /** A token no row holds is not found, and nothing changes. */
  lemma UnknownTokenNotFound(d: Db, e: Event)
    requires e.Rotate? && forall i :: !HasToken(d.rows, i, e.token)
    ensures Apply(d, e).1 == NotFound && Apply(d, e).0.rows == d.rows
  {
  }

  /** What history says of a presented token: not found exactly when it was never minted, or its row has been
      pruned, or the row is unspent and revoked or expired. Only a spent row is ever reported as reuse. */
  lemma NotFoundExactly(d: Db, e: Event)
    requires Reachable(d) && Enabled(d, e) && e.Rotate?
    ensures Apply(d, e).1 == NotFound <==>
      forall i :: i in d.born && d.born[i].row.token == e.token ==>
        i !in d.rows || (d.rows[i].usedAt.None? && (d.rows[i].revokedAt.Some? || d.rows[i].expiresAt < e.at))
    ensures Apply(d, e).1 == NotFound ==> Apply(d, e).0.rows == d.rows
  {
    hide TableInv, MemberInv, IndexInv, LinkInv, ClockInv, OrderInv;
    ReachableInv(d);
    if i :| HasToken(d.rows, i, e.token) {
      RotationOutcome(d, e, i);
      HolderOfToken(d, i);
      forall j | j in d.born && d.born[j].row.token == e.token ensures i == j {
        TokenOwner(d, j, i, e.token);
      }
    } else {
      UnknownTokenNotFound(d, e);
      forall i | i in d.born && d.born[i].row.token == e.token ensures i !in d.rows {
        assert !HasToken(d.rows, i, e.token);
        if i in d.rows {
          HolderOfToken(d, i);
        }
      }
    }
  }

  lemma HolderOfToken(d: Db, i: Id)
    requires TableInv(d) && i in d.rows
    ensures i in d.born && d.born[i].row.token == d.rows[i].token
  {
  }

  lemma TokenOwner(d: Db, i: Id, j: Id, tok: Token)
    requires TableInv(d) && i in d.born && d.born[i].row.token == tok && HasToken(d.rows, j, tok)
    ensures i == j
  {
  }

  /** No token ever minted for a dead family is exchanged again, at any later point of any run. */
  lemma DeadFamilyNeverRotates(d: Db, f: Id, i: Id, evs: seq<Event>, e: Event)
    requires Reachable(d) && Dead(d, f) && i in d.born && d.born[i].row.familyId == f
    requires ValidRun(d, evs) && Enabled(Final(d, evs), e) && e.Rotate? && e.token == d.born[i].row.token
    ensures !Apply(Final(d, evs), e).1.Issued?
  {
    hide TableInv, MemberInv, IndexInv, LinkInv, ClockInv, OrderInv, Evolves;
    var d' := Final(d, evs);
    ReachableInv(d);
    RunKeepsInv(d, evs);
    DeadFamilyStaysDead(d, f, evs);
    StampsAreWriteOnce(d, evs);
    BirthKept(d, d', i);
    if Apply(d', e).1.Issued? {
      var j := RowOfToken(d'.rows, e.token).value;
      assert HasToken(d'.rows, j, e.token);
      TokenOwner(d', i, j, e.token);
      RowAgreesWithFamily(d', j);
    }
  }

  lemma BirthKept(d: Db, d': Db, i: Id)
    requires Evolves(d, d') && i in d.born
    ensures i in d'.born && d'.born[i] == d.born[i]
    ensures i in d'.rows ==> i in d.rows && StampsKept(d.rows[i], d'.rows[i])
  {
  }

  // --- Pruning -----------------------------------------------------------------------------------

  /** Along a chain, if a row is still in the table then so is every later one. */
  lemma LaterRowsRemain(d: Db, f: Id, k: nat, l: nat)
    requires TableInv(d) && IndexInv(d) && OrderInv(d) && f in d.families
    requires k <= l < |d.families[f].chain| && d.families[f].chain[k] in d.rows
    ensures d.families[f].chain[l] in d.rows
  {
    var chain := d.families[f].chain;
    assert ChainOk(d, f, chain);
    assert Precedes(d.born[chain[k]], d.born[chain[l]]);
  }

  /** What pruning has left of a chain is one unbroken run of its newest rows. */
  lemma PruningRemovesAPrefix(d: Db, f: Id) returns (cut: nat)
    requires Reachable(d) && f in d.families
    ensures cut <= |d.families[f].chain|
    ensures forall k :: 0 <= k < |d.families[f].chain| ==> (d.families[f].chain[k] in d.rows <==> cut <= k)
  {
    hide TableInv, MemberInv, IndexInv, LinkInv, ClockInv, OrderInv;
    ReachableInv(d);
    var chain := d.families[f].chain;
    cut := 0;
    while cut < |chain| && chain[cut] !in d.rows
      invariant cut <= |chain|
      invariant forall k :: 0 <= k < cut ==> chain[k] !in d.rows
    {
      cut := cut + 1;
    }
    forall k | cut <= k < |chain| ensures chain[k] in d.rows {
      LaterRowsRemain(d, f, cut, k);
    }
  }

  /** Pruning never removes a row that could still be exchanged, now or later. */
  lemma PruningSparesRotatable(d: Db, grace: nat, at: Time, i: Id, now: Time)
    requires Enabled(d, Prune(grace, at)) && i in d.rows && at <= now && Rotatable(d.rows[i], now)
    ensures i in Apply(d, Prune(grace, at)).0.rows
    ensures Apply(d, Prune(grace, at)).0.rows[i] == d.rows[i]
  {
  }

  predicate GraceAtLeast(evs: seq<Event>, grace: nat) {
    forall k :: 0 <= k < |evs| && evs[k].Prune? ==> grace <= evs[k].grace
  }

  lemma CutoffStep(d: Db, e: Event, grace: nat)
    requires Enabled(d, e) && (e.Prune? ==> grace <= e.grace)
    ensures Apply(d, e).0.cutoff <= Max(d.cutoff, Apply(d, e).0.clock - grace)
  {
  }

  lemma {:induction false} CutoffBound(d: Db, evs: seq<Event>, grace: nat)
    requires ValidRun(d, evs) && GraceAtLeast(evs, grace)
    ensures Final(d, evs).cutoff <= Max(d.cutoff, Final(d, evs).clock - grace)
    decreases |evs|
  {
    hide Apply;
    if evs == [] {
    } else {
      var d' := Apply(d, evs[0]).0;
      CutoffStep(d, evs[0], grace);
      CutoffBound(d', evs[1..], grace);
      StampsAreWriteOnce(d', evs[1..]);
    }
  }

  lemma KeptByCutoff(d: Db, i: Id)
    requires TableInv(d) && i in d.born
    ensures i in d.rows <==> d.cutoff <= d.born[i].row.expiresAt
    ensures i in d.rows ==> SameBirth(d.rows[i], d.born[i].row)
  {
  }

  lemma SpentStaysSpent(d: Db, d': Db, i: Id)
    requires TableInv(d') && LinkInv(d') && MemberInv(d') && Evolves(d, d') && i in d.rows && i in d.born
    requires d.rows[i].usedAt.Some? && i in d'.rows
    ensures d'.rows[i].usedAt.Some?
  {
  }

  /** Reuse detection outlives pruning: presenting a spent token again at any moment up to its
      expiry plus the grace still reports reuse and still revokes the family. */
  lemma ReplayStillTrips(d: Db, i: Id, evs: seq<Event>, grace: nat, e: Event)
    requires Reachable(d) && i in d.rows && d.rows[i].usedAt.Some?
    requires ValidRun(d, evs) && GraceAtLeast(evs, grace)
    requires Enabled(Final(d, evs), e) && e.Rotate? && e.token == d.rows[i].token
    requires e.at <= d.rows[i].expiresAt + grace
    ensures Apply(Final(d, evs), e).1 == TokenReuse
    ensures Dead(Apply(Final(d, evs), e).0, d.rows[i].familyId)
  {
    hide TableInv, MemberInv, IndexInv, LinkInv, ClockInv, OrderInv, Evolves;
    var d' := Final(d, evs);
    ReachableInv(d);
    RunKeepsInv(d, evs);
    StampsAreWriteOnce(d, evs);
    CutoffBound(d, evs, grace);
    RowAgreesWithFamily(d, i);
    BirthKept(d, d', i);
    KeptByCutoff(d, i);
    KeptByCutoff(d', i);
    SpentStaysSpent(d, d', i);
    ReachableRun(d, evs);
    ReplayKills(d', e, i);
  }

  lemma {:induction false} ValidConcat(d: Db, xs: seq<Event>, ys: seq<Event>)
    requires ValidRun(d, xs) && ValidRun(Final(d, xs), ys)
    ensures ValidRun(d, xs + ys) && Final(d, xs + ys) == Final(Final(d, xs), ys)
    decreases |xs|
  {
    hide Apply, Enabled;
    if xs == [] {
      assert xs + ys == ys;
    } else {
      ValidConcat(Apply(d, xs[0]).0, xs[1..], ys);
      assert (xs + ys)[1..] == xs[1..] + ys;
    }
  }

  lemma ReachableRun(d: Db, evs: seq<Event>)
    requires Reachable(d) && ValidRun(d, evs)
    ensures Reachable(Final(d, evs))
  {
    var now, xs :| ValidRun(EmptyDb(now), xs) && Final(EmptyDb(now), xs) == d;
    ValidConcat(EmptyDb(now), xs, evs);
  }
}
