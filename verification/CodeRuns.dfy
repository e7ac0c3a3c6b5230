/** What every run of the otp_codes table guarantees, and the store whose methods change it. */
module CodeRuns {
  import opened Prelude
  import opened Codes

  ghost predicate ValidRun(d: Db, evs: seq<Event>)
    decreases |evs|
  {
    evs == [] || (Enabled(d, evs[0]) && ValidRun(Apply(d, evs[0]).0, evs[1..]))
  }

  /** IssueCode transactions may overlap. */
  ghost predicate PossibleRun(d: Db, evs: seq<Event>)
    decreases |evs|
  {
    evs == [] || (Possible(d, evs[0]) && PossibleRun(Apply(d, evs[0]).0, evs[1..]))
  }

  ghost function Final(d: Db, evs: seq<Event>): Db
    decreases |evs|
  {
    if evs == [] then d else Final(Apply(d, evs[0]).0, evs[1..])
  }

  ghost function SimpleFinal(m: Slots, evs: seq<Event>): Slots
    decreases |evs|
  {
    if evs == [] then m else SimpleFinal(Simple(m, evs[0]).0, evs[1..])
  }

  /** What callers see: the replies, without those of the pruning job. */
  ghost function Replies(d: Db, evs: seq<Event>): seq<Reply>
    decreases |evs|
  {
    if evs == [] then []
    else (if evs[0].Prune? then [] else [Apply(d, evs[0]).1]) + Replies(Apply(d, evs[0]).0, evs[1..])
  }

  ghost function SimpleReplies(m: Slots, evs: seq<Event>): seq<Reply>
    decreases |evs|
  {
    if evs == [] then []
    else (if evs[0].Prune? then [] else [Simple(m, evs[0]).1]) + SimpleReplies(Simple(m, evs[0]).0, evs[1..])
  }

  function NoPrunes(evs: seq<Event>): seq<Event> {
    if evs == [] then []
    else (if evs[0].Prune? then [] else [evs[0]]) + NoPrunes(evs[1..])
  }

  ghost predicate Reachable(d: Db) {
    exists now: Time, evs: seq<Event> :: ValidRun(EmptyDb(now), evs) && Final(EmptyDb(now), evs) == d
  }

  /** The table behaves as the map does, for every run. */
  lemma {:induction false} RunRefines(d: Db, m: Slots, evs: seq<Event>)
    requires Refines(d, m) && ValidRun(d, evs)
    ensures Refines(Final(d, evs), SimpleFinal(m, evs))
    ensures Replies(d, evs) == SimpleReplies(m, evs)
    decreases |evs|
  {
    hide Refines, Apply, Simple;
    if evs == [] {
    } else {
      StepRefines(d, m, evs[0]);
      RunRefines(Apply(d, evs[0]).0, Simple(m, evs[0]).0, evs[1..]);
    }
  }

  lemma EmptyRefines(now: Time)
    ensures Refines(EmptyDb(now), map[])
  {
  }

  lemma ReachableRefines(d: Db) returns (m: Slots)
    requires Reachable(d)
    ensures Refines(d, m)
  {
    var now, evs :| ValidRun(EmptyDb(now), evs) && Final(EmptyDb(now), evs) == d;
    EmptyRefines(now);
    RunRefines(EmptyDb(now), map[], evs);
    m := SimpleFinal(map[], evs);
  }

  // --- Pruning is invisible ---------------------------------------------------------------------

  lemma {:induction false} SimpleIgnoresPrunes(m: Slots, evs: seq<Event>)
    ensures SimpleReplies(m, evs) == SimpleReplies(m, NoPrunes(evs))
    decreases |evs|
  {
    if evs == [] {
    } else {
      SimpleIgnoresPrunes(Simple(m, evs[0]).0, evs[1..]);
      if evs[0].Prune? {
        assert NoPrunes(evs) == NoPrunes(evs[1..]);
      } else {
        assert NoPrunes(evs)[0] == evs[0] && NoPrunes(evs)[1..] == NoPrunes(evs[1..]);
      }
    }
  }

  ghost predicate SameMinted(d: Db, d': Db) {
    d.born == d'.born && d.links == d'.links && d'.clock <= d.clock
  }

  lemma StepSameMinted(d: Db, d': Db, e: Event)
    requires SameMinted(d, d') && Enabled(d, e)
    ensures Enabled(d', e) && SameMinted(Apply(d, e).0, Apply(d', e).0)
    ensures e.Prune? ==> SameMinted(Apply(d, e).0, d')
  {
  }

  lemma {:induction false} NoPrunesValid(d: Db, d': Db, evs: seq<Event>)
    requires SameMinted(d, d') && ValidRun(d, evs)
    ensures ValidRun(d', NoPrunes(evs))
    decreases |evs|
  {
    hide Apply, SameMinted, Enabled;
    if evs == [] {
    } else {
      StepSameMinted(d, d', evs[0]);
      if evs[0].Prune? {
        NoPrunesValid(Apply(d, evs[0]).0, d', evs[1..]);
        assert NoPrunes(evs) == NoPrunes(evs[1..]);
      } else {
        NoPrunesValid(Apply(d, evs[0]).0, Apply(d', evs[0]).0, evs[1..]);
        assert NoPrunes(evs)[0] == evs[0] && NoPrunes(evs)[1..] == NoPrunes(evs[1..]);
      }
    }
  }

  /** Running the pruning job at any points of any run, with any grace, changes no caller's reply. */
  lemma PruningIsInvisible(d: Db, evs: seq<Event>)
    requires Reachable(d) && ValidRun(d, evs)
    ensures ValidRun(d, NoPrunes(evs))
    ensures Replies(d, evs) == Replies(d, NoPrunes(evs))
  {
    var m := ReachableRefines(d);
    NoPrunesValid(d, d, evs);
    RunRefines(d, m, evs);
    RunRefines(d, m, NoPrunes(evs));
    SimpleIgnoresPrunes(m, evs);
  }

  ghost predicate RowsBorn(d: Db) {
    d.rows.Keys <= d.born
  }

  // --- One current code per key, five guesses per code ----------------------------------------------

  /** ORDER BY and LIMIT 1 never choose: a key has at most one outstanding row. */
  lemma AtMostOneOutstanding(d: Db, k: Key, i: Id, j: Id)
    requires Reachable(d) && Outstanding(d.rows, k, i) && Outstanding(d.rows, k, j)
    ensures i == j && Current(d.rows, k) == Some(i)
  {
    var m := ReachableRefines(d);
    CurrentIsSlot(d, m, k);
  }

  /** Which overlap costs it: issuing leaves one outstanding row for its key if and only if the superseding
      UPDATE missed no outstanding row of the key. */
  lemma IssueLeavesOneExactly(d: Db, e: Event)
    requires RowsBorn(d) && Possible(d, e) && e.Issue?
    ensures (forall i :: Outstanding(Apply(d, e).0.rows, e.key, i) ==> i == e.id) <==>
            (forall i :: i in e.missed ==> !Outstanding(d.rows, e.key, i))
  {
    var n := Apply(d, e).0.rows;
    if forall i :: Outstanding(n, e.key, i) ==> i == e.id {
      forall i | i in e.missed ensures !Outstanding(d.rows, e.key, i) {
        assert Outstanding(d.rows, e.key, i) ==> Outstanding(n, e.key, i);
      }
    }
  }

  /** Two login codes asked for at once, the second a moment after the first: its UPDATE misses the first row, and
      both codes are redeemed, one after the other. */
  lemma OverlappingIssuesLeaveTwo(k: Key, a: string, b: string, now: Time)
    requires !Emailed(k.purpose)
    ensures var evs := [Issue(k, a, MINUTE, 0, {}, now), Issue(k, b, MINUTE, 1, {0}, now + 1), Guess(k, b, now + 2), Guess(k, a, now + 3)];
      PossibleRun(EmptyDb(now), evs) && Replies(EmptyDb(now), evs) == [Issued, Issued, Accepted, Accepted]
  {
    hide Apply, Possible;
    var e1, e2, e3, e4 := Issue(k, a, MINUTE, 0, {}, now), Issue(k, b, MINUTE, 1, {0}, now + 1), Guess(k, b, now + 2), Guess(k, a, now + 3);
    var d0 := EmptyDb(now);
    var d1 := Apply(d0, e1).0;
    var d2 := TwoIssued(k, a, b, now);
    AcceptsNewest(d2, e3, 1);
    var d3 := Apply(d2, e3).0;
    AcceptsNewest(d3, e4, 0);
    var d4 := Apply(d3, e4).0;
    assert PossibleRun(d4, []) && Replies(d4, []) == [];
    RunFirst(d3, e4, []);
    RunFirst(d2, e3, [e4]);
    RunFirst(d1, e2, [e3, e4]);
    RunFirst(d0, e1, [e2, e3, e4]);
  }

  lemma TwoIssued(k: Key, a: string, b: string, now: Time) returns (d: Db)
    requires !Emailed(k.purpose)
    ensures Possible(EmptyDb(now), Issue(k, a, MINUTE, 0, {}, now))
    ensures Possible(Apply(EmptyDb(now), Issue(k, a, MINUTE, 0, {}, now)).0, Issue(k, b, MINUTE, 1, {0}, now + 1))
    ensures d == Apply(Apply(EmptyDb(now), Issue(k, a, MINUTE, 0, {}, now)).0, Issue(k, b, MINUTE, 1, {0}, now + 1)).0
    ensures Apply(EmptyDb(now), Issue(k, a, MINUTE, 0, {}, now)).1 == Issued
    ensures Apply(Apply(EmptyDb(now), Issue(k, a, MINUTE, 0, {}, now)).0, Issue(k, b, MINUTE, 1, {0}, now + 1)).1 == Issued
    ensures d.rows == map[0 := Code(k, a, 0, now + MINUTE, None, now), 1 := Code(k, b, 0, now + 1 + MINUTE, None, now + 1)] && d.clock == now + 1
  {
    d := Apply(Apply(EmptyDb(now), Issue(k, a, MINUTE, 0, {}, now)).0, Issue(k, b, MINUTE, 1, {0}, now + 1)).0;
  }

  /** A guess at the newest outstanding code of its key. */
  lemma AcceptsNewest(d: Db, e: Event, i: Id)
    requires e.Guess? && Outstanding(d.rows, e.key, i) && forall j :: Outstanding(d.rows, e.key, j) && j != i ==> d.rows[j].createdAt < d.rows[i].createdAt
    requires d.rows[i].secret == e.secret && d.rows[i].attempts < MAX_OTP_ATTEMPTS && d.clock <= e.at <= d.rows[i].expiresAt
    ensures Possible(d, e) && Apply(d, e).1 == Accepted
    ensures Apply(d, e).0.rows == d.rows[i := d.rows[i].(consumedAt := Some(e.at))] && Apply(d, e).0.clock == e.at
  {
    assert Newest(d.rows, e.key, i);
    assert Newest(d.rows, e.key, Current(d.rows, e.key).value);
  }

  lemma RunFirst(d: Db, e: Event, rest: seq<Event>)
    requires Possible(d, e) && PossibleRun(Apply(d, e).0, rest) && !e.Prune?
    ensures PossibleRun(d, [e] + rest) && Replies(d, [e] + rest) == [Apply(d, e).1] + Replies(Apply(d, e).0, rest)
  {
    hide Apply, Possible;
    assert ([e] + rest)[1..] == rest;
  }

  /** The early return of ErrCodeAttempts is dead code: an outstanding row has attempts left. */
  lemma OutstandingHasAttemptsLeft(d: Db, k: Key, i: Id)
    requires Reachable(d) && Outstanding(d.rows, k, i)
    ensures d.rows[i].attempts < MAX_OTP_ATTEMPTS
  {
    var m := ReachableRefines(d);
    assert SlotMatches(d, k, m[k]);
  }

  /** The transaction compares the guess with the secret of row `id`. */
  ghost predicate Compares(d: Db, e: Event, id: Id) {
    && e.Guess?
    && Current(d.rows, e.key) == Some(id)
    && id in d.rows
    && e.at <= d.rows[id].expiresAt
    && d.rows[id].attempts < MAX_OTP_ATTEMPTS
  }

  /** The transaction redeems row `id`. */
  ghost predicate Redeems(d: Db, e: Event, id: Id) {
    || (e.Guess? && Apply(d, e).1 == Accepted && Current(d.rows, e.key) == Some(id))
    || (e.Redeem? && Apply(d, e).1.Redeemed? && RowOfToken(d.rows, e.purpose, e.secret) == Some(id))
  }

  ghost function Comparisons(d: Db, evs: seq<Event>, id: Id): nat
    decreases |evs|
  {
    if evs == [] then 0
    else One(Compares(d, evs[0], id)) + Comparisons(Apply(d, evs[0]).0, evs[1..], id)
  }

  ghost function Redemptions(d: Db, evs: seq<Event>, id: Id): nat
    decreases |evs|
  {
    if evs == [] then 0
    else One(Redeems(d, evs[0], id)) + Redemptions(Apply(d, evs[0]).0, evs[1..], id)
  }

  ghost predicate Alive(d: Db, id: Id) {
    id !in d.born || (id in d.rows && d.rows[id].consumedAt.None?)
  }

  /** The comparisons a code still has coming: five before it is issued, none once it is consumed. */
  ghost function Budget(d: Db, id: Id): nat {
    if !Alive(d, id) then 0
    else if id in d.born then Max(0, MAX_OTP_ATTEMPTS - d.rows[id].attempts)
    else MAX_OTP_ATTEMPTS
  }

  lemma StepSpendsBudget(d: Db, e: Event, id: Id)
    requires RowsBorn(d) && Possible(d, e)
    ensures RowsBorn(Apply(d, e).0)
    ensures One(Compares(d, e, id)) + Budget(Apply(d, e).0, id) <= Budget(d, id)
    ensures One(Redeems(d, e, id)) + One(Alive(Apply(d, e).0, id)) <= One(Alive(d, id))
  {
    if e.Guess? && Current(d.rows, e.key).Some? {
      assert Newest(d.rows, e.key, Current(d.rows, e.key).value);
    } else if e.Redeem? && RowOfToken(d.rows, e.purpose, e.secret).Some? {
      assert HoldsToken(d.rows, e.purpose, e.secret, RowOfToken(d.rows, e.purpose, e.secret).value);
    }
  }

  lemma {:induction false} RunSpendsBudget(d: Db, evs: seq<Event>, id: Id)
    requires RowsBorn(d) && PossibleRun(d, evs)
    ensures Comparisons(d, evs, id) + Budget(Final(d, evs), id) <= Budget(d, id)
    ensures Redemptions(d, evs, id) + One(Alive(Final(d, evs), id)) <= One(Alive(d, id))
    decreases |evs|
  {
    hide Apply, Compares, Redeems, Budget, Alive, RowsBorn;
    if evs == [] {
    } else {
      StepSpendsBudget(d, evs[0], id);
      RunSpendsBudget(Apply(d, evs[0]).0, evs[1..], id);
    }
  }

  /** Over any run, IssueCode transactions overlapping or not, an issued code is compared with a guess at most
      five times and redeemed at most once. */
  lemma FiveGuessesOneRedemption(now: Time, evs: seq<Event>, id: Id)
    requires PossibleRun(EmptyDb(now), evs)
    ensures Comparisons(EmptyDb(now), evs, id) <= MAX_OTP_ATTEMPTS
    ensures Redemptions(EmptyDb(now), evs, id) <= 1
  {
    RunSpendsBudget(EmptyDb(now), evs, id);
  }

  /** A row of the table after a transaction is new, or was there with the same key, secret and expiry. */
  lemma RowsComeFrom(d: Db, e: Event, id: Id)
    requires Possible(d, e) && id in Apply(d, e).0.rows
    ensures var c := Apply(d, e).0.rows[id];
      || (e.Issue? && id == e.id && c.key == e.key && c.secret == e.secret && c.expiresAt == e.at + e.ttl)
      || (id in d.rows && c.key == d.rows[id].key && c.secret == d.rows[id].secret && c.expiresAt == d.rows[id].expiresAt)
  {
    if e.Guess? && Current(d.rows, e.key).Some? {
      assert Newest(d.rows, e.key, Current(d.rows, e.key).value);
    } else if e.Redeem? && RowOfToken(d.rows, e.purpose, e.secret).Some? {
      assert HoldsToken(d.rows, e.purpose, e.secret, RowOfToken(d.rows, e.purpose, e.secret).value);
    }
  }

  // --- The store ----------------------------------------------------------------------------------------

  lemma {:induction false} ReachableStep(d: Db, e: Event)
    requires Reachable(d) && Enabled(d, e)
    ensures Reachable(Apply(d, e).0)
  {
    var now, evs :| ValidRun(EmptyDb(now), evs) && Final(EmptyDb(now), evs) == d;
    Extended(EmptyDb(now), evs, e);
  }

  lemma {:induction false} Extended(d: Db, evs: seq<Event>, e: Event)
    requires ValidRun(d, evs) && Enabled(Final(d, evs), e)
    ensures ValidRun(d, evs + [e]) && Final(d, evs + [e]) == Apply(Final(d, evs), e).0
    decreases |evs|
  {
    hide Apply, Enabled;
    if evs == [] {
      assert evs + [e] == [e] && [e][1..] == [];
      assert ValidRun(Apply(d, e).0, []) && Final(Apply(d, e).0, []) == Apply(d, e).0;
    } else {
      Extended(Apply(d, evs[0]).0, evs[1..], e);
      assert (evs + [e])[1..] == evs[1..] + [e];
    }
  }

  class CodeStore {
    var rows: Rows
    ghost var db: Db

    ghost predicate Valid()
      reads this
    {
      db.rows == rows && Reachable(db)
    }

    constructor (ghost now: Time)
      ensures Valid() && db == EmptyDb(now)
    {
      rows := map[];
      db := EmptyDb(now);
      new;
      assert ValidRun(EmptyDb(now), []) && Final(EmptyDb(now), []) == EmptyDb(now);
    }

    /** Only the newest code of a key can be redeemed: the others are consumed as it is stored. */
    method IssueCode(identifier: string, p: Purpose, code: string, ttl: Time, id: Id, now: Time)
      requires Valid() && Enabled(db, Issue(Key(identifier, p), code, ttl, id, {}, now))
      modifies this
      ensures Valid()
      ensures db == Apply(old(db), Issue(Key(identifier, p), code, ttl, id, {}, now)).0
      ensures forall j :: Outstanding(rows, Key(identifier, p), j) <==> j == id
      ensures rows[id] == Code(Key(identifier, p), code, 0, now + ttl, None, now)
      ensures forall j :: j in old(rows) && old(rows)[j].key != Key(identifier, p) ==> j in rows && rows[j] == old(rows)[j]
    {
      ghost var m := ReachableRefines(db);
      ReachableStep(db, Issue(Key(identifier, p), code, ttl, id, {}, now));
      rows := Superseded(rows, Key(identifier, p), {}, now);
      rows := rows[id := Code(Key(identifier, p), code, 0, now + ttl, None, now)];
      db := Apply(db, Issue(Key(identifier, p), code, ttl, id, {}, now)).0;
    }

    method ConsumeCode(identifier: string, p: Purpose, code: string, now: Time) returns (r: Reply)
      requires Valid() && db.clock <= now
      modifies this
      ensures Valid()
      ensures (db, r) == Apply(old(db), Guess(Key(identifier, p), code, now))
      ensures r == Accepted || r == CodeInvalid || r == CodeAttempts
      ensures r == Accepted <==> exists i ::
        Outstanding(old(rows), Key(identifier, p), i) && old(rows)[i].secret == code && now <= old(rows)[i].expiresAt
    {
      ghost var e := Guess(Key(identifier, p), code, now);
      ReachableStep(db, e);
      ghost var after := Apply(db, e);
      if id :| id in rows && rows[id].key == Key(identifier, p) && rows[id].consumedAt.None? {
        assert Outstanding(db.rows, e.key, id);
        AtMostOneOutstanding(db, e.key, id, id);
        OutstandingHasAttemptsLeft(db, e.key, id);
        forall j | Outstanding(db.rows, e.key, j) ensures j == id {
          AtMostOneOutstanding(db, e.key, id, j);
        }
        var row := rows[id];
        var attempts := row.attempts;
        if row.expiresAt < now {
          r := CodeInvalid;
        } else if attempts >= MAX_OTP_ATTEMPTS {
          r := CodeAttempts;
        } else if row.secret != code {
          attempts := attempts + 1;
          if attempts >= MAX_OTP_ATTEMPTS {
            rows := rows[id := row.(attempts := attempts, consumedAt := Some(now))];
            r := CodeAttempts;
          } else {
            rows := rows[id := row.(attempts := attempts)];
            r := CodeInvalid;
          }
        } else {
          rows := rows[id := row.(consumedAt := Some(now))];
          r := Accepted;
        }
      } else {
        assert forall j :: !Outstanding(db.rows, e.key, j);
        r := CodeInvalid;
      }
      db := after.0;
    }

    method ConsumeToken(p: Purpose, tok: string, now: Time) returns (r: Reply)
      requires Valid() && db.clock <= now && Emailed(p)
      modifies this
      ensures Valid()
      ensures (db, r) == Apply(old(db), Redeem(p, tok, now))
      ensures r.Redeemed? <==> exists i :: HoldsToken(old(rows), p, tok, i) && now <= old(rows)[i].expiresAt
      ensures !r.Redeemed? ==> rows == old(rows)
      ensures r.Redeemed? ==> forall i :: HoldsToken(old(rows), p, tok, i) ==>
        (r.identifier == old(rows)[i].key.identifier && rows == old(rows)[i := old(rows)[i].(consumedAt := Some(now))])
    {
      ghost var e := Redeem(p, tok, now);
      ReachableStep(db, e);
      ghost var after := Apply(db, e);
      if id :| id in rows && rows[id].key.purpose == p && rows[id].secret == tok && rows[id].consumedAt.None? {
        assert HoldsToken(db.rows, p, tok, id);
        TokenFindsOneRow(db, p, tok, id);
        if rows[id].expiresAt < now {
          r := CodeInvalid;
        } else {
          r := Redeemed(rows[id].key.identifier);
          rows := rows[id := rows[id].(consumedAt := Some(now))];
        }
      } else {
        assert forall j :: !HoldsToken(db.rows, p, tok, j);
        r := CodeInvalid;
      }
      db := after.0;
    }

    method PruneCodes(grace: nat, now: Time) returns (n: nat)
      requires Valid() && db.clock <= now
      modifies this
      ensures Valid()
      ensures db == Apply(old(db), Prune(grace, now)).0
      ensures n == |old(rows).Keys - rows.Keys|
      ensures forall i :: i in rows <==> i in old(rows) && old(rows)[i].expiresAt + grace >= now
      ensures forall i :: i in rows ==> rows[i] == old(rows)[i]
    {
      hide Reachable;
      ReachableStep(db, Prune(grace, now));
      var kept := Kept(rows, now - grace);
      n := |rows.Keys - kept.Keys|;
      rows := kept;
      db := Apply(db, Prune(grace, now)).0;
    }
  }

  /** An emailed token finds at most one outstanding row. */
  lemma TokenFindsOneRow(d: Db, p: Purpose, tok: string, id: Id)
    requires Reachable(d) && Emailed(p) && HoldsToken(d.rows, p, tok, id)
    ensures RowOfToken(d.rows, p, tok) == Some(id)
    ensures forall j :: HoldsToken(d.rows, p, tok, j) ==> j == id
  {
    var m := ReachableRefines(d);
    forall j | HoldsToken(d.rows, p, tok, j) ensures j == id {
      assert SlotMatches(d, d.rows[j].key, m[d.rows[j].key]);
      assert SlotMatches(d, d.rows[id].key, m[d.rows[id].key]);
    }
  }

  /** An emailed token is redeemed once: afterwards no outstanding row holds it. */
  lemma RedeemedIsSpent(d: Db, p: Purpose, tok: string, now: Time)
    requires Reachable(d) && Emailed(p) && Apply(d, Redeem(p, tok, now)).1.Redeemed?
    ensures RowOfToken(Apply(d, Redeem(p, tok, now)).0.rows, p, tok) == None
  {
    hide Reachable;
    var i := RowOfToken(d.rows, p, tok).value;
    assert HoldsToken(d.rows, p, tok, i);
    TokenFindsOneRow(d, p, tok, i);
    var d' := Apply(d, Redeem(p, tok, now)).0;
    forall j ensures !HoldsToken(d'.rows, p, tok, j) {
      assert j != i ==> !HoldsToken(d.rows, p, tok, j);
    }
  }
}
