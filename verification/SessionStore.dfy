/** internal/store/sessions.go: the store whose methods change the sessions table. */
module SessionStores {
  import opened Prelude
  import opened Sessions
  import opened SessionRuns
  import opened SessionGuarantees

  lemma ReachableStep(d: Db, e: Event)
    requires Reachable(d) && Enabled(d, e)
    ensures Reachable(Apply(d, e).0)
  {
    hide Reachable, Apply;
    assert ValidRun(d, [e]) && Final(d, [e]) == Apply(d, e).0 by {
      assert ValidRun(Apply(d, e).0, [e][1..]);
      assert Final(Apply(d, e).0, [e][1..]) == Apply(d, e).0;
    }
    ReachableRun(d, [e]);
  }

  /** A row GET /v1/sessions shows: the user's, live and unspent, with time left on it. */
  predicate Listed(s: Session, userId: UserId, now: Time) {
    s.userId == userId && s.revokedAt.None? && s.usedAt.None? && now < s.expiresAt
  }

  function Owned(rows: Rows, userId: UserId): set<Id> {
    set i | i in rows && rows[i].userId == userId
  }

  function Lineage(rows: Rows, f: Id): set<Id> {
    set i | i in rows && rows[i].familyId == f
  }

  /** These rows are revoked now, unless they were before, and nothing else has changed. */
  ghost predicate OnlyRevoked(before: Rows, after: Rows, ids: set<Id>, now: Time) {
    && after.Keys == before.Keys
    && (forall i :: i in after && i in ids ==> after[i] == before[i].(revokedAt := Coalesce(before[i].revokedAt, now)))
    && (forall i :: i in after && i !in ids ==> after[i] == before[i])
  }

  lemma PruneLeaves(d: Db, grace: nat, now: Time)
    ensures Apply(d, Prune(grace, now)).0.rows == Kept(d.rows, now - grace)
    ensures Apply(d, Prune(grace, now)).1 == Pruned(|d.rows.Keys - Kept(d.rows, now - grace).Keys|)
  {
  }

  class SessionStore {
    var rows: Rows
    ghost var db: Db

    /** The table is one that some run of store transactions leaves behind. */
    ghost predicate Valid()
      reads this
    {
      db.rows == rows && Reachable(db)
    }

    constructor (ghost now: Time)
      ensures Valid() && rows == map[] && db == EmptyDb(now)
    {
      rows := map[];
      db := EmptyDb(now);
      new;
      assert ValidRun(EmptyDb(now), []) && Final(EmptyDb(now), []) == EmptyDb(now);
    }

    /** The insert behind every new row. */
    method InsertSession(id: Id, userId: UserId, clientId: ClientId, familyId: Id, parentId: Option<Id>,
                         raw: Token, m: Meta, now: Time) returns (s: Session)
      modifies this`rows
      ensures s == FreshRow(id, userId, clientId, familyId, parentId, raw, m, now) && JustIssued(s, now) && s.meta == m
      ensures rows == old(rows)[id := s]
    {
      s := Session(id, userId, clientId, familyId, parentId, raw, now, now + REFRESH_TTL, None, None, m);
      rows := rows[id := s];
    }

    method CreateSession(userId: UserId, clientId: ClientId, m: Meta, id: Id, raw: Token, now: Time)
      returns (s: Session)
      requires Valid() && Enabled(db, Create(userId, clientId, id, raw, m, now))
      modifies this
      ensures Valid()
      ensures db == Apply(old(db), Create(userId, clientId, id, raw, m, now)).0
      ensures rows == old(rows)[id := s] && s.userId == userId && s.clientId == clientId && s.id == s.familyId == id
      ensures s.parentId.None? && s.token == raw && s.meta == m && JustIssued(s, now)
    {
      ghost var e := Create(userId, clientId, id, raw, m, now);
      s := InsertSession(id, userId, clientId, id, None, raw, m, now);
      ReachableStep(db, e);
      db := Apply(db, e).0;
    }

    method Rotate(refreshToken: Token, m: Meta, newId: Id, newRaw: Token, now: Time) returns (r: Reply)
      requires Valid() && Enabled(db, Event.Rotate(refreshToken, newId, newRaw, m, now))
      modifies this
      ensures Valid()
      ensures (db, r) == Apply(old(db), Event.Rotate(refreshToken, newId, newRaw, m, now))
      ensures r == NotFound ==> rows == old(rows)
      ensures forall id :: HasToken(old(rows), id, refreshToken) ==>
        match r
        case NotFound => old(rows)[id].usedAt.None? && !Rotatable(old(rows)[id], now)
        case TokenReuse => old(rows)[id].usedAt.Some? && OnlyRevoked(old(rows), rows, Lineage(old(rows), old(rows)[id].familyId), now)
        case Issued(s) =>
          && Rotatable(old(rows)[id], now) && JustIssued(s, now) && s.meta == m && s.id == newId && s.token == newRaw && s.parentId == Some(id)
          && s.familyId == old(rows)[id].familyId && s.userId == old(rows)[id].userId && s.clientId == old(rows)[id].clientId
          && rows == old(rows)[id := old(rows)[id].(usedAt := Some(now))][newId := s]
        case _ => false
    {
      ghost var e := Event.Rotate(refreshToken, newId, newRaw, m, now);
      ReachableStep(db, e);
      ghost var after := Apply(db, e);
      if id :| id in rows && rows[id].token == refreshToken {
        assert HasToken(db.rows, id, refreshToken);
        RowIsUnique(db, id, refreshToken);
        var row := rows[id];
        if row.usedAt.Some? {
          rows := FamilyRevoked(rows, row.familyId, now);
          r := TokenReuse;
        } else if row.revokedAt.Some? {
          r := NotFound;
        } else if row.expiresAt < now {
          r := NotFound;
        } else {
          rows := rows[id := row.(usedAt := Some(now))];
          var s := InsertSession(newId, row.userId, row.clientId, row.familyId, Some(id), newRaw, m, now);
          r := Issued(s);
        }
      } else {
        assert forall i :: !HasToken(db.rows, i, refreshToken);
        r := NotFound;
      }
      db := after.0;
    }

    method RevokeFamily(familyId: Id, now: Time)
      requires Valid() && db.clock <= now
      modifies this
      ensures Valid()
      ensures db == Apply(old(db), Event.RevokeFamily(familyId, now)).0
      ensures OnlyRevoked(old(rows), rows, Lineage(old(rows), familyId), now)
    {
      hide Reachable;
      ReachableStep(db, Event.RevokeFamily(familyId, now));
      rows := FamilyRevoked(rows, familyId, now);
      db := Apply(db, Event.RevokeFamily(familyId, now)).0;
    }

    method RevokeAllForUser(userId: UserId, now: Time)
      requires Valid() && db.clock <= now
      modifies this
      ensures Valid()
      ensures db == Apply(old(db), Event.RevokeAllForUser(userId, now)).0
      ensures OnlyRevoked(old(rows), rows, Owned(old(rows), userId), now)
    {
      hide Reachable;
      ReachableStep(db, Event.RevokeAllForUser(userId, now));
      rows := UserRevoked(rows, userId, now);
      db := Apply(db, Event.RevokeAllForUser(userId, now)).0;
    }

    /** A single logout kills the family of the row holding the token. */
    method RevokeByToken(refreshToken: Token, now: Time) returns (found: bool)
      requires Valid() && db.clock <= now
      modifies this
      ensures Valid()
      ensures found <==> exists id :: HasToken(old(rows), id, refreshToken)
      ensures !found ==> db == old(db)
      ensures forall id :: HasToken(old(rows), id, refreshToken) ==>
        db == Apply(old(db), Event.RevokeFamily(old(rows)[id].familyId, now)).0
    {
      if id :| id in rows && rows[id].token == refreshToken {
        assert HasToken(db.rows, id, refreshToken);
        RowIsUnique(db, id, refreshToken);
        found := true;
        RevokeFamily(rows[id].familyId, now);
      } else {
        found := false;
      }
    }

    method PruneSessions(grace: nat, now: Time) returns (n: nat)
      requires Valid() && db.clock <= now
      modifies this
      ensures Valid()
      ensures (db, Pruned(n)) == Apply(old(db), Prune(grace, now))
      ensures forall i :: i in rows <==> i in old(rows) && old(rows)[i].expiresAt + grace >= now
      ensures forall i :: i in rows ==> rows[i] == old(rows)[i]
    {
      hide Reachable, Apply;
      PruneLeaves(db, grace, now);
      ReachableStep(db, Prune(grace, now));
      var kept := Kept(rows, now - grace);
      n := |rows.Keys - kept.Keys|;
      rows := kept;
      db := Apply(db, Prune(grace, now)).0;
    }

    /** Each listed row exactly once, newest first. */
    method ActiveSessionsForUser(userId: UserId, now: Time) returns (out: seq<Session>)
      requires Valid()
      ensures forall k :: 0 <= k < |out| ==> out[k].id in rows && rows[out[k].id] == out[k] && Listed(out[k], userId, now)
      ensures forall i :: i in rows && Listed(rows[i], userId, now) ==> rows[i] in out
      ensures forall k, l :: 0 <= k < l < |out| ==> out[k].id != out[l].id && out[l].issuedAt <= out[k].issuedAt
    {
      IdsAreKeys(db);
      out := Scan(set i | i in rows && Listed(rows[i], userId, now));
    }

    method Scan(ids: set<Id>) returns (out: seq<Session>)
      requires forall i :: i in ids ==> i in rows && rows[i].id == i
      ensures forall k :: 0 <= k < |out| ==> out[k].id in ids && rows[out[k].id] == out[k]
      ensures forall i :: i in ids ==> rows[i] in out
      ensures forall k, l :: 0 <= k < l < |out| ==> out[k].id != out[l].id && out[l].issuedAt <= out[k].issuedAt
    {
      var pending := ids;
      out := [];
      while pending != {}
        invariant pending <= ids
        invariant forall i :: i in ids ==> i in pending || rows[i] in out
        invariant forall k :: 0 <= k < |out| ==> out[k].id in ids && rows[out[k].id] == out[k] && out[k].id !in pending
        invariant forall k, i :: 0 <= k < |out| && i in pending ==> rows[i].issuedAt <= out[k].issuedAt
        invariant forall k, l :: 0 <= k < l < |out| ==> out[k].id != out[l].id && out[l].issuedAt <= out[k].issuedAt
        decreases pending
      {
        var i := Newest(pending);
        out := out + [rows[i]];
        pending := pending - {i};
      }
    }

    /** ORDER BY issued_at DESC: the next row to scan. */
    method Newest(pending: set<Id>) returns (i: Id)
      requires pending != {} && pending <= rows.Keys
      ensures i in pending && forall j :: j in pending ==> rows[j].issuedAt <= rows[i].issuedAt
    {
      i :| i in pending;
      var rest := pending - {i};
      while rest != {}
        invariant i in pending && rest <= pending
        invariant forall j :: j in pending && j !in rest ==> rows[j].issuedAt <= rows[i].issuedAt
        decreases rest
      {
        var j :| j in rest;
        rest := rest - {j};
        if rows[i].issuedAt < rows[j].issuedAt {
          i := j;
        }
      }
    }
  }

  lemma IdsAreKeys(d: Db)
    requires Reachable(d)
    ensures forall i :: i in d.rows ==> d.rows[i].id == i
  {
    hide TableInv, MemberInv, IndexInv, LinkInv, ClockInv, OrderInv;
    ReachableInv(d);
    forall i | i in d.rows ensures d.rows[i].id == i {
      RowAgreesWithFamily(d, i);
    }
  }

  /** token_hash is unique. */
  lemma RowIsUnique(d: Db, id: Id, tok: Token)
    requires Reachable(d) && HasToken(d.rows, id, tok)
    ensures RowOfToken(d.rows, tok) == Some(id) && d.rows[id].id == id
    ensures forall j :: HasToken(d.rows, j, tok) ==> j == id
  {
    hide TableInv, MemberInv, IndexInv, LinkInv, ClockInv, OrderInv;
    ReachableInv(d);
    forall j | HasToken(d.rows, j, tok) ensures j == id {
      RowOfTokenUnique(d, id, tok);
      RowOfTokenUnique(d, j, tok);
    }
    RowOfTokenUnique(d, id, tok);
    RowAgreesWithFamily(d, id);
  }
}
