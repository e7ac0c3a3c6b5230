/** The sessions table of internal/store/sessions.go as a state machine over rows. */
module Sessions {
  import opened Prelude

  type Id = nat
  /** A refresh token, standing for its digest. */
  type Token = nat

  const REFRESH_TTL: Time := 30 * DAY

  datatype Meta = Meta(userAgent: string, ip: string)

  datatype Session = Session(
    id: Id, userId: UserId, clientId: ClientId, familyId: Id, parentId: Option<Id>, token: Token,
    issuedAt: Time, expiresAt: Time, usedAt: Option<Time>, revokedAt: Option<Time>, meta: Meta)

  type Rows = map<Id, Session>

  /** A login: its user, its client, and the rows descending from it, oldest first. */
  datatype Family = Family(userId: UserId, clientId: ClientId, chain: seq<Id>)

  /** A row as inserted, and its position in its family's chain. */
  datatype Birth = Birth(row: Session, depth: nat)

  /** The table together with what the table itself forgets: every row ever inserted, the row each
      token was minted for, the chains, the highest pruning cutoff so far, the latest clock reading. */
  datatype Db = Db(rows: Rows, born: map<Id, Birth>, minted: map<Token, Id>, families: map<Id, Family>,
                   cutoff: Time, clock: Time)

  function EmptyDb(now: Time): Db {
    Db(map[], map[], map[], map[], now, now)
  }

  /** One store transaction. `id`, `newId`, `token` and `newToken` are the minted values. */
  datatype Event =
    | Create(userId: UserId, clientId: ClientId, id: Id, newToken: Token, meta: Meta, at: Time)
    | Rotate(token: Token, id: Id, newToken: Token, meta: Meta, at: Time)
    | RevokeFamily(familyId: Id, at: Time)
    | RevokeAllForUser(userId: UserId, at: Time)
    | Prune(grace: nat, at: Time)

  datatype Reply = Issued(session: Session) | NotFound | TokenReuse | Done | Pruned(count: nat)

  // --- Queries and updates on rows -----------------------------------------------------------

  ghost predicate HasToken(rows: Rows, id: Id, tok: Token) {
    id in rows && rows[id].token == tok
  }

  /** SELECT ... WHERE token_hash = $1. */
  ghost function RowOfToken(rows: Rows, tok: Token): Option<Id> {
    if exists id :: HasToken(rows, id, tok) then
      var id :| HasToken(rows, id, tok);
      Some(id)
    else
      None
  }

  function FreshRow(id: Id, userId: UserId, clientId: ClientId, familyId: Id, parentId: Option<Id>,
                    tok: Token, meta: Meta, now: Time): Session {
    Session(id, userId, clientId, familyId, parentId, tok, now, now + REFRESH_TTL, None, None, meta)
  }

  function Revoked(s: Session, now: Time): Session {
    s.(revokedAt := Coalesce(s.revokedAt, now))
  }

  function FamilyRevoked(rows: Rows, familyId: Id, now: Time): Rows {
    map i | i in rows :: if rows[i].familyId == familyId then Revoked(rows[i], now) else rows[i]
  }

  function UserRevoked(rows: Rows, userId: UserId, now: Time): Rows {
    map i | i in rows ::
      if rows[i].userId == userId && rows[i].revokedAt.None? then Revoked(rows[i], now) else rows[i]
  }

  function Kept(rows: Rows, cutoff: Time): Rows {
    map i | i in rows && cutoff <= rows[i].expiresAt :: rows[i]
  }

  /** A row whose token Rotate would exchange at `now`. */
  predicate Rotatable(s: Session, now: Time) {
    s.usedAt.None? && s.revokedAt.None? && now <= s.expiresAt
  }

  // --- The transition function ------------------------------------------------------------------

  ghost predicate Fresh(d: Db, id: Id, tok: Token) {
    id !in d.born && id !in d.families && tok !in d.minted
  }

  /** The clock does not run backwards, and minted ids and tokens are new. */
  ghost predicate Enabled(d: Db, e: Event) {
    && d.clock <= e.at
    && (e.Create? || e.Rotate? ==> Fresh(d, e.id, e.newToken))
  }

  /** insertSession: the row joins the table at the end of its family's chain. */
  function Inserted(d: Db, s: Session, now: Time): Db {
    var chain := if s.familyId in d.families then d.families[s.familyId].chain else [];
    d.(rows := d.rows[s.id := s], born := d.born[s.id := Birth(s, |chain|)], minted := d.minted[s.token := s.id],
       families := d.families[s.familyId := Family(s.userId, s.clientId, chain + [s.id])], clock := now)
  }

  /** The row that exchanging row `r` inserts. */
  function Successor(r: Session, e: Event): Session
    requires e.Rotate?
  {
    FreshRow(e.id, r.userId, r.clientId, r.familyId, Some(r.id), e.newToken, e.meta, e.at)
  }

  function Spent(d: Db, i: Id, now: Time): Db
    requires i in d.rows
  {
    d.(rows := d.rows[i := d.rows[i].(usedAt := Some(now))])
  }

  /** The state after Rotate exchanges row `i`. */
  function Rotated(d: Db, i: Id, e: Event): Db
    requires i in d.rows && e.Rotate?
  {
    Inserted(Spent(d, i, e.at), Successor(d.rows[i], e), e.at)
  }

  /** DELETE FROM sessions WHERE expires_at < cutoff. */
  function AfterPrune(d: Db, cutoff: Time, now: Time): Db {
    d.(rows := Kept(d.rows, cutoff), cutoff := Max(d.cutoff, cutoff), clock := now)
  }

  ghost function ApplyRotate(d: Db, e: Event): (Db, Reply)
    requires e.Rotate?
  {
    match RowOfToken(d.rows, e.token)
    case None => (d.(clock := e.at), NotFound)
    case Some(i) =>
      var r := d.rows[i];
      if r.usedAt.Some? then
        (d.(rows := FamilyRevoked(d.rows, r.familyId, e.at), clock := e.at), TokenReuse)
      else if !Rotatable(r, e.at) then
        (d.(clock := e.at), NotFound)
      else
        (Rotated(d, i, e), Issued(Successor(r, e)))
  }

  ghost function Apply(d: Db, e: Event): (Db, Reply) {
    match e
    case Create(userId, clientId, id, tok, meta, at) =>
      var s := FreshRow(id, userId, clientId, id, None, tok, meta, at);
      (Inserted(d, s, at), Issued(s))
    case Rotate(_, _, _, _, _) => ApplyRotate(d, e)
    case RevokeFamily(f, at) => (d.(rows := FamilyRevoked(d.rows, f, at), clock := at), Done)
    case RevokeAllForUser(u, at) => (d.(rows := UserRevoked(d.rows, u, at), clock := at), Done)
    case Prune(grace, at) =>
      (AfterPrune(d, at - grace, at), Pruned(|d.rows.Keys - Kept(d.rows, at - grace).Keys|))
  }

  // --- The invariant ------------------------------------------------------------------------------

  /** Nothing but the two stamps ever differs between a row and the row as inserted. */
  predicate SameBirth(s: Session, b: Session) {
    s.(usedAt := None, revokedAt := None) == b
  }

  /** Rows are filed under their id, carry their birth values, and are exactly the born rows that
      no pruning cutoff has passed. */
  ghost predicate TableInv(d: Db) {
    && (forall i :: i in d.born ==>
          d.born[i].row.id == i && d.born[i].row.token in d.minted && d.minted[d.born[i].row.token] == i)
    && (forall i :: i in d.rows ==> i in d.born && SameBirth(d.rows[i], d.born[i].row))
    && (forall i :: i in d.born ==> (i in d.rows <==> d.cutoff <= d.born[i].row.expiresAt))
  }

  /** Every row sits at its place in its family's chain, and agrees with its family's login. */
  ghost predicate MemberInv(d: Db) {
    forall i :: i in d.born ==> InChain(d, i, d.born[i])
  }

  ghost predicate InChain(d: Db, i: Id, b: Birth) {
    && b.row.familyId in d.families
    && b.depth < |d.families[b.row.familyId].chain|
    && d.families[b.row.familyId].chain[b.depth] == i
    && d.families[b.row.familyId].userId == b.row.userId
    && d.families[b.row.familyId].clientId == b.row.clientId
  }

  /** A chain is not empty, and every element of it is a row of that family at that depth. */
  ghost predicate IndexInv(d: Db) {
    forall f :: f in d.families ==> ChainOk(d, f, d.families[f].chain)
  }

  ghost predicate ChainOk(d: Db, f: Id, chain: seq<Id>) {
    && 0 < |chain|
    && forall k :: 0 <= k < |chain| ==>
         chain[k] in d.born && d.born[chain[k]].row.familyId == f && d.born[chain[k]].depth == k
  }

  /** The predecessor in the chain. */
  function Before(d: Db, b: Birth): Option<Id> {
    if 0 < b.depth && b.row.familyId in d.families && b.depth <= |d.families[b.row.familyId].chain| then
      Some(d.families[b.row.familyId].chain[b.depth - 1])
    else
      None
  }

  /** parent_id names the predecessor; a row is spent exactly when it has a successor. */
  ghost predicate LinkInv(d: Db) {
    && (forall i {:trigger d.born[i].row.parentId} :: i in d.born ==>
          && d.born[i].row.parentId == Before(d, d.born[i])
          && (d.born[i].depth == 0 <==> i == d.born[i].row.familyId))
    && (forall i :: i in d.rows && i in d.born && d.born[i].row.familyId in d.families ==>
          (d.rows[i].usedAt.Some? <==> d.born[i].depth + 1 < |d.families[d.born[i].row.familyId].chain|))
  }

  /** Nothing is stamped ahead of the clock. */
  ghost predicate ClockInv(d: Db) {
    && d.cutoff <= d.clock
    && (forall i :: i in d.born ==>
          d.born[i].row.issuedAt <= d.clock && d.born[i].row.expiresAt == d.born[i].row.issuedAt + REFRESH_TTL)
  }

  /** Both rows descend from one login, the first no later than the second. */
  predicate Precedes(a: Birth, b: Birth) {
    a.row.familyId == b.row.familyId && a.depth <= b.depth
  }

  /** Later rows of a family expire no earlier. */
  ghost predicate OrderInv(d: Db) {
    forall i, j :: i in d.born && j in d.born && Precedes(d.born[i], d.born[j]) ==>
      d.born[i].row.expiresAt <= d.born[j].row.expiresAt
  }

  ghost predicate Inv(d: Db) {
    TableInv(d) && MemberInv(d) && IndexInv(d) && LinkInv(d) && ClockInv(d) && OrderInv(d)
  }

  lemma RowOfTokenUnique(d: Db, id: Id, tok: Token)
    requires TableInv(d)
    ensures RowOfToken(d.rows, tok) == Some(id) <==> HasToken(d.rows, id, tok)
  {
    if HasToken(d.rows, id, tok) {
      var j := RowOfToken(d.rows, tok).value;
      assert HasToken(d.rows, j, tok);
    }
  }

  // --- Every transaction keeps the invariant --------------------------------------------------------

  /** The second table differs from the first in revocation stamps only. */
  ghost predicate Restamped(rows: Rows, rows': Rows) {
    && rows'.Keys == rows.Keys
    && forall i :: i in rows ==> rows'[i] == rows[i].(revokedAt := rows'[i].revokedAt)
  }

  lemma RestampKeepsTable(d: Db, rows: Rows, now: Time)
    requires TableInv(d) && Restamped(d.rows, rows)
    ensures TableInv(d.(rows := rows, clock := now))
  {
  }

  lemma RestampKeepsLink(d: Db, rows: Rows, now: Time)
    requires LinkInv(d) && Restamped(d.rows, rows)
    ensures LinkInv(d.(rows := rows, clock := now))
  {
  }

  lemma RestampKeepsInv(d: Db, rows: Rows, now: Time)
    requires Inv(d) && d.clock <= now && Restamped(d.rows, rows)
    ensures Inv(d.(rows := rows, clock := now))
  {
    RestampKeepsTable(d, rows, now);
    RestampKeepsLink(d, rows, now);
  }

  lemma PruneKeepsTable(d: Db, cutoff: Time, now: Time)
    requires TableInv(d)
    ensures TableInv(AfterPrune(d, cutoff, now))
  {
  }

  lemma PruneKeepsInv(d: Db, cutoff: Time, now: Time)
    requires Inv(d) && d.clock <= now && cutoff <= now
    ensures Inv(AfterPrune(d, cutoff, now))
  {
    PruneKeepsTable(d, cutoff, now);
  }

  /** What insertSession stores: a live row, good for thirty days. */
  predicate JustIssued(s: Session, now: Time) {
    s.issuedAt == now && s.expiresAt == now + 30 * DAY && s.usedAt.None? && s.revokedAt.None?
  }

  lemma InsertKeepsTable(d: Db, s: Session, now: Time)
    requires TableInv(d) && ClockInv(d) && d.clock <= now && Fresh(d, s.id, s.token) && JustIssued(s, now)
    ensures TableInv(Inserted(d, s, now))
  {
  }

  lemma InsertKeepsMember(d: Db, s: Session, now: Time)
    requires MemberInv(d) && s.id !in d.born
    requires s.familyId in d.families ==>
      d.families[s.familyId].userId == s.userId && d.families[s.familyId].clientId == s.clientId
    ensures MemberInv(Inserted(d, s, now))
  {
    var n := Inserted(d, s, now);
    forall i | i in n.born ensures InChain(n, i, n.born[i]) {
      assert i != s.id ==> InChain(d, i, d.born[i]);
    }
  }

  lemma InsertKeepsIndex(d: Db, s: Session, now: Time)
    requires IndexInv(d) && s.id !in d.born
    ensures IndexInv(Inserted(d, s, now))
  {
    var n := Inserted(d, s, now);
    forall f | f in n.families ensures ChainOk(n, f, n.families[f].chain) {
      assert f in d.families ==> ChainOk(d, f, d.families[f].chain);
    }
  }

  lemma InsertKeepsClock(d: Db, s: Session, now: Time)
    requires MemberInv(d) && ClockInv(d) && d.clock <= now && s.id !in d.born && JustIssued(s, now)
    ensures ClockInv(Inserted(d, s, now))
  {
  }

  lemma InsertKeepsOrder(d: Db, s: Session, now: Time)
    requires MemberInv(d) && ClockInv(d) && OrderInv(d) && d.clock <= now && s.id !in d.born && JustIssued(s, now)
    ensures OrderInv(Inserted(d, s, now))
  {
  }

  lemma CreateKeepsLink(d: Db, s: Session, now: Time)
    requires MemberInv(d) && LinkInv(d) && Fresh(d, s.id, s.token)
    requires JustIssued(s, now) && s.familyId == s.id && s.parentId.None?
    ensures LinkInv(Inserted(d, s, now))
  {
  }

  lemma CreateKeepsInv(d: Db, e: Event)
    requires Inv(d) && Enabled(d, e) && e.Create?
    ensures Inv(Apply(d, e).0)
  {
    var s := FreshRow(e.id, e.userId, e.clientId, e.id, None, e.newToken, e.meta, e.at);
    InsertKeepsTable(d, s, e.at);
    InsertKeepsMember(d, s, e.at);
    InsertKeepsIndex(d, s, e.at);
    InsertKeepsClock(d, s, e.at);
    InsertKeepsOrder(d, s, e.at);
    CreateKeepsLink(d, s, e.at);
  }

  lemma SpendKeepsTable(d: Db, i: Id, now: Time)
    requires TableInv(d) && i in d.rows
    ensures TableInv(Spent(d, i, now))
  {
  }

  lemma SpendKeepsHistory(d: Db, i: Id, now: Time)
    requires MemberInv(d) && IndexInv(d) && ClockInv(d) && OrderInv(d) && i in d.rows
    ensures MemberInv(Spent(d, i, now)) && IndexInv(Spent(d, i, now))
    ensures ClockInv(Spent(d, i, now)) && OrderInv(Spent(d, i, now))
  {
    var n := Spent(d, i, now);
    forall j | j in n.born ensures InChain(n, j, n.born[j]) {
      assert InChain(d, j, d.born[j]);
    }
    forall f | f in n.families ensures ChainOk(n, f, n.families[f].chain) {
      assert ChainOk(d, f, d.families[f].chain);
    }
  }

  lemma RowAgreesWithFamily(d: Db, i: Id)
    requires TableInv(d) && MemberInv(d) && i in d.rows
    ensures i in d.born && InChain(d, i, d.born[i]) && SameBirth(d.rows[i], d.born[i].row) && d.rows[i].id == i
  {
  }

  /** The unspent row is the last of its chain, so its successor extends the chain. */
  lemma UnspentIsLast(d: Db, i: Id)
    requires TableInv(d) && MemberInv(d) && LinkInv(d) && i in d.rows && d.rows[i].usedAt.None?
    ensures i in d.born && d.rows[i].familyId == d.born[i].row.familyId && d.rows[i].familyId in d.families
    ensures var chain := d.families[d.rows[i].familyId].chain;
            |chain| == d.born[i].depth + 1 && chain[|chain| - 1] == i
  {
  }

  lemma RotateKeepsLink(d: Db, i: Id, e: Event)
    requires TableInv(d) && MemberInv(d) && LinkInv(d) && e.Rotate? && Fresh(d, e.id, e.newToken)
    requires i in d.rows && d.rows[i].usedAt.None?
    ensures LinkInv(Rotated(d, i, e))
  {
    UnspentIsLast(d, i);
  }

  lemma RotateKeepsInv(d: Db, i: Id, e: Event)
    requires Inv(d) && Enabled(d, e) && e.Rotate? && i in d.rows && d.rows[i].usedAt.None?
    ensures Inv(Rotated(d, i, e))
  {
    hide TableInv, MemberInv, IndexInv, LinkInv, OrderInv;
    var s := Successor(d.rows[i], e);
    SpendKeepsTable(d, i, e.at);
    SpendKeepsHistory(d, i, e.at);
    RowAgreesWithFamily(d, i);
    InsertKeepsTable(Spent(d, i, e.at), s, e.at);
    InsertKeepsMember(Spent(d, i, e.at), s, e.at);
    InsertKeepsIndex(Spent(d, i, e.at), s, e.at);
    InsertKeepsClock(Spent(d, i, e.at), s, e.at);
    InsertKeepsOrder(Spent(d, i, e.at), s, e.at);
    RotateKeepsLink(d, i, e);
  }

  lemma ApplyRotateKeepsInv(d: Db, e: Event)
    requires Inv(d) && Enabled(d, e) && e.Rotate?
    ensures Inv(ApplyRotate(d, e).0)
  {
    hide Inv;
    if RowOfToken(d.rows, e.token).None? {
      RestampKeepsInv(d, d.rows, e.at);
    } else {
      var i := RowOfToken(d.rows, e.token).value;
      if d.rows[i].usedAt.Some? {
        RestampKeepsInv(d, FamilyRevoked(d.rows, d.rows[i].familyId, e.at), e.at);
      } else if Rotatable(d.rows[i], e.at) {
        RotateKeepsInv(d, i, e);
      } else {
        RestampKeepsInv(d, d.rows, e.at);
      }
    }
  }

  /** Every transaction keeps the invariant. */
  lemma StepKeepsInv(d: Db, e: Event)
    requires Inv(d) && Enabled(d, e)
    ensures Inv(Apply(d, e).0)
  {
    hide Inv, Inserted, ApplyRotate;
    match e
    case Create(_, _, _, _, _, _) => CreateKeepsInv(d, e);
    case Rotate(_, _, _, _, _) => ApplyRotateKeepsInv(d, e);
    case RevokeFamily(f, at) => RestampKeepsInv(d, FamilyRevoked(d.rows, f, at), at);
    case RevokeAllForUser(u, at) => RestampKeepsInv(d, UserRevoked(d.rows, u, at), at);
    case Prune(grace, at) => PruneKeepsInv(d, at - grace, at);
  }
}
