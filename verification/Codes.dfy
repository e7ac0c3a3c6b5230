/** The otp_codes table of internal/store/otp.go, and the map from keys to current codes it refines. */
module Codes {
  import opened Prelude

  const MAX_OTP_ATTEMPTS: nat := 5

  datatype Purpose = LoginOtp | EmailVerify | PasswordReset

  /** Emailed links are looked up by the token alone. */
  predicate Emailed(p: Purpose) {
    p != LoginOtp
  }

  datatype Key = Key(identifier: string, purpose: Purpose)

  type Id = nat

  /** `secret` stands for its digest. */
  datatype Code = Code(key: Key, secret: string, attempts: nat, expiresAt: Time, consumedAt: Option<Time>, createdAt: Time)

  type Rows = map<Id, Code>

  /** The table, every id ever inserted, every emailed token ever issued and the latest clock reading. */
  datatype Db = Db(rows: Rows, born: set<Id>, links: set<(Purpose, string)>, clock: Time)

  function EmptyDb(now: Time): Db {
    Db(map[], {}, {}, now)
  }

  datatype Event =
    /** `missed` are rows the superseding UPDATE does not see: another transaction inserted them and had not
        committed when the UPDATE took its snapshot. */
    | Issue(key: Key, secret: string, ttl: Time, id: Id, missed: set<Id>, at: Time)
    /** ConsumeCode: the caller names the key and guesses the code. */
    | Guess(key: Key, secret: string, at: Time)
    /** ConsumeToken: the token finds the row. */
    | Redeem(purpose: Purpose, secret: string, at: Time)
    | Prune(grace: nat, at: Time)

  datatype Reply = Issued | Accepted | Redeemed(identifier: string) | CodeInvalid | CodeAttempts | Pruned

  // --- The table ---------------------------------------------------------------------------------

  ghost predicate Outstanding(rows: Rows, key: Key, id: Id) {
    id in rows && rows[id].key == key && rows[id].consumedAt.None?
  }

  /** ORDER BY created_at DESC LIMIT 1 among the outstanding rows of the key. */
  ghost predicate Newest(rows: Rows, key: Key, id: Id) {
    Outstanding(rows, key, id) && forall j :: Outstanding(rows, key, j) ==> rows[j].createdAt <= rows[id].createdAt
  }

  ghost function Current(rows: Rows, key: Key): Option<Id> {
    if exists id :: Newest(rows, key, id) then
      var id :| Newest(rows, key, id);
      Some(id)
    else
      None
  }

  ghost predicate HoldsToken(rows: Rows, p: Purpose, secret: string, id: Id) {
    id in rows && rows[id].key.purpose == p && rows[id].secret == secret && rows[id].consumedAt.None?
  }

  ghost function RowOfToken(rows: Rows, p: Purpose, secret: string): Option<Id> {
    if exists id :: HoldsToken(rows, p, secret, id) then
      var id :| HoldsToken(rows, p, secret, id);
      Some(id)
    else
      None
  }

  function Superseded(rows: Rows, key: Key, missed: set<Id>, now: Time): Rows {
    map i | i in rows ::
      if rows[i].key == key && rows[i].consumedAt.None? && i !in missed then rows[i].(consumedAt := Some(now)) else rows[i]
  }

  function Missed(c: Code, now: Time): Code {
    if c.attempts + 1 >= MAX_OTP_ATTEMPTS then
      c.(attempts := c.attempts + 1, consumedAt := Some(now))
    else
      c.(attempts := c.attempts + 1)
  }

  /** The clock does not run backwards, inserted ids are new, and so are emailed tokens. */
  ghost predicate Possible(d: Db, e: Event) {
    && d.clock <= e.at
    && (e.Issue? ==> e.id !in d.born && (Emailed(e.key.purpose) ==> (e.key.purpose, e.secret) !in d.links))
    && (e.Redeem? ==> Emailed(e.purpose))
  }

  /** No two IssueCode transactions overlap. */
  ghost predicate Enabled(d: Db, e: Event) {
    Possible(d, e) && (e.Issue? ==> e.missed == {})
  }

  function AfterIssue(d: Db, e: Event): Db
    requires e.Issue?
  {
    d.(rows := Superseded(d.rows, e.key, e.missed, e.at)[e.id := Code(e.key, e.secret, 0, e.at + e.ttl, None, e.at)],
       born := d.born + {e.id}, links := d.links + {(e.key.purpose, e.secret)}, clock := e.at)
  }

  ghost function ApplyGuess(d: Db, e: Event): (Db, Reply)
    requires e.Guess?
  {
    match Current(d.rows, e.key)
    case None => (d.(clock := e.at), CodeInvalid)
    case Some(i) =>
      var c := d.rows[i];
      if c.expiresAt < e.at then (d.(clock := e.at), CodeInvalid)
      else if c.attempts >= MAX_OTP_ATTEMPTS then (d.(clock := e.at), CodeAttempts)
      else if c.secret != e.secret then
        (d.(rows := d.rows[i := Missed(c, e.at)], clock := e.at),
         if c.attempts + 1 >= MAX_OTP_ATTEMPTS then CodeAttempts else CodeInvalid)
      else
        (d.(rows := d.rows[i := c.(consumedAt := Some(e.at))], clock := e.at), Accepted)
  }

  ghost function ApplyRedeem(d: Db, e: Event): (Db, Reply)
    requires e.Redeem?
  {
    match RowOfToken(d.rows, e.purpose, e.secret)
    case None => (d.(clock := e.at), CodeInvalid)
    case Some(i) =>
      if d.rows[i].expiresAt < e.at then (d.(clock := e.at), CodeInvalid)
      else
        (d.(rows := d.rows[i := d.rows[i].(consumedAt := Some(e.at))], clock := e.at),
         Redeemed(d.rows[i].key.identifier))
  }

  function Kept(rows: Rows, cutoff: Time): Rows {
    map i | i in rows && cutoff <= rows[i].expiresAt :: rows[i]
  }

  ghost function Apply(d: Db, e: Event): (Db, Reply) {
    match e
    case Issue(_, _, _, _, _, _) => (AfterIssue(d, e), Issued)
    case Guess(_, _, _) => ApplyGuess(d, e)
    case Redeem(_, _, _) => ApplyRedeem(d, e)
    case Prune(grace, at) => (d.(rows := Kept(d.rows, at - grace), clock := at), Pruned)
  }

  // --- The map it refines ---------------------------------------------------------------------------

  /** The one code that can be redeemed for a key. */
  datatype Slot = Slot(id: Id, secret: string, attempts: nat, expiresAt: Time)

  type Slots = map<Key, Slot>

  ghost predicate HoldsSlot(m: Slots, p: Purpose, secret: string, k: Key) {
    k in m && k.purpose == p && m[k].secret == secret
  }

  /** No rows, no stamps, no pruning: issuing replaces the code of the key, and a code leaves the map when
      it is redeemed or missed for the fifth time. */
  ghost function Simple(m: Slots, e: Event): (Slots, Reply) {
    match e
    case Issue(k, secret, ttl, id, _, at) => (m[k := Slot(id, secret, 0, at + ttl)], Issued)
    case Guess(k, secret, at) =>
      if k !in m || m[k].expiresAt < at then (m, CodeInvalid)
      else if m[k].secret == secret then (m - {k}, Accepted)
      else if m[k].attempts == 4 then (m - {k}, CodeAttempts)
      else (m[k := m[k].(attempts := m[k].attempts + 1)], CodeInvalid)
    case Redeem(p, secret, at) =>
      if exists k :: HoldsSlot(m, p, secret, k) then
        var k :| HoldsSlot(m, p, secret, k);
        if m[k].expiresAt < at then (m, CodeInvalid) else (m - {k}, Redeemed(k.identifier))
      else
        (m, CodeInvalid)
    case Prune(_, _) => (m, Pruned)
  }

  /** The current code of a key is its outstanding row, or has expired and been pruned. */
  ghost predicate SlotMatches(d: Db, k: Key, s: Slot) {
    && s.attempts < MAX_OTP_ATTEMPTS
    && s.id in d.born
    && if s.id in d.rows then
         && d.rows[s.id] == Code(k, s.secret, s.attempts, s.expiresAt, None, d.rows[s.id].createdAt)
       else
         s.expiresAt < d.clock
  }

  /** The forward simulation: every outstanding row is the current code of its key, and conversely. */
  ghost predicate Refines(d: Db, m: Slots) {
    && d.rows.Keys <= d.born
    && (forall i :: i in d.rows && d.rows[i].consumedAt.None? ==> d.rows[i].key in m && m[d.rows[i].key].id == i)
    && (forall k :: k in m ==> SlotMatches(d, k, m[k]))
    && (forall k :: k in m ==> (k.purpose, m[k].secret) in d.links)
    && (forall k, l :: k in m && l in m && Emailed(k.purpose) && k.purpose == l.purpose && m[k].secret == m[l].secret ==> k == l)
  }

  lemma CurrentIsSlot(d: Db, m: Slots, k: Key)
    requires Refines(d, m)
    ensures k in m && m[k].id in d.rows ==> Current(d.rows, k) == Some(m[k].id)
    ensures k !in m || m[k].id !in d.rows ==> Current(d.rows, k) == None
  {
    if k in m && m[k].id in d.rows {
      assert SlotMatches(d, k, m[k]);
      assert Newest(d.rows, k, m[k].id);
    }
  }

  lemma IssueRefines(d: Db, m: Slots, e: Event)
    requires Refines(d, m) && Enabled(d, e) && e.Issue?
    ensures Refines(AfterIssue(d, e), Simple(m, e).0)
  {
    var d', m' := AfterIssue(d, e), Simple(m, e).0;
    forall k | k in m' ensures SlotMatches(d', k, m'[k]) {
      assert k != e.key ==> SlotMatches(d, k, m[k]);
    }
  }

  /** Consuming the current row of a key takes the key out of the map. */
  lemma ConsumingRefines(d: Db, m: Slots, k: Key, spent: Code, now: Time)
    requires Refines(d, m) && d.clock <= now && k in m && m[k].id in d.rows
    requires spent.key == k && spent.consumedAt.Some?
    ensures Refines(d.(rows := d.rows[m[k].id := spent], clock := now), m - {k})
  {
    var d', m' := d.(rows := d.rows[m[k].id := spent], clock := now), m - {k};
    assert SlotMatches(d, k, m[k]);
    forall l | l in m' ensures SlotMatches(d', l, m'[l]) {
      assert SlotMatches(d, l, m[l]);
    }
  }

  lemma CountingRefines(d: Db, m: Slots, k: Key, now: Time)
    requires Refines(d, m) && d.clock <= now && k in m && m[k].id in d.rows && m[k].attempts + 1 < MAX_OTP_ATTEMPTS
    ensures Refines(d.(rows := d.rows[m[k].id := d.rows[m[k].id].(attempts := m[k].attempts + 1)], clock := now),
                    m[k := m[k].(attempts := m[k].attempts + 1)])
  {
    var d' := d.(rows := d.rows[m[k].id := d.rows[m[k].id].(attempts := m[k].attempts + 1)], clock := now);
    var m' := m[k := m[k].(attempts := m[k].attempts + 1)];
    assert SlotMatches(d, k, m[k]);
    forall l | l in m' ensures SlotMatches(d', l, m'[l]) {
      assert SlotMatches(d, l, m[l]);
    }
  }

  lemma WaitingRefines(d: Db, m: Slots, now: Time)
    requires Refines(d, m) && d.clock <= now
    ensures Refines(d.(clock := now), m)
  {
    forall l | l in m ensures SlotMatches(d.(clock := now), l, m[l]) {
      assert SlotMatches(d, l, m[l]);
    }
  }

  lemma SlotOf(d: Db, m: Slots, k: Key)
    requires Refines(d, m) && k in m
    ensures SlotMatches(d, k, m[k])
  {
  }

  lemma GuessRefines(d: Db, m: Slots, e: Event)
    requires Refines(d, m) && Enabled(d, e) && e.Guess?
    ensures Refines(ApplyGuess(d, e).0, Simple(m, e).0)
    ensures ApplyGuess(d, e).1 == Simple(m, e).1
  {
    hide Refines, Current;
    CurrentIsSlot(d, m, e.key);
    WaitingRefines(d, m, e.at);
    if e.key in m {
      SlotOf(d, m, e.key);
      var s := m[e.key];
      if s.id in d.rows && e.at <= s.expiresAt {
        var c := d.rows[s.id];
        if s.secret == e.secret {
          ConsumingRefines(d, m, e.key, c.(consumedAt := Some(e.at)), e.at);
        } else if s.attempts + 1 >= MAX_OTP_ATTEMPTS {
          ConsumingRefines(d, m, e.key, Missed(c, e.at), e.at);
        } else {
          CountingRefines(d, m, e.key, e.at);
        }
      }
    }
  }

  /** The token of a redeemable row finds it through the map, and no other token finds anything. */
  lemma TokenIsSlot(d: Db, m: Slots, p: Purpose, secret: string)
    requires Refines(d, m) && Emailed(p)
    ensures forall k :: HoldsSlot(m, p, secret, k) && m[k].id in d.rows ==> RowOfToken(d.rows, p, secret) == Some(m[k].id)
    ensures var r := RowOfToken(d.rows, p, secret);
      r.Some? ==> r.value in d.rows && HoldsSlot(m, p, secret, d.rows[r.value].key) && m[d.rows[r.value].key].id == r.value
  {
    forall k | HoldsSlot(m, p, secret, k) && m[k].id in d.rows
      ensures HoldsToken(d.rows, p, secret, m[k].id)
    {
      SlotOf(d, m, k);
    }
    var r := RowOfToken(d.rows, p, secret);
    if r.Some? {
      SlotOf(d, m, d.rows[r.value].key);
    }
  }

  lemma RedeemRefines(d: Db, m: Slots, e: Event)
    requires Refines(d, m) && Enabled(d, e) && e.Redeem?
    ensures Refines(ApplyRedeem(d, e).0, Simple(m, e).0)
    ensures ApplyRedeem(d, e).1 == Simple(m, e).1
  {
    hide RowOfToken;
    TokenIsSlot(d, m, e.purpose, e.secret);
    WaitingRefines(d, m, e.at);
    if k :| HoldsSlot(m, e.purpose, e.secret, k) {
      SlotOf(d, m, k);
      if m[k].id in d.rows && e.at <= m[k].expiresAt {
        ConsumingRefines(d, m, k, d.rows[m[k].id].(consumedAt := Some(e.at)), e.at);
      }
    }
  }

  lemma PruneRefines(d: Db, m: Slots, e: Event)
    requires Refines(d, m) && Enabled(d, e) && e.Prune?
    ensures Refines(Apply(d, e).0, m)
  {
    var d' := Apply(d, e).0;
    forall k | k in m ensures SlotMatches(d', k, m[k]) {
      assert SlotMatches(d, k, m[k]);
    }
  }

  /** Each operation on the table does to the map, and replies, what the simple operation does; pruning
      does nothing at all. */
  lemma StepRefines(d: Db, m: Slots, e: Event)
    requires Refines(d, m) && Enabled(d, e)
    ensures Refines(Apply(d, e).0, Simple(m, e).0)
    ensures Apply(d, e).1 == Simple(m, e).1
  {
    hide Refines;
    match e
    case Issue(_, _, _, _, _, _) => IssueRefines(d, m, e);
    case Guess(_, _, _) => GuessRefines(d, m, e);
    case Redeem(_, _, _) => RedeemRefines(d, m, e);
    case Prune(_, _) => PruneRefines(d, m, e);
  }
}
