/** Which account a provider login lands on: internal/linking/linking.go over identities.go and users.go. */
module Accounts {
  import opened Prelude

  /** (provider, subject), UNIQUE in the identities table. */
  datatype Pair = Pair(provider: string, subject: string)

  datatype Profile = Profile(subject: string, email: string, emailVerified: bool)

  /** `origin` records the identity inserted in the same transaction, if any. */
  datatype User = User(email: string, verifiedAt: Option<Time>, origin: Option<Pair>)

  /** How an identity row came about. */
  datatype Via = WithNewUser | ByVerifiedEmail | ByRequest

  datatype Identity = Identity(userId: UserId, email: string, emailVerified: bool, via: Via)

  datatype Tables = Tables(users: map<UserId, User>, identities: map<Pair, Identity>)

  ghost predicate HasEmail(t: Tables, u: UserId, email: string) {
    u in t.users && t.users[u].email == email
  }

  ghost function UserByEmail(t: Tables, email: string): Option<UserId> {
    if exists u :: HasEmail(t, u, email) then
      var u :| HasEmail(t, u, email);
      Some(u)
    else
      None
  }

  /** users.email is UNIQUE, and every identity belongs to a user. */
  ghost predicate TablesInv(t: Tables) {
    && (forall u, v :: u in t.users && v in t.users && t.users[u].email == t.users[v].email ==> u == v)
    && (forall k :: k in t.identities ==> t.identities[k].userId in t.users)
  }

  lemma UserByEmailUnique(t: Tables, u: UserId, email: string)
    requires TablesInv(t)
    ensures UserByEmail(t, email) == Some(u) <==> HasEmail(t, u, email)
  {
    if HasEmail(t, u, email) {
      assert HasEmail(t, UserByEmail(t, email).value, email);
    }
  }

  /** INSERT INTO users: refused when the address is taken. */
  ghost predicate EmailFree(t: Tables, email: string) {
    forall u :: !HasEmail(t, u, email)
  }

  lemma NoOwnerIsFree(t: Tables, email: string)
    ensures UserByEmail(t, email).None? <==> EmailFree(t, email)
    ensures UserByEmail(t, email).Some? ==> HasEmail(t, UserByEmail(t, email).value, email)
  {
    if u :| HasEmail(t, u, email) {
      assert UserByEmail(t, email).Some?;
    }
  }

  function WithUser(t: Tables, id: UserId, u: User): Tables {
    t.(users := t.users[id := u])
  }

  function WithIdentity(t: Tables, k: Pair, i: Identity): Tables {
    t.(identities := t.identities[k := i])
  }

  /** The state after the one transaction of CreateUserWithIdentity. */
  function WithBoth(t: Tables, id: UserId, k: Pair, p: Profile, now: Time): Tables {
    Tables(t.users[id := User(p.email, if p.emailVerified then Some(now) else None, Some(k))],
           t.identities[k := Identity(id, p.email, p.emailVerified, WithNewUser)])
  }

  function Marked(t: Tables, id: UserId, now: Time): Tables {
    if id in t.users then t.(users := t.users[id := t.users[id].(verifiedAt := Coalesce(t.users[id].verifiedAt, now))])
    else t
  }

  datatype Outcome = Existing | Linked | Created | Attached
  datatype Refusal = NoSubject | NotFound | ManualLinkRequired | AlreadyLinkedElsewhere | Conflict
  datatype Result = Resolved(userId: UserId, outcome: Outcome) | Refused(why: Refusal)

  class Directory {
    var t: Tables

    constructor ()
      ensures t == Tables(map[], map[])
    {
      t := Tables(map[], map[]);
    }

    method CreateUser(email: string, id: UserId) returns (ok: bool)
      requires TablesInv(t) && id !in t.users
      modifies this
      ensures TablesInv(t)
      ensures ok <==> EmailFree(old(t), email)
      ensures t == if ok then old(t).(users := old(t).users[id := User(email, None, None)]) else old(t)
    {
      if u :| u in t.users && t.users[u].email == email {
        assert HasEmail(t, u, email);
        return false;
      }
      t := t.(users := t.users[id := User(email, None, None)]);
      return true;
    }

    method CreateIdentity(k: Pair, i: Identity) returns (ok: bool)
      requires TablesInv(t)
      modifies this
      ensures TablesInv(t)
      ensures ok <==> k !in old(t).identities && i.userId in old(t).users
      ensures t == if ok then old(t).(identities := old(t).identities[k := i]) else old(t)
    {
      if k in t.identities || i.userId !in t.users {
        return false;
      }
      t := t.(identities := t.identities[k := i]);
      return true;
    }

    /** Both rows or neither: losing on either unique key leaves no orphan. */
    method CreateUserWithIdentity(k: Pair, p: Profile, id: UserId, now: Time) returns (ok: bool)
      requires TablesInv(t) && id !in t.users
      modifies this
      ensures TablesInv(t)
      ensures ok <==> EmailFree(old(t), p.email) && k !in old(t).identities
      ensures ok ==>
        && t.users == old(t).users[id := User(p.email, if p.emailVerified then Some(now) else None, Some(k))]
        && t.identities == old(t).identities[k := Identity(id, p.email, p.emailVerified, WithNewUser)]
      ensures !ok ==> t == old(t)
    {
      var before := t;
      var verifiedAt := if p.emailVerified then Some(now) else None;
      if u :| u in t.users && t.users[u].email == p.email {
        assert HasEmail(t, u, p.email);
        return false;
      }
      t := t.(users := t.users[id := User(p.email, verifiedAt, Some(k))]);
      if k in t.identities {
        t := before;  // rollback
        return false;
      }
      t := t.(identities := t.identities[k := Identity(id, p.email, p.emailVerified, WithNewUser)]);
      return true;
    }

    method MarkEmailVerified(id: UserId, now: Time)
      requires TablesInv(t)
      modifies this
      ensures TablesInv(t) && t == Marked(old(t), id, now)
      ensures t.identities == old(t).identities && t.users.Keys == old(t).users.Keys
      ensures forall u :: u in t.users ==>
        && t.users[u].email == old(t).users[u].email && t.users[u].origin == old(t).users[u].origin
        && (t.users[u].verifiedAt.Some? <==> u == id || old(t).users[u].verifiedAt.Some?)
        && (u != id || old(t).users[u].verifiedAt.Some? ==> t.users[u].verifiedAt == old(t).users[u].verifiedAt)
    {
      if id in t.users {
        t := t.(users := t.users[id := t.users[id].(verifiedAt := Coalesce(t.users[id].verifiedAt, now))]);
      }
    }
  }

  /** What Resolve amounts to when nothing comes in between. */
  ghost function Resolution(t: Tables, provider: string, p: Profile, newId: UserId, now: Time): (Tables, Result) {
    var k, owner := Pair(provider, p.subject), UserByEmail(t, p.email);
    if p.subject == "" then (t, Refused(NoSubject))
    else if k in t.identities then (t, Resolved(t.identities[k].userId, Existing))
    else if owner.None? then (WithBoth(t, newId, k, p, now), Resolved(newId, Created))
    else if p.email == "" then (t, Refused(Conflict))
    else if p.emailVerified && owner.value in t.users && t.users[owner.value].verifiedAt.Some? then
      (WithIdentity(t, k, Identity(owner.value, p.email, true, ByVerifiedEmail)), Resolved(owner.value, Linked))
    else (t, Refused(ManualLinkRequired))
  }

  /** Resolve, undisturbed: the whole decision table. */
  method Resolve(s: Directory, provider: string, p: Profile, newId: UserId, now: Time) returns (r: Result)
    requires TablesInv(s.t) && newId !in s.t.users
    modifies s
    ensures TablesInv(s.t)
    ensures (s.t, r) == Resolution(old(s.t), provider, p, newId, now)
    ensures p.subject == "" ==> r == Refused(NoSubject) && s.t == old(s.t)
    ensures p.subject != "" && Pair(provider, p.subject) in old(s.t).identities ==>
      r == Resolved(old(s.t).identities[Pair(provider, p.subject)].userId, Existing) && s.t == old(s.t)
    ensures p.subject != "" && Pair(provider, p.subject) !in old(s.t).identities && EmailFree(old(s.t), p.email) ==>
      && r == Resolved(newId, Created)
      && s.t.users == old(s.t).users[newId := User(p.email, if p.emailVerified then Some(now) else None, Some(Pair(provider, p.subject)))]
      && s.t.identities == old(s.t).identities[Pair(provider, p.subject) := Identity(newId, p.email, p.emailVerified, WithNewUser)]
    ensures p.subject != "" && p.email != "" && Pair(provider, p.subject) !in old(s.t).identities ==>
      forall u :: HasEmail(old(s.t), u, p.email) ==>
        if p.emailVerified && old(s.t).users[u].verifiedAt.Some? then
          && r == Resolved(u, Linked)
          && s.t == old(s.t).(identities := old(s.t).identities[Pair(provider, p.subject) := Identity(u, p.email, true, ByVerifiedEmail)])
        else
          r == Refused(ManualLinkRequired) && s.t == old(s.t)
    // A second account without an address loses on the unique key.
    ensures p.subject != "" && p.email == "" && Pair(provider, p.subject) !in old(s.t).identities ==>
      !EmailFree(old(s.t), "") ==> r == Refused(Conflict) && s.t == old(s.t)
  {
    if p.subject == "" {
      return Refused(NoSubject);
    }
    var k := Pair(provider, p.subject);
    if k in s.t.identities {
      return Resolved(s.t.identities[k].userId, Existing);
    }
    if p.email != "" {
      if owner :| owner in s.t.users && s.t.users[owner].email == p.email {
        assert HasEmail(s.t, owner, p.email);
        if !p.emailVerified || s.t.users[owner].verifiedAt.None? {
          return Refused(ManualLinkRequired);
        }
        var attached := s.CreateIdentity(k, Identity(owner, p.email, p.emailVerified, ByVerifiedEmail));
        return Resolved(owner, Linked);
      }
    }
    var ok := s.CreateUserWithIdentity(k, p, newId, now);
    r := if ok then Resolved(newId, Created) else Refused(Conflict);
  }

  /** A profile that resolves to a new user leaves a user with its address, verified exactly if the provider vouched,
      and an identity with its data, and changes nothing else. */
  lemma CreatedExactly(t: Tables, provider: string, p: Profile, newId: UserId, now: Time, u: UserId)
    requires TablesInv(t) && newId !in t.users
    ensures Resolution(t, provider, p, newId, now).1 == Resolved(u, Created) <==>
            u == newId && p.subject != "" && Pair(provider, p.subject) !in t.identities && EmailFree(t, p.email)
    ensures Resolution(t, provider, p, newId, now).1 == Resolved(u, Created) ==>
      var t', k := Resolution(t, provider, p, newId, now).0, Pair(provider, p.subject);
      && t'.users.Keys == t.users.Keys + {u} && (forall v :: v in t.users ==> t'.users[v] == t.users[v])
      && t'.identities.Keys == t.identities.Keys + {k} && (forall l :: l in t.identities ==> t'.identities[l] == t.identities[l])
      && t'.users[u].email == p.email && (t'.users[u].verifiedAt == if p.emailVerified then Some(now) else None)
      && t'.identities[k].userId == u && t'.identities[k].email == p.email && t'.identities[k].emailVerified == p.emailVerified
  {
    NoOwnerIsFree(t, p.email);
  }

  /** A profile of an unknown pair whose address has an owner is linked to the owner exactly if the provider vouches
      for the address and the owner has proved it, and is otherwise refused. */
  lemma LinkedExactly(t: Tables, provider: string, p: Profile, newId: UserId, now: Time, owner: UserId)
    requires TablesInv(t) && p.subject != "" && p.email != "" && Pair(provider, p.subject) !in t.identities && HasEmail(t, owner, p.email)
    ensures Resolution(t, provider, p, newId, now).1 ==
            if p.emailVerified && t.users[owner].verifiedAt.Some? then Resolved(owner, Linked) else Refused(ManualLinkRequired)
    ensures Resolution(t, provider, p, newId, now).0 ==
            if p.emailVerified && t.users[owner].verifiedAt.Some? then
              t.(identities := t.identities[Pair(provider, p.subject) := Identity(owner, p.email, true, ByVerifiedEmail)])
            else t
  {
    UserByEmailUnique(t, owner, p.email);
  }

  /** What LinkToUser amounts to when nothing comes in between. */
  function Attachment(t: Tables, userId: UserId, provider: string, p: Profile): (Tables, Result) {
    var k := Pair(provider, p.subject);
    if p.subject == "" then (t, Refused(NoSubject))
    else if k in t.identities then
      (t, if t.identities[k].userId == userId then Resolved(userId, Existing) else Refused(AlreadyLinkedElsewhere))
    else if userId !in t.users then (t, Refused(Conflict))
    else (WithIdentity(t, k, Identity(userId, p.email, p.emailVerified, ByRequest)), Resolved(userId, Attached))
  }

  /** Neither gives an address to a second user, loses a user or leaves an identity without one. */
  lemma ResolutionKeepsTables(t: Tables, provider: string, p: Profile, newId: UserId, now: Time)
    requires TablesInv(t) && newId !in t.users
    ensures var r := Resolution(t, provider, p, newId, now);
      TablesInv(r.0) && t.users.Keys <= r.0.users.Keys && (r.1.Resolved? ==> r.1.userId in r.0.users)
  {
    NoOwnerIsFree(t, p.email);
    if UserByEmail(t, p.email).None? {
      forall u | u in t.users ensures t.users[u].email != p.email {
        assert !HasEmail(t, u, p.email);
      }
    }
  }

  lemma AttachmentKeepsTables(t: Tables, userId: UserId, provider: string, p: Profile)
    requires TablesInv(t)
    ensures var r := Attachment(t, userId, provider, p);
      TablesInv(r.0) && t.users.Keys <= r.0.users.Keys && (r.1.Resolved? ==> r.1.userId == userId && userId in r.0.users)
  {
  }

  lemma WithUserKeepsTables(t: Tables, id: UserId, email: string)
    requires TablesInv(t) && id !in t.users && EmailFree(t, email)
    ensures TablesInv(WithUser(t, id, User(email, None, None)))
  {
    forall u | u in t.users ensures t.users[u].email != email {
      assert !HasEmail(t, u, email);
    }
  }

  lemma MarkedKeepsTables(t: Tables, id: UserId, now: Time)
    requires TablesInv(t)
    ensures TablesInv(Marked(t, id, now)) && Marked(t, id, now).users.Keys == t.users.Keys
  {
  }

  /** LinkToUser, undisturbed. */
  method LinkToUser(s: Directory, userId: UserId, provider: string, p: Profile) returns (r: Result)
    requires TablesInv(s.t)
    modifies s
    ensures TablesInv(s.t)
    ensures (s.t, r) == Attachment(old(s.t), userId, provider, p)
    ensures p.subject == "" ==> r == Refused(NoSubject) && s.t == old(s.t)
    ensures r.Resolved? ==>
      && r.userId == userId && Pair(provider, p.subject) in s.t.identities
      && s.t.identities[Pair(provider, p.subject)].userId == userId
    ensures p.subject != "" && Pair(provider, p.subject) in old(s.t).identities ==>
      && s.t == old(s.t)
      && r == if old(s.t).identities[Pair(provider, p.subject)].userId == userId then Resolved(userId, Existing)
              else Refused(AlreadyLinkedElsewhere)
    ensures p.subject != "" && Pair(provider, p.subject) !in old(s.t).identities && userId !in old(s.t).users ==>
      r == Refused(Conflict) && s.t == old(s.t)
    ensures p.subject != "" && Pair(provider, p.subject) !in old(s.t).identities && userId in old(s.t).users ==>
      && r == Resolved(userId, Attached)
      && s.t == old(s.t).(identities :=
           old(s.t).identities[Pair(provider, p.subject) := Identity(userId, p.email, p.emailVerified, ByRequest)])
  {
    if p.subject == "" {
      return Refused(NoSubject);
    }
    var k := Pair(provider, p.subject);
    if k in s.t.identities {
      if s.t.identities[k].userId == userId {
        return Resolved(userId, Existing);
      }
      return Refused(AlreadyLinkedElsewhere);
    }
    var ok := s.CreateIdentity(k, Identity(userId, p.email, p.emailVerified, ByRequest));
    r := if ok then Resolved(userId, Attached) else Refused(Conflict);
  }
}

/** The same calls interleaved: each store call is one step, and anything may run in between. */
module LinkingRace {
  import opened Prelude
  import opened Accounts

  type Pid = nat

  datatype Request =
    | Login(provider: string, profile: Profile)
    | Link(userId: UserId, provider: string, profile: Profile)

  function PairOf(r: Request): Pair {
    Pair(r.provider, r.profile.subject)
  }

  /** Where a call stands: the store call it is about to make, or its result. */
  datatype Pc =
    | IdentityLookup(req: Request)
    | UserLoad(req: Request, userId: UserId)
    | EmailLookup(req: Request)
    | CreateBoth(req: Request)
    | Attach(req: Request, userId: UserId)
    | Done(req: Request, result: Result)

  datatype World = World(t: Tables, pcs: map<Pid, Pc>, clock: Time)

  datatype Step =
    | Arrive(pid: Pid, req: Request, at: Time)
    /** The call makes its next store call. `newId` is the user id it would insert. */
    | Advance(pid: Pid, newId: UserId, at: Time)
    /** From other handlers: registration, and proof of an address. */
    | Register(email: string, newId: UserId, at: Time)
    | MarkVerified(userId: UserId, at: Time)

  ghost predicate Enabled(w: World, s: Step) {
    && w.clock <= s.at
    && match s
       case Arrive(pid, _, _) => pid !in w.pcs
       case Advance(pid, newId, _) => pid in w.pcs && !w.pcs[pid].Done? && newId !in w.t.users
       case Register(_, newId, _) => newId !in w.t.users
       case MarkVerified(_, _) => true
  }

  ghost function AdvanceIdentity(t: Tables, r: Request): Pc {
    if r.profile.subject == "" then Done(r, Refused(NoSubject))
    else if PairOf(r) in t.identities then
      if r.Login? then UserLoad(r, t.identities[PairOf(r)].userId)
      else if t.identities[PairOf(r)].userId == r.userId then Done(r, Resolved(r.userId, Existing))
      else Done(r, Refused(AlreadyLinkedElsewhere))
    else if r.Login? then EmailLookup(r)
    else Attach(r, r.userId)
  }

  /** The owner is read here, and judged on what was read. */
  ghost function AdvanceEmail(t: Tables, r: Request): Pc {
    if r.profile.email == "" || UserByEmail(t, r.profile.email).None? then CreateBoth(r)
    else
      var owner := UserByEmail(t, r.profile.email).value;
      if !r.profile.emailVerified || !(owner in t.users && t.users[owner].verifiedAt.Some?) then
        Done(r, Refused(ManualLinkRequired))
      else
        Attach(r, owner)
  }

  function Inserted(r: Request, userId: UserId): Identity {
    Identity(userId, r.profile.email, r.profile.emailVerified, if r.Login? then ByVerifiedEmail else ByRequest)
  }

  ghost predicate CanCreate(t: Tables, r: Request) {
    EmailFree(t, r.profile.email) && PairOf(r) !in t.identities
  }

  ghost predicate CanAttach(t: Tables, r: Request, userId: UserId) {
    PairOf(r) !in t.identities && userId in t.users
  }

  ghost function AdvanceTables(t: Tables, pc: Pc, newId: UserId, at: Time): Tables {
    match pc
    case CreateBoth(r) => if CanCreate(t, r) then WithBoth(t, newId, PairOf(r), r.profile, at) else t
    case Attach(r, u) => if CanAttach(t, r, u) then WithIdentity(t, PairOf(r), Inserted(r, u)) else t
    case _ => t
  }

  ghost function AdvancePc(t: Tables, pc: Pc, newId: UserId): Pc {
    match pc
    case IdentityLookup(r) => AdvanceIdentity(t, r)
    case UserLoad(r, u) => Done(r, if u in t.users then Resolved(u, Existing) else Refused(NotFound))
    case EmailLookup(r) => AdvanceEmail(t, r)
    case CreateBoth(r) => Done(r, if CanCreate(t, r) then Resolved(newId, Created) else Refused(Conflict))
    case Attach(r, u) =>
      Done(r, if CanAttach(t, r, u) then Resolved(u, if r.Login? then Linked else Attached) else Refused(Conflict))
    case Done(_, _) => pc
  }

  ghost function Next(w: World, s: Step): World
    requires Enabled(w, s)
  {
    match s
    case Arrive(pid, r, at) => World(w.t, w.pcs[pid := IdentityLookup(r)], at)
    case Advance(pid, newId, at) =>
      World(AdvanceTables(w.t, w.pcs[pid], newId, at), w.pcs[pid := AdvancePc(w.t, w.pcs[pid], newId)], at)
    case Register(email, newId, at) =>
      World(if EmailFree(w.t, email) then WithUser(w.t, newId, User(email, None, None)) else w.t, w.pcs, at)
    case MarkVerified(u, at) => World(Marked(w.t, u, at), w.pcs, at)
  }

  function Start(now: Time): World {
    World(Tables(map[], map[]), map[], now)
  }

  ghost predicate ValidRun(w: World, steps: seq<Step>)
    decreases |steps|
  {
    steps == [] || (Enabled(w, steps[0]) && ValidRun(Next(w, steps[0]), steps[1..]))
  }

  ghost function Final(w: World, steps: seq<Step>): World
    requires ValidRun(w, steps)
    decreases |steps|
  {
    if steps == [] then w else Final(Next(w, steps[0]), steps[1..])
  }

  // --- One call at a time --------------------------------------------------------------------------

  lemma StepFirst(w: World, s: Step, rest: seq<Step>)
    requires Enabled(w, s) && ValidRun(Next(w, s), rest)
    ensures ValidRun(w, [s] + rest) && Final(w, [s] + rest) == Final(Next(w, s), rest)
  {
    hide Next, Enabled;
    assert ([s] + rest)[1..] == rest;
  }

  /** A call that nobody disturbs, driven until it is done. */
  lemma Drive(w: World, pid: Pid, newId: UserId, at: Time, fuel: nat) returns (steps: seq<Step>)
    requires w.clock <= at && pid in w.pcs && newId !in w.t.users
    requires fuel == Remaining(w.pcs[pid])
    ensures ValidRun(w, steps)
    ensures Final(w, steps).t == Driven(w.t, w.pcs[pid], newId, at).0
    ensures Final(w, steps).pcs == w.pcs[pid := Driven(w.t, w.pcs[pid], newId, at).1]
    decreases fuel
  {
    if w.pcs[pid].Done? {
      steps := [];
    } else {
      var n := Next(w, Advance(pid, newId, at));
      if n.pcs[pid].Done? {
        steps := [];
      } else {
        steps := Drive(n, pid, newId, at, Remaining(n.pcs[pid]));
      }
      StepFirst(w, Advance(pid, newId, at), steps);
      steps := [Advance(pid, newId, at)] + steps;
    }
  }

  /** How many store calls a call still makes at most. */
  function Remaining(pc: Pc): nat {
    match pc
    case IdentityLookup(_) => 3
    case EmailLookup(_) => 2
    case Done(_, _) => 0
    case _ => 1
  }

  /** The tables and the program counter once the call is done. */
  ghost function Driven(t: Tables, pc: Pc, newId: UserId, at: Time): (Tables, Pc)
    decreases Remaining(pc)
  {
    if pc.Done? then (t, pc)
    else Driven(AdvanceTables(t, pc, newId, at), AdvancePc(t, pc, newId), newId, at)
  }

  lemma DrivenResolves(t: Tables, provider: string, p: Profile, newId: UserId, at: Time)
    requires TablesInv(t)
    ensures var r := Resolution(t, provider, p, newId, at);
      Driven(t, IdentityLookup(Login(provider, p)), newId, at) == (r.0, Done(Login(provider, p), r.1))
  {
    var req := Login(provider, p);
    var pc1 := AdvancePc(t, IdentityLookup(req), newId);
    var pc2 := AdvancePc(t, pc1, newId);
    if UserByEmail(t, p.email).Some? {
      UserByEmailUnique(t, UserByEmail(t, p.email).value, p.email);
    }
    assert Driven(t, IdentityLookup(req), newId, at) == Driven(t, pc1, newId, at);
    if pc1.EmailLookup? {
      assert Driven(t, pc1, newId, at) == Driven(t, pc2, newId, at);
      if !pc2.Done? {
        assert Driven(t, pc2, newId, at) == (AdvanceTables(t, pc2, newId, at), AdvancePc(t, pc2, newId));
      }
    } else if pc1.UserLoad? {
      assert Driven(t, pc1, newId, at) == (t, AdvancePc(t, pc1, newId));
    }
  }

  /** The store-call steps of a Resolve that runs alone amount to the decision table. */
  lemma AloneResolves(w: World, pid: Pid, provider: string, p: Profile, newId: UserId, at: Time) returns (steps: seq<Step>)
    requires TablesInv(w.t) && w.clock <= at && pid in w.pcs && newId !in w.t.users
    requires w.pcs[pid] == IdentityLookup(Login(provider, p))
    ensures ValidRun(w, steps)
    ensures Final(w, steps).t == Resolution(w.t, provider, p, newId, at).0
    ensures Final(w, steps).pcs == w.pcs[pid := Done(Login(provider, p), Resolution(w.t, provider, p, newId, at).1)]
  {
    steps := Drive(w, pid, newId, at, 3);
    DrivenResolves(w.t, provider, p, newId, at);
  }

  lemma DrivenAttaches(t: Tables, userId: UserId, provider: string, p: Profile, newId: UserId, at: Time)
    ensures var r := Attachment(t, userId, provider, p);
      Driven(t, IdentityLookup(Link(userId, provider, p)), newId, at) == (r.0, Done(Link(userId, provider, p), r.1))
  {
    var req := Link(userId, provider, p);
    var pc1 := AdvancePc(t, IdentityLookup(req), newId);
    assert Driven(t, IdentityLookup(req), newId, at) == Driven(t, pc1, newId, at);
    if pc1.Attach? {
      assert Driven(t, pc1, newId, at) == (AdvanceTables(t, pc1, newId, at), AdvancePc(t, pc1, newId));
    }
  }

  /** And those of a LinkToUser that runs alone amount to its own. */
  lemma AloneLinks(w: World, pid: Pid, userId: UserId, provider: string, p: Profile, newId: UserId, at: Time) returns (steps: seq<Step>)
    requires w.clock <= at && pid in w.pcs && newId !in w.t.users
    requires w.pcs[pid] == IdentityLookup(Link(userId, provider, p))
    ensures ValidRun(w, steps)
    ensures Final(w, steps).t == Attachment(w.t, userId, provider, p).0
    ensures Final(w, steps).pcs == w.pcs[pid := Done(Link(userId, provider, p), Attachment(w.t, userId, provider, p).1)]
  {
    steps := Drive(w, pid, newId, at, 3);
    DrivenAttaches(w.t, userId, provider, p, newId, at);
  }

  // --- What the tables only ever do ---------------------------------------------------------------

  /** Users stay, keep their address and, once verified, their stamp; identities never change. */
  ghost predicate Grows(t: Tables, t': Tables) {
    && (forall u :: u in t.users ==>
          && u in t'.users
          && t'.users[u].email == t.users[u].email
          && t'.users[u].origin == t.users[u].origin
          && (t.users[u].verifiedAt.Some? ==> t'.users[u].verifiedAt == t.users[u].verifiedAt))
    && (forall k :: k in t.identities ==> k in t'.identities && t'.identities[k] == t.identities[k])
  }

  lemma StepGrows(w: World, s: Step)
    requires Enabled(w, s)
    ensures Grows(w.t, Next(w, s).t)
  {
  }

  lemma StepKeepsTables(w: World, s: Step)
    requires Enabled(w, s) && TablesInv(w.t)
    ensures TablesInv(Next(w, s).t)
  {
    if s.Register? && EmailFree(w.t, s.email) {
      forall u | u in w.t.users ensures w.t.users[u].email != s.email {
        assert !HasEmail(w.t, u, s.email);
      }
    } else if s.Advance? && w.pcs[s.pid].CreateBoth? && CanCreate(w.t, w.pcs[s.pid].req) {
      forall u | u in w.t.users ensures w.t.users[u].email != w.pcs[s.pid].req.profile.email {
        assert !HasEmail(w.t, u, w.pcs[s.pid].req.profile.email);
      }
    }
  }

  // --- What a call has seen stays true -----------------------------------------------------------------

  ghost predicate BoundTo(t: Tables, k: Pair, u: UserId) {
    k in t.identities && t.identities[k].userId == u
  }

  /** The rule for linking by email: the provider vouches for the address, and the user has proved it. */
  ghost predicate SafeLink(t: Tables, p: Profile, u: UserId) {
    p.emailVerified && HasEmail(t, u, p.email) && t.users[u].verifiedAt.Some?
  }

  ghost predicate PcOk(t: Tables, pc: Pc) {
    match pc
    case UserLoad(r, u) => r.Login? && BoundTo(t, PairOf(r), u)
    case EmailLookup(r) => r.Login?
    case CreateBoth(r) => r.Login?
    case Attach(r, u) => if r.Login? then SafeLink(t, r.profile, u) else u == r.userId
    case Done(r, result) =>
      result.Resolved? ==> BoundTo(t, PairOf(r), result.userId) && (r.Link? ==> result.userId == r.userId)
    case _ => true
  }

  /** Identities linked by email were linked safely; users created with an identity have it. */
  ghost predicate HistoryOk(t: Tables) {
    && (forall k :: k in t.identities && t.identities[k].via == ByVerifiedEmail ==>
          SafeLink(t, Profile(k.subject, t.identities[k].email, t.identities[k].emailVerified), t.identities[k].userId))
    && (forall u :: u in t.users && t.users[u].origin.Some? ==> BoundTo(t, t.users[u].origin.value, u))
  }

  ghost predicate WorldInv(w: World) {
    && TablesInv(w.t)
    && HistoryOk(w.t)
    && forall p :: p in w.pcs ==> PcOk(w.t, w.pcs[p])
  }

  lemma GrowthKeepsPc(t: Tables, t': Tables, pc: Pc)
    requires Grows(t, t') && PcOk(t, pc)
    ensures PcOk(t', pc)
  {
  }

  lemma AdvanceKeepsPc(t: Tables, pc: Pc, newId: UserId, at: Time)
    requires TablesInv(t) && PcOk(t, pc)
    ensures PcOk(AdvanceTables(t, pc, newId, at), AdvancePc(t, pc, newId))
  {
    if pc.EmailLookup? && UserByEmail(t, pc.req.profile.email).Some? {
      assert HasEmail(t, UserByEmail(t, pc.req.profile.email).value, pc.req.profile.email);
    }
  }

  lemma ArrivalOk(t: Tables, pc: Pc)
    requires pc.IdentityLookup?
    ensures PcOk(t, pc)
  {
  }

  lemma WithIdentityKeepsHistory(t: Tables, k: Pair, i: Identity)
    requires HistoryOk(t) && k !in t.identities
    requires i.via == ByVerifiedEmail ==> SafeLink(t, Profile(k.subject, i.email, i.emailVerified), i.userId)
    ensures HistoryOk(WithIdentity(t, k, i))
  {
  }

  lemma WithBothKeepsHistory(t: Tables, id: UserId, k: Pair, p: Profile, now: Time)
    requires HistoryOk(t) && id !in t.users && k !in t.identities
    ensures HistoryOk(WithBoth(t, id, k, p, now))
  {
  }

  lemma OtherwiseKeepsHistory(t: Tables, email: string, id: UserId, now: Time)
    requires HistoryOk(t)
    ensures HistoryOk(Marked(t, id, now))
    ensures id !in t.users ==> HistoryOk(WithUser(t, id, User(email, None, None)))
  {
  }

  lemma StepKeepsHistory(w: World, s: Step)
    requires Enabled(w, s) && HistoryOk(w.t)
    requires s.Advance? ==> PcOk(w.t, w.pcs[s.pid])
    ensures HistoryOk(Next(w, s).t)
  {
    hide HistoryOk;
    match s
    case Arrive(_, _, _) =>
    case Advance(pid, newId, at) =>
      var pc := w.pcs[pid];
      if pc.Attach? && CanAttach(w.t, pc.req, pc.userId) {
        WithIdentityKeepsHistory(w.t, PairOf(pc.req), Inserted(pc.req, pc.userId));
      } else if pc.CreateBoth? && CanCreate(w.t, pc.req) {
        WithBothKeepsHistory(w.t, newId, PairOf(pc.req), pc.req.profile, at);
      }
    case Register(email, newId, at) => OtherwiseKeepsHistory(w.t, email, newId, at);
    case MarkVerified(u, at) => OtherwiseKeepsHistory(w.t, "", u, at);
  }

  lemma StepKeepsInv(w: World, s: Step)
    requires Enabled(w, s) && WorldInv(w)
    ensures WorldInv(Next(w, s))
  {
    hide PcOk, TablesInv, HistoryOk, Grows;
    StepKeepsTables(w, s);
    StepKeepsHistory(w, s);
    StepGrows(w, s);
    var n := Next(w, s);
    forall p | p in n.pcs ensures PcOk(n.t, n.pcs[p]) {
      if s.Advance? && p == s.pid {
        AdvanceKeepsPc(w.t, w.pcs[p], s.newId, s.at);
      } else if p in w.pcs {
        GrowthKeepsPc(w.t, n.t, w.pcs[p]);
      } else {
        ArrivalOk(n.t, n.pcs[p]);
      }
    }
  }

  // --- Over every interleaving ---------------------------------------------------------------------------

  ghost predicate Reachable(w: World) {
    exists now: Time, steps: seq<Step> :: ValidRun(Start(now), steps) && Final(Start(now), steps) == w
  }

  lemma {:induction false} RunKeepsInv(w: World, steps: seq<Step>)
    requires WorldInv(w) && ValidRun(w, steps)
    ensures WorldInv(Final(w, steps))
    decreases |steps|
  {
    hide WorldInv, Enabled, Next;
    if steps == [] {
    } else {
      StepKeepsInv(w, steps[0]);
      RunKeepsInv(Next(w, steps[0]), steps[1..]);
    }
  }

  lemma ReachableInv(w: World)
    requires Reachable(w)
    ensures WorldInv(w)
  {
    var now, steps :| ValidRun(Start(now), steps) && Final(Start(now), steps) == w;
    RunKeepsInv(Start(now), steps);
  }

  lemma GrowsTrans(a: Tables, b: Tables, c: Tables)
    requires Grows(a, b) && Grows(b, c)
    ensures Grows(a, c)
  {
  }

  /** Results already returned stay returned, and tables only grow. */
  lemma {:induction false} RunGrows(w: World, steps: seq<Step>)
    requires ValidRun(w, steps)
    ensures Grows(w.t, Final(w, steps).t)
    ensures forall p :: p in w.pcs && w.pcs[p].Done? ==> p in Final(w, steps).pcs && Final(w, steps).pcs[p] == w.pcs[p]
    decreases |steps|
  {
    if steps == [] {
      assert Grows(w.t, w.t);
    } else {
      hide Grows;
      StepGrows(w, steps[0]);
      RunGrows(Next(w, steps[0]), steps[1..]);
      GrowsTrans(w.t, Next(w, steps[0]).t, Final(w, steps).t);
    }
  }

  /** However calls interleave, an identity is attached by email only when the provider vouched for the
      address, the user has that very address, and the user's address is verified at that moment. */
  lemma LinksByEmailAreSafe(w: World, s: Step, r: Request, u: UserId)
    requires Reachable(w) && Enabled(w, s) && s.Advance? && w.pcs[s.pid] == Attach(r, u) && r.Login?
    ensures SafeLink(w.t, r.profile, u)
  {
    hide TablesInv, HistoryOk;
    ReachableInv(w);
    assert PcOk(w.t, w.pcs[s.pid]);
  }

  /** And it stays so: every identity ever attached by email belongs to a user with that address, verified. */
  lemma LinkedIdentitiesStaySafe(w: World, k: Pair)
    requires Reachable(w) && k in w.t.identities && w.t.identities[k].via == ByVerifiedEmail
    ensures w.t.identities[k].emailVerified
    ensures w.t.identities[k].userId in w.t.users
    ensures w.t.users[w.t.identities[k].userId].email == w.t.identities[k].email
    ensures w.t.users[w.t.identities[k].userId].verifiedAt.Some?
  {
    hide PcOk, TablesInv;
    ReachableInv(w);
  }

  /** A (provider, subject) pair is bound to one user for ever: two calls for the same pair that succeed,
      at any two moments of any run, name the same user. */
  lemma PairNamesOneUser(w: World, steps: seq<Step>, p: Pid, q: Pid)
    requires Reachable(w) && ValidRun(w, steps)
    requires p in w.pcs && w.pcs[p].Done? && w.pcs[p].result.Resolved?
    requires q in Final(w, steps).pcs && Final(w, steps).pcs[q].Done? && Final(w, steps).pcs[q].result.Resolved?
    requires PairOf(w.pcs[p].req) == PairOf(Final(w, steps).pcs[q].req)
    ensures w.pcs[p].result.userId == Final(w, steps).pcs[q].result.userId
  {
    hide TablesInv, HistoryOk;
    ReachableInv(w);
    RunKeepsInv(w, steps);
    RunGrows(w, steps);
    assert PcOk(w.t, w.pcs[p]);
    assert PcOk(Final(w, steps).t, Final(w, steps).pcs[q]);
  }

  /** A user created together with an identity keeps it: nobody is left without a way to sign in. */
  lemma NoOrphans(w: World, u: UserId)
    requires Reachable(w) && u in w.t.users && w.t.users[u].origin.Some?
    ensures BoundTo(w.t, w.t.users[u].origin.value, u)
  {
    hide PcOk, TablesInv;
    ReachableInv(w);
  }

  /** The call's result says that it wrote to the tables. */
  predicate ClaimsWrite(pc: Pc) {
    pc.Done? && pc.result.Resolved? && pc.result.outcome != Existing
  }

  /** How many steps of the call change the tables. */
  ghost function Writes(w: World, steps: seq<Step>, pid: Pid): nat
    requires ValidRun(w, steps)
    decreases |steps|
  {
    if steps == [] then 0
    else
      One(steps[0].Advance? && steps[0].pid == pid && Next(w, steps[0]).t != w.t) + Writes(Next(w, steps[0]), steps[1..], pid)
  }

  ghost function Claims(w: World, pid: Pid): nat {
    One(pid in w.pcs && ClaimsWrite(w.pcs[pid]))
  }

  lemma StepWritesAsReported(w: World, s: Step, pid: Pid)
    requires Enabled(w, s)
    ensures One(s.Advance? && s.pid == pid && Next(w, s).t != w.t) + Claims(w, pid) == Claims(Next(w, s), pid)
  {
    if s.Advance? && s.pid == pid {
      var pc := w.pcs[pid];
      if pc.CreateBoth? && CanCreate(w.t, pc.req) {
        assert PairOf(pc.req) in Next(w, s).t.identities;
      } else if pc.Attach? && CanAttach(w.t, pc.req, pc.userId) {
        assert PairOf(pc.req) in Next(w, s).t.identities;
      }
    }
  }

  /** Over every run, however the calls interleave, a call writes to the tables once if it reports a user
      created or an identity attached, and never if it reports anything else, a lost unique key included. */
  lemma {:induction false} WritesAsReported(w: World, steps: seq<Step>, pid: Pid)
    requires ValidRun(w, steps)
    ensures Writes(w, steps, pid) + Claims(w, pid) == Claims(Final(w, steps), pid)
    decreases |steps|
  {
    hide Next, Enabled, Claims;
    if steps == [] {
    } else {
      StepWritesAsReported(w, steps[0], pid);
      WritesAsReported(Next(w, steps[0]), steps[1..], pid);
    }
  }

  /** A call that ends refused has changed neither table at any of its steps. */
  lemma LosersChangeNothing(now: Time, steps: seq<Step>, pid: Pid)
    requires ValidRun(Start(now), steps) && pid in Final(Start(now), steps).pcs
    requires Final(Start(now), steps).pcs[pid].Done? && Final(Start(now), steps).pcs[pid].result.Refused?
    ensures Writes(Start(now), steps, pid) == 0
  {
    WritesAsReported(Start(now), steps, pid);
  }
}
