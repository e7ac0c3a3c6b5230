/** Why a user's email is marked verified: the handlers that can set the flag, at the granularity of store
    calls (internal/httpapi/auth.go, otp.go, internal/store/identities.go). */
module VerifiedEmails {
  import opened Prelude
  import opened Accounts
  import opened Emails
  import opened OtpIdentifiers
  import Codes
  import CodeRuns

  type Pid = nat

  /** A handler between two of its store calls. */
  datatype Task =
    /** handleEmailVerify has redeemed the token and is about to mark its user. */
    | MarkRedeemed(userId: UserId, token: string)
    /** handleOTPVerify has redeemed the code, and then found or made the user. */
    | FindUser(clientId: ClientId, email: string, code: string)
    | MakeUser(clientId: ClientId, email: string, code: string)
    | MarkFound(userId: UserId, clientId: ClientId, email: string, code: string)

  /** What has happened so far, as far as it can justify the flag. */
  datatype Fact =
    | LinkIssued(userId: UserId, token: string)
    | LinkRedeemed(userId: UserId, token: string)
    | OtpIssued(clientId: ClientId, email: string, code: string)
    | OtpRedeemed(clientId: ClientId, email: string, code: string)
    /** Resolve created the user from a profile whose address the provider vouched for. */
    | ProviderVouched(userId: UserId, email: string)

  datatype World = World(t: Tables, codes: Codes.Db, tasks: map<Pid, Task>, facts: set<Fact>, clock: Time)

  datatype Event =
    | IssueLink(userId: UserId, token: string, ttl: Time, id: Codes.Id, missed: set<Codes.Id>, at: Time)
    | IssueOtp(clientId: ClientId, email: string, code: string, ttl: Time, id: Codes.Id, missed: set<Codes.Id>, at: Time)
    | RedeemLink(pid: Pid, token: string, at: Time)
    | VerifyOtp(pid: Pid, clientId: ClientId, email: string, code: string, at: Time)
    /** A handler makes its next store call; `newId` is the user it would create. */
    | Advance(pid: Pid, newId: UserId, at: Time)
    | Register(email: string, newId: UserId, at: Time)
    | CreateFromProfile(pair: Pair, profile: Profile, newId: UserId, at: Time)
    | AttachIdentity(pair: Pair, identity: Identity, at: Time)
    /** Password-reset tokens, and the pruning job. */
    | OtherCode(call: Codes.Event, at: Time)

  function CodeEvent(e: Event): Option<Codes.Event> {
    match e
    case IssueLink(u, tok, ttl, id, missed, at) =>
      Some(Codes.Issue(Codes.Key(u, Codes.EmailVerify), tok, ttl, id, missed, at))
    case IssueOtp(c, email, code, ttl, id, missed, at) =>
      Some(Codes.Issue(Codes.Key(OtpIdentifier(c, email), Codes.LoginOtp), code, ttl, id, missed, at))
    case RedeemLink(_, tok, at) => Some(Codes.Redeem(Codes.EmailVerify, tok, at))
    case VerifyOtp(_, c, email, code, at) => Some(Codes.Guess(Codes.Key(OtpIdentifier(c, email), Codes.LoginOtp), code, at))
    case OtherCode(ce, _) => Some(ce)
    case _ => None
  }

  /** Addresses are normalized, and codes issued for valid ones; clients are among those there are, new pids and user ids are new, and only the handlers above deal with
      verification tokens and login codes. */
  ghost predicate Enabled(w: World, e: Event, clients: set<ClientId>) {
    && w.clock <= e.at
    && (CodeEvent(e).Some? ==> Codes.Possible(w.codes, CodeEvent(e).value))
    && match e
       case IssueOtp(c, email, _, _, _, _, _) => c in clients && Accepted(email)
       case RedeemLink(pid, _, _) => pid !in w.tasks
       case VerifyOtp(pid, c, email, _, _) => pid !in w.tasks && c in clients && Normalized(email)
       case Advance(pid, newId, _) => pid in w.tasks && newId !in w.t.users
       case Register(email, newId, _) => newId !in w.t.users && Accepted(email)
       case CreateFromProfile(_, p, newId, _) => newId !in w.t.users && Normalized(p.email)
       case OtherCode(ce, _) =>
         && (ce.Issue? ==> ce.key.purpose == Codes.PasswordReset)
         && (ce.Guess? ==> ce.key.purpose == Codes.PasswordReset)
         && (ce.Redeem? ==> ce.purpose == Codes.PasswordReset)
       case _ => true
  }

  ghost function CodesAfter(d: Codes.Db, e: Event): Codes.Db {
    if CodeEvent(e).Some? then Codes.Apply(d, CodeEvent(e).value).0 else d
  }

  ghost function ReplyTo(d: Codes.Db, e: Event): Codes.Reply
    requires CodeEvent(e).Some?
  {
    Codes.Apply(d, CodeEvent(e).value).1
  }

  ghost function TablesAfter(w: World, e: Event): Tables {
    match e
    case Advance(pid, newId, at) =>
      if pid !in w.tasks then w.t
      else if w.tasks[pid].MarkRedeemed? || w.tasks[pid].MarkFound? then Marked(w.t, w.tasks[pid].userId, at)
      else if w.tasks[pid].MakeUser? && EmailFree(w.t, w.tasks[pid].email) then
        WithUser(w.t, newId, User(w.tasks[pid].email, None, None))
      else w.t
    case Register(email, newId, _) =>
      if EmailFree(w.t, email) then WithUser(w.t, newId, User(email, None, None)) else w.t
    case CreateFromProfile(k, p, newId, at) =>
      if EmailFree(w.t, p.email) && k !in w.t.identities then WithBoth(w.t, newId, k, p, at) else w.t
    case AttachIdentity(k, i, _) =>
      if k !in w.t.identities && i.userId in w.t.users then WithIdentity(w.t, k, i) else w.t
    case _ => w.t
  }

  /** handleOTPVerify marks the user it found, or the one it made, unless already verified. */
  ghost function TaskAfter(t: Tables, task: Task, newId: UserId): Option<Task> {
    match task
    case FindUser(c, email, code) =>
      if UserByEmail(t, email).None? then Some(MakeUser(c, email, code))
      else
        var u := UserByEmail(t, email).value;
        if u in t.users && t.users[u].verifiedAt.Some? then None else Some(MarkFound(u, c, email, code))
    case MakeUser(c, email, code) => if EmailFree(t, email) then Some(MarkFound(newId, c, email, code)) else None
    case _ => None
  }

  ghost function TasksAfter(w: World, e: Event): map<Pid, Task> {
    match e
    case RedeemLink(pid, tok, _) =>
      if ReplyTo(w.codes, e).Redeemed? then w.tasks[pid := MarkRedeemed(ReplyTo(w.codes, e).identifier, tok)] else w.tasks
    case VerifyOtp(pid, c, email, code, _) =>
      if ReplyTo(w.codes, e) == Codes.Accepted then w.tasks[pid := FindUser(c, email, code)] else w.tasks
    case Advance(pid, newId, _) =>
      if pid in w.tasks && TaskAfter(w.t, w.tasks[pid], newId).Some? then
        w.tasks[pid := TaskAfter(w.t, w.tasks[pid], newId).value]
      else w.tasks - {pid}
    case _ => w.tasks
  }

  ghost function FactsAfter(w: World, e: Event): set<Fact> {
    match e
    case IssueLink(u, tok, _, _, _, _) => w.facts + {LinkIssued(u, tok)}
    case IssueOtp(c, email, code, _, _, _, _) => w.facts + {OtpIssued(c, email, code)}
    case RedeemLink(_, tok, _) =>
      if ReplyTo(w.codes, e).Redeemed? then w.facts + {LinkRedeemed(ReplyTo(w.codes, e).identifier, tok)} else w.facts
    case VerifyOtp(_, c, email, code, _) =>
      if ReplyTo(w.codes, e) == Codes.Accepted then w.facts + {OtpRedeemed(c, email, code)} else w.facts
    case CreateFromProfile(k, p, newId, _) =>
      if EmailFree(w.t, p.email) && k !in w.t.identities && p.emailVerified then
        w.facts + {ProviderVouched(newId, p.email)}
      else w.facts
    case _ => w.facts
  }

  ghost function Next(w: World, e: Event): World {
    World(TablesAfter(w, e), CodesAfter(w.codes, e), TasksAfter(w, e), FactsAfter(w, e), e.at)
  }

  function Start(now: Time): World {
    World(Tables(map[], map[]), Codes.EmptyDb(now), map[], {}, now)
  }

  ghost predicate ValidRun(w: World, evs: seq<Event>, clients: set<ClientId>)
    decreases |evs|
  {
    evs == [] || (Enabled(w, evs[0], clients) && ValidRun(Next(w, evs[0]), evs[1..], clients))
  }

  ghost function Final(w: World, evs: seq<Event>): World
    decreases |evs|
  {
    if evs == [] then w else Final(Next(w, evs[0]), evs[1..])
  }

  // --- The invariant -------------------------------------------------------------------------------------

  /** A token issued to this very user was redeemed. */
  ghost predicate ProvedByLink(facts: set<Fact>, u: UserId, tok: string) {
    LinkIssued(u, tok) in facts && LinkRedeemed(u, tok) in facts
  }

  /** A login code issued for this very address was redeemed. */
  ghost predicate ProvedByOtp(facts: set<Fact>, c: ClientId, email: string, code: string) {
    OtpIssued(c, email, code) in facts && OtpRedeemed(c, email, code) in facts
  }

  ghost predicate Justified(facts: set<Fact>, u: UserId, email: string) {
    || (exists tok :: ProvedByLink(facts, u, tok))
    || (exists c, code :: ProvedByOtp(facts, c, email, code))
    || ProviderVouched(u, email) in facts
  }

  ghost predicate VerifiedInv(t: Tables, facts: set<Fact>) {
    forall u :: u in t.users && t.users[u].verifiedAt.Some? ==> Justified(facts, u, t.users[u].email)
  }

  ghost predicate CodeIssued(facts: set<Fact>, c: Codes.Code, clients: set<ClientId>) {
    match c.key.purpose
    case EmailVerify => LinkIssued(c.key.identifier, c.secret) in facts
    case LoginOtp => exists client, email :: OtpFor(facts, client, email, c, clients)
    case PasswordReset => true
  }

  ghost predicate OtpFor(facts: set<Fact>, client: ClientId, email: string, c: Codes.Code, clients: set<ClientId>) {
    && client in clients && c.key.identifier == OtpIdentifier(client, email) && Normalized(email)
    && OtpIssued(client, email, c.secret) in facts
  }

  ghost predicate CodesInv(d: Codes.Db, facts: set<Fact>, clients: set<ClientId>) {
    forall i :: i in d.rows ==> CodeIssued(facts, d.rows[i], clients)
  }

  ghost predicate TaskOk(t: Tables, facts: set<Fact>, task: Task) {
    match task
    case MarkRedeemed(u, tok) => ProvedByLink(facts, u, tok)
    case FindUser(c, email, code) => ProvedByOtp(facts, c, email, code)
    case MakeUser(c, email, code) => ProvedByOtp(facts, c, email, code)
    case MarkFound(u, c, email, code) => ProvedByOtp(facts, c, email, code) && HasEmail(t, u, email)
  }

  ghost predicate WorldInv(w: World, clients: set<ClientId>) {
    && VerifiedInv(w.t, w.facts)
    && CodesInv(w.codes, w.facts, clients)
    && forall p :: p in w.tasks ==> TaskOk(w.t, w.facts, w.tasks[p])
  }

  lemma MoreFacts(facts: set<Fact>, facts': set<Fact>, c: Codes.Code, clients: set<ClientId>)
    requires facts <= facts' && CodeIssued(facts, c, clients)
    ensures CodeIssued(facts', c, clients)
  {
    if c.key.purpose.LoginOtp? {
      var client, email :| OtpFor(facts, client, email, c, clients);
      assert OtpFor(facts', client, email, c, clients);
    }
  }

  lemma StepKeepsCodes(w: World, e: Event, clients: set<ClientId>)
    requires CodesInv(w.codes, w.facts, clients) && Enabled(w, e, clients)
    ensures CodesInv(Next(w, e).codes, Next(w, e).facts, clients)
  {
    hide Codes.Apply;
    var d', facts' := CodesAfter(w.codes, e), FactsAfter(w, e);
    forall i | i in d'.rows ensures CodeIssued(facts', d'.rows[i], clients) {
      if CodeEvent(e).Some? {
        CodeRuns.RowsComeFrom(w.codes, CodeEvent(e).value, i);
      }
      if i in w.codes.rows && d'.rows[i].key == w.codes.rows[i].key && d'.rows[i].secret == w.codes.rows[i].secret {
        assert CodeIssued(w.facts, w.codes.rows[i], clients);
        MoreFacts(w.facts, facts', w.codes.rows[i], clients);
        SameIssue(facts', w.codes.rows[i], d'.rows[i], clients);
      } else if e.IssueOtp? {
        assert OtpFor(facts', e.clientId, e.email, d'.rows[i], clients);
      }
    }
  }

  lemma SameIssue(facts: set<Fact>, c: Codes.Code, c': Codes.Code, clients: set<ClientId>)
    requires CodeIssued(facts, c, clients) && c.key == c'.key && c.secret == c'.secret
    ensures CodeIssued(facts, c', clients)
  {
    if c.key.purpose.LoginOtp? {
      var client, email :| OtpFor(facts, client, email, c, clients);
      assert OtpFor(facts, client, email, c', clients);
    }
  }

  /** Redeeming a verification token proves it was issued to the user it names. */
  lemma LinkProves(w: World, e: Event, clients: set<ClientId>)
    requires CodesInv(w.codes, w.facts, clients) && e.RedeemLink? && ReplyTo(w.codes, e).Redeemed?
    ensures ProvedByLink(FactsAfter(w, e), ReplyTo(w.codes, e).identifier, e.token)
  {
    var i := Codes.RowOfToken(w.codes.rows, Codes.EmailVerify, e.token).value;
    assert Codes.HoldsToken(w.codes.rows, Codes.EmailVerify, e.token, i);
    assert CodeIssued(w.facts, w.codes.rows[i], clients);
  }

  /** Redeeming a login code proves it was issued for that client and that address. */
  lemma OtpProves(w: World, e: Event, clients: set<ClientId>)
    requires AllApart(clients) && CodesInv(w.codes, w.facts, clients) && e.VerifyOtp? && e.clientId in clients && Normalized(e.email)
    requires ReplyTo(w.codes, e) == Codes.Accepted
    ensures ProvedByOtp(FactsAfter(w, e), e.clientId, e.email, e.code)
  {
    var i := Codes.Current(w.codes.rows, CodeEvent(e).value.key).value;
    assert Codes.Newest(w.codes.rows, CodeEvent(e).value.key, i);
    assert CodeIssued(w.facts, w.codes.rows[i], clients);
    var client, email :| OtpFor(w.facts, client, email, w.codes.rows[i], clients);
    IdentifierInjective(client, email, e.clientId, e.email);
  }

  lemma TaskStays(t: Tables, t': Tables, facts: set<Fact>, facts': set<Fact>, task: Task)
    requires TaskOk(t, facts, task) && facts <= facts'
    requires forall u :: u in t.users ==> u in t'.users && t'.users[u].email == t.users[u].email
    ensures TaskOk(t', facts', task)
  {
  }

  lemma StepKeepsUsers(w: World, e: Event, clients: set<ClientId>)
    requires Enabled(w, e, clients)
    ensures forall u :: u in w.t.users ==>
      u in TablesAfter(w, e).users && TablesAfter(w, e).users[u].email == w.t.users[u].email
  {
  }

  lemma TaskAdvances(w: World, e: Event, clients: set<ClientId>)
    requires Enabled(w, e, clients) && e.Advance? && TaskOk(w.t, w.facts, w.tasks[e.pid])
    requires TaskAfter(w.t, w.tasks[e.pid], e.newId).Some?
    ensures TaskOk(TablesAfter(w, e), w.facts, TaskAfter(w.t, w.tasks[e.pid], e.newId).value)
  {
    var task := w.tasks[e.pid];
    if task.FindUser? && UserByEmail(w.t, task.email).Some? {
      assert HasEmail(w.t, UserByEmail(w.t, task.email).value, task.email);
    }
  }

  lemma StepKeepsTasks(w: World, e: Event, clients: set<ClientId>)
    requires AllApart(clients) && WorldInv(w, clients) && Enabled(w, e, clients)
    ensures forall p :: p in Next(w, e).tasks ==> TaskOk(Next(w, e).t, Next(w, e).facts, Next(w, e).tasks[p])
  {
    hide TaskOk, Codes.Apply, VerifiedInv, CodesInv, TablesAfter;
    StepKeepsUsers(w, e, clients);
    var n := Next(w, e);
    forall p | p in n.tasks ensures TaskOk(n.t, n.facts, n.tasks[p]) {
      if e.RedeemLink? && p == e.pid && p !in w.tasks {
        LinkProves(w, e, clients);
        FreshTask(n.t, n.facts, n.tasks[p]);
      } else if e.VerifyOtp? && p == e.pid && p !in w.tasks {
        OtpProves(w, e, clients);
        FreshTask(n.t, n.facts, n.tasks[p]);
      } else if e.Advance? && p == e.pid {
        TaskAdvances(w, e, clients);
      } else {
        TaskStays(w.t, n.t, w.facts, n.facts, w.tasks[p]);
      }
    }
  }

  lemma FreshTask(t: Tables, facts: set<Fact>, task: Task)
    requires task.MarkRedeemed? ==> ProvedByLink(facts, task.userId, task.token)
    requires task.FindUser? ==> ProvedByOtp(facts, task.clientId, task.email, task.code)
    requires task.MarkRedeemed? || task.FindUser?
    ensures TaskOk(t, facts, task)
  {
  }

  lemma JustifiedStays(facts: set<Fact>, facts': set<Fact>, u: UserId, email: string)
    requires facts <= facts' && Justified(facts, u, email)
    ensures Justified(facts', u, email)
  {
    if tok :| ProvedByLink(facts, u, tok) {
      assert ProvedByLink(facts', u, tok);
    } else if c, code :| ProvedByOtp(facts, c, email, code) {
      assert ProvedByOtp(facts', c, email, code);
    }
  }

  /** A handler about to mark a user has proof that the mark is deserved. */
  lemma MarkIsJustified(t: Tables, facts: set<Fact>, task: Task)
    requires TaskOk(t, facts, task) && (task.MarkRedeemed? || task.MarkFound?) && task.userId in t.users
    ensures Justified(facts, task.userId, t.users[task.userId].email)
  {
    if task.MarkFound? {
      assert ProvedByOtp(facts, task.clientId, task.email, task.code);
    }
  }

  lemma StepKeepsVerified(w: World, e: Event, clients: set<ClientId>)
    requires AllApart(clients) && WorldInv(w, clients) && Enabled(w, e, clients)
    ensures VerifiedInv(Next(w, e).t, Next(w, e).facts)
  {
    hide Codes.Apply, Justified, CodesInv, TaskOk;
    StepKeepsUsers(w, e, clients);
    var n := Next(w, e);
    forall u | u in n.t.users && n.t.users[u].verifiedAt.Some? ensures Justified(n.facts, u, n.t.users[u].email) {
      if u in w.t.users && w.t.users[u].verifiedAt.Some? {
        JustifiedStays(w.facts, n.facts, u, w.t.users[u].email);
      } else if e.Advance? {
        MarkIsJustified(w.t, w.facts, w.tasks[e.pid]);
      } else {
        VouchedIsJustified(n.facts, u, n.t.users[u].email);
      }
    }
  }

  lemma VouchedIsJustified(facts: set<Fact>, u: UserId, email: string)
    requires ProviderVouched(u, email) in facts
    ensures Justified(facts, u, email)
  {
  }

  lemma {:induction false} RunKeepsInv(w: World, evs: seq<Event>, clients: set<ClientId>)
    requires AllApart(clients) && WorldInv(w, clients) && ValidRun(w, evs, clients)
    ensures WorldInv(Final(w, evs), clients)
    decreases |evs|
  {
    hide VerifiedInv, CodesInv, TaskOk, Next, Enabled;
    if evs == [] {
    } else {
      var n := Next(w, evs[0]);
      StepKeepsVerified(w, evs[0], clients);
      StepKeepsCodes(w, evs[0], clients);
      StepKeepsTasks(w, evs[0], clients);
      RunKeepsInv(n, evs[1..], clients);
    }
  }

  /** Over every run, a user whose email is marked verified has earned it: a verification token issued to
      that user was redeemed, or a login code issued for that address was redeemed, or the user was created
      from a profile whose address the provider vouched for. */
  lemma VerifiedIsJustified(now: Time, evs: seq<Event>, u: UserId, clients: set<ClientId>)
    requires AllApart(clients) && ValidRun(Start(now), evs, clients)
    requires u in Final(Start(now), evs).t.users && Final(Start(now), evs).t.users[u].verifiedAt.Some?
    ensures Justified(Final(Start(now), evs).facts, u, Final(Start(now), evs).t.users[u].email)
  {
    hide CodesInv, TaskOk, Justified, Final;
    assert WorldInv(Start(now), clients) by { StartInv(now, clients); }
    RunKeepsInv(Start(now), evs, clients);
  }

  lemma StartInv(now: Time, clients: set<ClientId>)
    ensures WorldInv(Start(now), clients)
  {
  }

  // --- Every reason does set the flag ----------------------------------------------------------------------

  /** A handler that has redeemed a verification token marks its user with its next call, one that has found the user of
      a login code marks that user, and a vouched profile makes a verified user. */
  lemma ReasonsMark(w: World, e: Event, u: UserId)
    requires e.Advance? && e.pid in w.tasks && u in w.t.users ==>
      (w.tasks[e.pid].MarkRedeemed? || w.tasks[e.pid].MarkFound?) && w.tasks[e.pid].userId == u
    ensures e.Advance? && e.pid in w.tasks && u in w.t.users ==> VerifiedIn(Next(w, e), u)
    ensures e.CreateFromProfile? && EmailFree(w.t, e.profile.email) && e.pair !in w.t.identities ==>
      && e.newId in Next(w, e).t.users && Next(w, e).t.users[e.newId].email == e.profile.email
      && (VerifiedIn(Next(w, e), e.newId) <==> e.profile.emailVerified)
    ensures e.RedeemLink? && ReplyTo(w.codes, e).Redeemed? ==>
      e.pid in Next(w, e).tasks && Next(w, e).tasks[e.pid] == MarkRedeemed(ReplyTo(w.codes, e).identifier, e.token)
  {
    hide Codes.Apply;
  }

  // --- Ids that meet ---------------------------------------------------------------------------------------

  const SAMPLE_CODE := "123456"

  lemma StepFirst(w: World, e: Event, rest: seq<Event>, clients: set<ClientId>)
    requires Enabled(w, e, clients) && ValidRun(Next(w, e), rest, clients)
    ensures ValidRun(w, [e] + rest, clients) && Final(w, [e] + rest) == Final(Next(w, e), rest)
  {
    hide Next, Enabled;
    assert ([e] + rest)[1..] == rest;
  }

  /** A code is asked for with the longer id and redeemed with the shorter: the redeeming handler is about to
      look for the user of the longer address. */
  lemma RedeemedElsewhere(c: ClientId, d: ClientId, f: string, now: Time, clients: set<ClientId>)
    returns (issue: Event, verify: Event, w: World)
    requires c in clients && d in clients && Meets(c, d) && Accepted(f)
    ensures var e := d[|c| + 1..] + "|" + f;
      && Enabled(Start(now), issue, clients) && Enabled(Next(Start(now), issue), verify, clients)
      && w == Next(Next(Start(now), issue), verify)
      && w == World(Tables(map[], map[]), w.codes, map[0 := FindUser(c, e, SAMPLE_CODE)],
                    {OtpIssued(d, f, SAMPLE_CODE), OtpRedeemed(c, e, SAMPLE_CODE)}, now)
  {
    var e := d[|c| + 1..] + "|" + f;
    issue := IssueOtp(d, f, SAMPLE_CODE, 10 * MINUTE, 0, {}, now);
    verify := VerifyOtp(0, c, e, SAMPLE_CODE, now);
    hide Normalized, ValidEmail;
    MeetingCollides(c, d, f);
    var w1, k := Next(Start(now), issue), CodeEvent(issue).value.key;
    assert CodeEvent(verify).value.key == k;
    assert Codes.Newest(w1.codes.rows, k, 0);
    w := Next(w1, verify);
  }

  /** The three steps that create and mark the user. */
  lemma MarkedFromFind(w: World, task: Task, now: Time, clients: set<ClientId>) returns (evs: seq<Event>)
    requires w == World(Tables(map[], map[]), w.codes, map[0 := task], w.facts, now) && task.FindUser?
    ensures ValidRun(w, evs, clients) && Final(w, evs).facts == w.facts
    ensures Final(w, evs).t.users == map["u" := User(task.email, Some(now), None)]
  {
    hide Codes.Apply;
    var find, mark := Advance(0, "u", now), Advance(0, "v", now);
    var w1 := Next(w, find);
    var w2 := Next(w1, find);
    var w3 := Next(w2, mark);
    assert EmailFree(w.t, task.email);
    assert w1.tasks[0] == MakeUser(task.clientId, task.email, task.code);
    assert w2.tasks[0] == MarkFound("u", task.clientId, task.email, task.code);
    assert w2.t.users == map["u" := User(task.email, None, None)];
    assert ValidRun(w3, [], clients) && Final(w3, []) == w3;
    StepFirst(w2, mark, [], clients);
    StepFirst(w1, find, [mark], clients);
    StepFirst(w, find, [find] + [mark], clients);
    evs := [find] + ([find] + [mark]);
  }

  /** With two ids that meet, a code issued for one address verifies another one, for which none
      was ever issued. */
  lemma CollidingClientsMisverify(c: ClientId, d: ClientId, f: string, now: Time, clients: set<ClientId>) returns (evs: seq<Event>)
    requires c in clients && d in clients && Meets(c, d) && Accepted(f)
    ensures ValidRun(Start(now), evs, clients)
    ensures var w := Final(Start(now), evs);
      && "u" in w.t.users && w.t.users["u"] == User(d[|c| + 1..] + "|" + f, Some(now), None)
      && !Justified(w.facts, "u", w.t.users["u"].email)
  {
    hide ValidRun, Final, Enabled, Next, Justified;
    var e := d[|c| + 1..] + "|" + f;
    var issue, verify, w := RedeemedElsewhere(c, d, f, now, clients);
    var rest := MarkedFromFind(w, FindUser(c, e, SAMPLE_CODE), now, clients);
    StepFirst(Next(Start(now), issue), verify, rest, clients);
    StepFirst(Start(now), issue, [verify] + rest, clients);
    evs := [issue] + ([verify] + rest);
    NotJustified(w.facts, c, d, e, f);
  }

  lemma NotJustified(facts: set<Fact>, c: ClientId, d: ClientId, e: string, f: string)
    requires facts == {OtpIssued(d, f, SAMPLE_CODE), OtpRedeemed(c, e, SAMPLE_CODE)} && |f| < |e|
    ensures !Justified(facts, "u", e)
  {
  }

  ghost predicate AlwaysJustified(now: Time, clients: set<ClientId>) {
    forall evs, u :: ValidRun(Start(now), evs, clients) && VerifiedIn(Final(Start(now), evs), u) ==>
      Justified(Final(Start(now), evs).facts, u, Final(Start(now), evs).t.users[u].email)
  }

  ghost predicate VerifiedIn(w: World, u: UserId) {
    u in w.t.users && w.t.users[u].verifiedAt.Some?
  }

  /** Every verified mark is justified, in all runs, if and only if the client ids are pairwise apart. */
  lemma JustifiedExactly(now: Time, clients: set<ClientId>)
    ensures AlwaysJustified(now, clients) <==> AllApart(clients)
  {
    hide ValidRun, Final, Justified, Accepted, Meets;
    if AllApart(clients) {
      forall evs, u | ValidRun(Start(now), evs, clients) && VerifiedIn(Final(Start(now), evs), u)
        ensures Justified(Final(Start(now), evs).facts, u, Final(Start(now), evs).t.users[u].email)
      {
        VerifiedIsJustified(now, evs, u, clients);
      }
    } else {
      var c, d :| c in clients && d in clients && Meets(c, d);
      AddressAccepted();
      var evs := CollidingClientsMisverify(c, d, ADDRESS, now, clients);
      assert VerifiedIn(Final(Start(now), evs), "u");
    }
  }
}
