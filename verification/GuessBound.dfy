/** How often login codes can be guessed: the limiter, the attempt cap and the code lifetime together
    (internal/httpapi/otp.go). */
module GuessBound {
  import opened Prelude
  import opened Emails
  import opened OtpIdentifiers
  import Codes
  import CodeRuns
  import RateLimits

  const OTP_TTL: Time := 10 * MINUTE
  const OTP_REQUESTS_PER_HOUR: nat := 5

  /** A request that the limiter let through, and the code row it goes on to insert. */
  datatype Ticket = Ticket(email: string, allowedAt: Time, clientId: Option<string>)

  datatype World = World(limits: RateLimits.Counts, codes: Codes.Db, tickets: map<Codes.Id, Ticket>, clock: Time)

  datatype Event =
    /** handleOTPRequest asks the per-email limiter; `id` is the row the request will insert. */
    | Ask(email: string, id: Codes.Id, at: Time)
    /** The same request, later, stores the code. */
    | Store(id: Codes.Id, clientId: string, secret: string, missed: set<Codes.Id>, at: Time)
    /** handleOTPVerify. */
    | Verify(clientId: string, email: string, guess: string, at: Time)
    /** Anything else that happens to the two tables. */
    | OtherCode(code: Codes.Event, at: Time)
    | OtherLimit(limit: RateLimits.Event, at: Time)

  const OTP_BUCKET := "otp:id:"

  function AskEvent(email: string, at: Time): RateLimits.Event {
    RateLimits.Allow(OTP_BUCKET + email, OTP_REQUESTS_PER_HOUR, HOUR, at)
  }

  function StoreEvent(t: Ticket, e: Event): Codes.Event
    requires e.Store?
  {
    Codes.Issue(Codes.Key(OtpIdentifier(e.clientId, t.email), Codes.LoginOtp), e.secret, OTP_TTL, e.id, e.missed, e.at)
  }

  function VerifyEvent(e: Event): Codes.Event
    requires e.Verify?
  {
    Codes.Guess(Codes.Key(OtpIdentifier(e.clientId, e.email), Codes.LoginOtp), e.guess, e.at)
  }

  function LimitEvents(e: Event): seq<RateLimits.Event> {
    match e
    case Ask(email, _, at) => [AskEvent(email, at)]
    case OtherLimit(l, _) => [l]
    case _ => []
  }

  function CodeEvents(w: World, e: Event): seq<Codes.Event> {
    match e
    case Store(id, _, _, _, _) => if id in w.tickets then [StoreEvent(w.tickets[id], e)] else []
    case Verify(_, _, _, _) => [VerifyEvent(e)]
    case OtherCode(c, _) => [c]
    case _ => []
  }

  /** Addresses are normalized, and codes asked for at valid ones; every code expires within `k` hours of the
      limiter's yes, however long its request dawdles before the insert; clients are among those there are; login codes and the "otp:id:" buckets are used by these handlers
      only; counters are pruned only once their window is over. */
  ghost predicate Enabled(w: World, e: Event, clients: set<ClientId>, k: nat) {
    && w.clock <= e.at
    && (forall j :: 0 <= j < |CodeEvents(w, e)| ==>
          CodeEvents(w, e)[j].at == e.at && Codes.Possible(w.codes, CodeEvents(w, e)[j]))
    && match e
       case Ask(email, id, _) => Accepted(email) && id !in w.tickets && id !in w.codes.born
       case Store(id, clientId, _, _, at) =>
         && id in w.tickets && w.tickets[id].clientId.None? && clientId in clients
         && at + OTP_TTL <= w.tickets[id].allowedAt + k * HOUR
       case Verify(clientId, email, _, _) => clientId in clients && Normalized(email)
       case OtherCode(c, _) =>
         && (c.Issue? ==> c.key.purpose != Codes.LoginOtp && c.id !in w.tickets)
         && (c.Guess? ==> c.key.purpose != Codes.LoginOtp)
       case OtherLimit(l, at) =>
         && l.at == at
         && (l.Allow? ==> !(OTP_BUCKET <= l.bucket))
         && (l.Prune? ==> HOUR <= l.olderThan)
  }

  ghost function CodesAfter(d: Codes.Db, evs: seq<Codes.Event>): Codes.Db {
    if evs == [] then d else Codes.Apply(d, evs[0]).0
  }

  function LimitsAfter(c: RateLimits.Counts, evs: seq<RateLimits.Event>): RateLimits.Counts {
    if evs == [] then c else RateLimits.Apply(c, evs[0])
  }

  ghost function Apply(w: World, e: Event): World {
    World(
      LimitsAfter(w.limits, LimitEvents(e)),
      CodesAfter(w.codes, CodeEvents(w, e)),
      match e
      case Ask(email, id, at) =>
        if RateLimits.Allowed(w.limits, AskEvent(email, at)) then w.tickets[id := Ticket(email, at, None)] else w.tickets
      case Store(id, clientId, _, _, _) =>
        if id in w.tickets then w.tickets[id := w.tickets[id].(clientId := Some(clientId))] else w.tickets
      case _ => w.tickets,
      e.at)
  }

  ghost predicate ValidRun(w: World, evs: seq<Event>, clients: set<ClientId>, k: nat)
    decreases |evs|
  {
    evs == [] || (Enabled(w, evs[0], clients, k) && ValidRun(Apply(w, evs[0]), evs[1..], clients, k))
  }

  ghost function Final(w: World, evs: seq<Event>): World
    decreases |evs|
  {
    if evs == [] then w else Final(Apply(w, evs[0]), evs[1..])
  }

  function Start(now: Time): World {
    World(map[], Codes.EmptyDb(now), map[], now)
  }

  /** The verification compares its guess with a stored code, in aligned hour number `n`. */
  ghost predicate Tries(w: World, e: Event, email: string, n: int) {
    && e.Verify? && e.email == email && e.at / HOUR == n
    && exists id :: CodeRuns.Compares(w.codes, VerifyEvent(e), id)
  }

  /** Guesses at login codes for the email in the hour, across all clients. */
  ghost function Guesses(w: World, evs: seq<Event>, email: string, n: int): nat
    decreases |evs|
  {
    if evs == [] then 0
    else One(Tries(w, evs[0], email, n)) + Guesses(Apply(w, evs[0]), evs[1..], email, n)
  }

  // --- Where the compared codes come from ---------------------------------------------------------------

  /** A login code belongs to a ticket of its email and expires within `k` hours of it. */
  ghost predicate Ticketed(w: World, id: Codes.Id, c: Codes.Code, clients: set<ClientId>, k: nat) {
    && id in w.tickets && w.tickets[id].clientId.Some? && w.tickets[id].clientId.value in clients
    && c.key.identifier == OtpIdentifier(w.tickets[id].clientId.value, w.tickets[id].email)
    && c.expiresAt <= w.tickets[id].allowedAt + k * HOUR
  }

  ghost predicate WorldInv(w: World, clients: set<ClientId>, k: nat) {
    && CodeRuns.RowsBorn(w.codes)
    && (forall id :: id in w.codes.rows && w.codes.rows[id].key.purpose == Codes.LoginOtp ==>
          Ticketed(w, id, w.codes.rows[id], clients, k))
    && (forall id :: id in w.tickets ==> w.tickets[id].allowedAt <= w.clock && Accepted(w.tickets[id].email))
  }

  lemma StepKeepsWorld(w: World, e: Event, clients: set<ClientId>, k: nat)
    requires WorldInv(w, clients, k) && Enabled(w, e, clients, k)
    ensures WorldInv(Apply(w, e), clients, k)
  {
    hide Codes.Apply, Accepted, Normalized, RateLimits.Apply, RateLimits.Allowed;
    var w', cs := Apply(w, e), CodeEvents(w, e);
    if cs != [] {
      assert Codes.Possible(w.codes, cs[0]);
      CodeRuns.StepSpendsBudget(w.codes, cs[0], 0);
    }
    forall id | id in w'.codes.rows && w'.codes.rows[id].key.purpose == Codes.LoginOtp
      ensures Ticketed(w', id, w'.codes.rows[id], clients, k)
    {
      if cs != [] {
        CodeRuns.RowsComeFrom(w.codes, cs[0], id);
      }
      if id in w.codes.rows && w.codes.rows[id].key.purpose == Codes.LoginOtp {
        assert Ticketed(w, id, w.codes.rows[id], clients, k);
      }
    }
  }

  /** All codes that can be guessed at the email were asked for at `source`. */
  ghost predicate OnlySource(clients: set<ClientId>, email: string, source: string) {
    Normalized(email) ==> forall f :: Served(clients, email, f) ==> f == source
  }

  lemma SomeSource(clients: set<ClientId>, email: string) returns (source: string)
    requires !Crowded(clients)
    ensures OnlySource(clients, email, source)
  {
    hide Served, Normalized, Crowded;
    source := email;
    if Normalized(email) {
      if f :| Served(clients, email, f) {
        source := f;
        forall f' | Served(clients, email, f') ensures f' == f {
          OneSource(clients, email, f, f');
        }
      }
    }
  }

  /** A code a guess is compared with was asked for, at the one source, in this aligned hour or the last `k`. */
  lemma ComparedIsTicketed(w: World, e: Event, id: Codes.Id, source: string, clients: set<ClientId>, k: nat)
    requires WorldInv(w, clients, k) && Enabled(w, e, clients, k) && e.Verify? && OnlySource(clients, e.email, source)
    requires CodeRuns.Compares(w.codes, VerifyEvent(e), id)
    ensures id in w.tickets && w.tickets[id].email == source
    ensures e.at / HOUR - k <= w.tickets[id].allowedAt / HOUR <= e.at / HOUR
  {
    hide Normalized, Accepted;
    assert Codes.Newest(w.codes.rows, VerifyEvent(e).key, id);
    assert Ticketed(w, id, w.codes.rows[id], clients, k);
    var t := w.tickets[id];
    assert Served(clients, e.email, t.email);
    RateLimits.WindowsSpanned(t.allowedAt, e.at, k, HOUR);
  }

  // --- Five per code ---------------------------------------------------------------------------------------

  ghost function CodeRun(w: World, evs: seq<Event>): seq<Codes.Event>
    decreases |evs|
  {
    if evs == [] then [] else CodeEvents(w, evs[0]) + CodeRun(Apply(w, evs[0]), evs[1..])
  }

  lemma {:induction false} CodeRunValid(w: World, evs: seq<Event>, clients: set<ClientId>, k: nat)
    requires ValidRun(w, evs, clients, k)
    ensures CodeRuns.PossibleRun(w.codes, CodeRun(w, evs))
    decreases |evs|
  {
    hide Codes.Apply, Codes.Possible;
    if evs == [] {
    } else {
      CodeRunValid(Apply(w, evs[0]), evs[1..], clients, k);
      var cs, rest := CodeEvents(w, evs[0]), CodeRun(Apply(w, evs[0]), evs[1..]);
      if cs == [] {
        assert cs + rest == rest;
      } else {
        assert (cs + rest)[0] == cs[0] && (cs + rest)[1..] == rest;
        assert Codes.Possible(w.codes, cs[0]);
      }
    }
  }

  ghost predicate ComparesOne(d: Codes.Db, e: Codes.Event, ids: set<Codes.Id>) {
    exists id :: id in ids && CodeRuns.Compares(d, e, id)
  }

  /** Comparisons with any of the codes. */
  ghost function ComparedIn(d: Codes.Db, evs: seq<Codes.Event>, ids: set<Codes.Id>): nat
    decreases |evs|
  {
    if evs == [] then 0
    else One(ComparesOne(d, evs[0], ids)) + ComparedIn(Codes.Apply(d, evs[0]).0, evs[1..], ids)
  }

  lemma {:induction false} ComparedSplit(d: Codes.Db, evs: seq<Codes.Event>, ids: set<Codes.Id>, x: Codes.Id)
    ensures ComparedIn(d, evs, ids) <= ComparedIn(d, evs, ids - {x}) + CodeRuns.Comparisons(d, evs, x)
    decreases |evs|
  {
    hide Codes.Apply, CodeRuns.Compares;
    if evs == [] {
    } else {
      ComparedSplit(Codes.Apply(d, evs[0]).0, evs[1..], ids, x);
      if id :| id in ids && CodeRuns.Compares(d, evs[0], id) && id != x {
        assert id in ids - {x};
      }
    }
  }

  lemma {:induction false} ComparedNone(d: Codes.Db, evs: seq<Codes.Event>)
    ensures ComparedIn(d, evs, {}) == 0
    decreases |evs|
  {
    if evs == [] {
    } else {
      ComparedNone(Codes.Apply(d, evs[0]).0, evs[1..]);
    }
  }

  lemma {:induction false} FivePerCode(d: Codes.Db, evs: seq<Codes.Event>, ids: set<Codes.Id>)
    requires CodeRuns.RowsBorn(d) && CodeRuns.PossibleRun(d, evs)
    ensures ComparedIn(d, evs, ids) <= 5 * |ids|
    decreases |ids|
  {
    if ids == {} {
      ComparedNone(d, evs);
    } else {
      var x :| x in ids;
      FivePerCode(d, evs, ids - {x});
      ComparedSplit(d, evs, ids, x);
      CodeRuns.RunSpendsBudget(d, evs, x);
    }
  }

  // --- Five codes per hour -------------------------------------------------------------------------------------

  function LimitRun(evs: seq<Event>): seq<RateLimits.Event> {
    if evs == [] then [] else LimitEvents(evs[0]) + LimitRun(evs[1..])
  }

  /** What an event may ask of the limiter. */
  lemma LimitOfEvent(w: World, e: Event, email: string, clients: set<ClientId>, k: nat)
    requires Enabled(w, e, clients, k)
    ensures |LimitEvents(e)| <= 1 && w.clock <= e.at == Apply(w, e).clock && (LimitEvents(e) != [] ==> LimitEvents(e)[0].at == e.at)
    ensures RateLimits.Configured(LimitEvents(e), OTP_BUCKET + email, OTP_REQUESTS_PER_HOUR, HOUR)
    ensures RateLimits.PrunesOld(LimitEvents(e), HOUR)
  {
    hide Accepted, Normalized, Codes.Apply, Codes.Possible, RateLimits.Apply, RateLimits.Allowed;
    assert OTP_BUCKET <= OTP_BUCKET + email;
  }

  lemma {:induction false} LimitRunValid(w: World, now: Time, evs: seq<Event>, email: string, clients: set<ClientId>, k: nat)
    requires ValidRun(w, evs, clients, k) && now <= w.clock
    ensures RateLimits.ValidRun(now, LimitRun(evs))
    ensures RateLimits.Configured(LimitRun(evs), OTP_BUCKET + email, OTP_REQUESTS_PER_HOUR, HOUR)
    ensures RateLimits.PrunesOld(LimitRun(evs), HOUR)
    decreases |evs|
  {
    hide Enabled, Apply, LimitEvents;
    if evs == [] {
    } else {
      LimitOfEvent(w, evs[0], email, clients, k);
      var ls, rest := LimitEvents(evs[0]), LimitRun(evs[1..]);
      if ls == [] {
        LimitRunValid(Apply(w, evs[0]), now, evs[1..], email, clients, k);
        assert ls + rest == rest;
      } else {
        LimitRunValid(Apply(w, evs[0]), evs[0].at, evs[1..], email, clients, k);
        assert (ls + rest)[0] == ls[0] && (ls + rest)[1..] == rest;
        assert forall j :: 0 < j < |ls + rest| ==> (ls + rest)[j] == rest[j - 1];
      }
    }
  }

  /** The codes asked for in aligned hour number `n`. */
  ghost function AskedIn(tickets: map<Codes.Id, Ticket>, email: string, n: int): set<Codes.Id> {
    set id | id in tickets && tickets[id].email == email && tickets[id].allowedAt / HOUR == n
  }

  lemma AskStep(w: World, e: Event, email: string, n: int, clients: set<ClientId>, k: nat)
    requires Enabled(w, e, clients, k)
    ensures |AskedIn(Apply(w, e).tickets, email, n)| <= |AskedIn(w.tickets, email, n)| +
            if LimitEvents(e) == [] then 0
            else One(RateLimits.Hits(LimitEvents(e)[0], OTP_BUCKET + email, HOUR, n) &&
                                RateLimits.Allowed(w.limits, LimitEvents(e)[0]))
  {
    var before, after := AskedIn(w.tickets, email, n), AskedIn(Apply(w, e).tickets, email, n);
    if e.Ask? && e.email == email && e.at / HOUR == n && RateLimits.Allowed(w.limits, AskEvent(email, e.at)) {
      assert after == before + {e.id};
    } else {
      assert after == before;
    }
  }

  lemma {:induction false} AskRun(w: World, evs: seq<Event>, email: string, n: int, clients: set<ClientId>, k: nat)
    requires ValidRun(w, evs, clients, k)
    ensures |AskedIn(Final(w, evs).tickets, email, n)| <=
            |AskedIn(w.tickets, email, n)| + RateLimits.Grants(w.limits, LimitRun(evs), OTP_BUCKET + email, HOUR, n)
    decreases |evs|
  {
    hide RateLimits.Apply, RateLimits.Allowed, AskedIn, Enabled;
    if evs == [] {
    } else {
      AskStep(w, evs[0], email, n, clients, k);
      AskRun(Apply(w, evs[0]), evs[1..], email, n, clients, k);
      var ls, rest := LimitEvents(evs[0]), LimitRun(evs[1..]);
      if ls == [] {
        assert ls + rest == rest;
      } else {
        assert (ls + rest)[0] == ls[0] && (ls + rest)[1..] == rest;
      }
    }
  }

  /** At most five codes are ever asked for in one aligned hour for one email. */
  lemma FiveCodesPerHour(now: Time, evs: seq<Event>, email: string, n: int, clients: set<ClientId>, k: nat)
    requires ValidRun(Start(now), evs, clients, k)
    ensures |AskedIn(Final(Start(now), evs).tickets, email, n)| <= 5
  {
    AskRun(Start(now), evs, email, n, clients, k);
    LimitRunValid(Start(now), now, evs, email, clients, k);
    RateLimits.WindowGrantsExactly(map[], now, LimitRun(evs), OTP_BUCKET + email, OTP_REQUESTS_PER_HOUR, HOUR, n);
    assert AskedIn(map[], email, n) == {};
  }

  /** The codes asked for in that hour or one of the `k` before it. */
  ghost function AskedSince(tickets: map<Codes.Id, Ticket>, email: string, n: int, k: nat): set<Codes.Id> {
    set id | id in tickets && tickets[id].email == email && n - k <= tickets[id].allowedAt / HOUR <= n
  }

  lemma AskedSplit(tickets: map<Codes.Id, Ticket>, email: string, n: int, j: nat)
    ensures AskedSince(tickets, email, n, 0) == AskedIn(tickets, email, n)
    ensures 0 < j ==>
      AskedSince(tickets, email, n, j) == AskedSince(tickets, email, n, j - 1) + AskedIn(tickets, email, n - j)
  {
  }

  lemma {:induction false} AskedSinceBound(now: Time, evs: seq<Event>, email: string, n: int, clients: set<ClientId>, k: nat, j: nat)
    requires ValidRun(Start(now), evs, clients, k)
    ensures |AskedSince(Final(Start(now), evs).tickets, email, n, j)| <= 5 * (j + 1)
    decreases j
  {
    hide Start, ValidRun, Final, AskedIn, AskedSince;
    FiveCodesPerHour(now, evs, email, n - j, clients, k);
    AskedSplit(Final(Start(now), evs).tickets, email, n, j);
    if j == 0 {
    } else {
      AskedSinceBound(now, evs, email, n, clients, k, j - 1);
    }
  }

  // --- The bound ------------------------------------------------------------------------------------------------

  ghost predicate TicketsKept(w: World, w': World) {
    forall id :: id in w.tickets ==>
      && id in w'.tickets
      && w'.tickets[id].email == w.tickets[id].email
      && w'.tickets[id].allowedAt == w.tickets[id].allowedAt
  }

  lemma {:induction false} RunKeepsTickets(w: World, evs: seq<Event>, clients: set<ClientId>, k: nat)
    requires ValidRun(w, evs, clients, k)
    ensures TicketsKept(w, Final(w, evs))
    decreases |evs|
  {
    if evs == [] {
    } else {
      assert TicketsKept(w, Apply(w, evs[0]));
      RunKeepsTickets(Apply(w, evs[0]), evs[1..], clients, k);
    }
  }

  lemma TryIsComparison(w: World, e: Event, last: World, email: string, source: string, n: int, clients: set<ClientId>, k: nat)
    requires WorldInv(w, clients, k) && Enabled(w, e, clients, k) && TicketsKept(w, last) && Tries(w, e, email, n)
    requires OnlySource(clients, email, source)
    ensures ComparesOne(w.codes, VerifyEvent(e), AskedSince(last.tickets, source, n, k))
  {
    var id :| CodeRuns.Compares(w.codes, VerifyEvent(e), id);
    ComparedIsTicketed(w, e, id, source, clients, k);
    assert id in last.tickets;
  }

  lemma {:induction false} GuessesAreComparisons(w: World, evs: seq<Event>, email: string, source: string, n: int, clients: set<ClientId>, k: nat)
    requires WorldInv(w, clients, k) && ValidRun(w, evs, clients, k) && OnlySource(clients, email, source)
    ensures Guesses(w, evs, email, n) <=
            ComparedIn(w.codes, CodeRun(w, evs), AskedSince(Final(w, evs).tickets, source, n, k))
    decreases |evs|
  {
    hide WorldInv, Enabled, Codes.Apply, ComparesOne, AskedSince, TicketsKept, Tries, OnlySource;
    if evs == [] {
    } else {
      var w', e := Apply(w, evs[0]), evs[0];
      StepKeepsWorld(w, e, clients, k);
      GuessesAreComparisons(w', evs[1..], email, source, n, clients, k);
      RunKeepsTickets(w, evs, clients, k);
      var cs, rest := CodeEvents(w, e), CodeRun(w', evs[1..]);
      if Tries(w, e, email, n) {
        TryIsComparison(w, e, Final(w, evs), email, source, n, clients, k);
        TriesIsVerify(w, e, email, n);
      }
      if cs == [] {
        assert cs + rest == rest;
      } else {
        assert (cs + rest)[0] == cs[0] && (cs + rest)[1..] == rest;
      }
    }
  }

  lemma TriesIsVerify(w: World, e: Event, email: string, n: int)
    requires Tries(w, e, email, n)
    ensures e.Verify?
  {
  }

  /** In any aligned hour of any run, the guesses compared with login codes for one email, all clients taken
      together, are at most 25 for that hour and each of the `k` before it: five requests an hour, five
      guesses a code. The client ids crowd no address. */
  lemma GuessesPerHour(now: Time, evs: seq<Event>, email: string, n: int, clients: set<ClientId>, k: nat)
    requires !Crowded(clients) && ValidRun(Start(now), evs, clients, k)
    ensures Guesses(Start(now), evs, email, n) <= 25 * (k + 1)
  {
    var w := Start(now);
    var source := SomeSource(clients, email);
    hide Crowded, OnlySource;
    GuessesAreComparisons(w, evs, email, source, n, clients, k);
    CodeRunValid(w, evs, clients, k);
    FivePerCode(w.codes, CodeRun(w, evs), AskedSince(Final(w, evs).tickets, source, n, k));
    AskedSinceBound(now, evs, source, n, clients, k, k);
  }

  /** With codes that live ten minutes and requests that take no more than fifty, codes reach back at most
      one window: fifty guesses an hour. */
  lemma FiftyGuessesPerHour(now: Time, evs: seq<Event>, email: string, n: int, clients: set<ClientId>)
    requires !Crowded(clients) && ValidRun(Start(now), evs, clients, 1)
    ensures Guesses(Start(now), evs, email, n) <= 50
  {
    hide Crowded;
    GuessesPerHour(now, evs, email, n, clients, 1);
  }
}
