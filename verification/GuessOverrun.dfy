/** Why the guess bound needs client ids that crowd no address: where they do, the windows of two addresses feed
    codes to the guesses at one. */
module GuessOverrun {
  import opened Prelude
  import opened Emails
  import opened OtpIdentifiers
  import opened GuessBound
  import Codes
  import CodeRuns
  import RateLimits

  const RIGHT := "123456"
  const WRONG := "654321"

  /** The hour in which the guesses are made. */
  const BEGINNING: Time := HOUR

  /** The client to guess with, the client to ask with and the address to ask at, for either source of codes. */
  function Guesser(x: Crowding, one: bool): ClientId { if one then x.c else x.c' }

  function Asker(x: Crowding, one: bool): ClientId { if one then x.d else x.d' }

  function Source(x: Crowding, one: bool): string { if one then x.f else x.f' }

  function KeyOf(x: Crowding, one: bool): Codes.Key {
    Codes.Key(OtpIdentifier(Guesser(x, one), x.e), Codes.LoginOtp)
  }

  function CountIn(w: World, email: string): nat {
    RateLimits.CountAt(w.limits, OTP_BUCKET + email, BEGINNING)
  }

  /** Ids from `next` on are new, and these many codes have been asked for in the hour. */
  ghost predicate Ready(w: World, x: Crowding, next: Codes.Id, asked: nat, asked': nat) {
    && w.clock <= BEGINNING && w.codes.clock <= BEGINNING && CodeRuns.RowsBorn(w.codes)
    && (forall i :: i in w.tickets || i in w.codes.born ==> i < next)
    && CountIn(w, x.f) == asked && CountIn(w, x.f') == asked'
  }

  /** One code is outstanding, with `a` misses. */
  ghost predicate Guessable(w: World, x: Crowding, one: bool, id: Codes.Id, a: nat) {
    && id in w.codes.rows && w.codes.rows[id].secret == RIGHT && w.codes.rows[id].attempts == a < 5
    && BEGINNING <= w.codes.rows[id].expiresAt
    && forall i :: Codes.Outstanding(w.codes.rows, KeyOf(x, one), i) <==> i == id
  }

  function Wrong(x: Crowding, one: bool): Event {
    Verify(Guesser(x, one), x.e, WRONG, BEGINNING)
  }

  lemma OneGuess(w: World, x: Crowding, one: bool, id: Codes.Id, a: nat, next: Codes.Id, asked: nat, asked': nat, clients: set<ClientId>)
    requires Shares(x, clients) && Ready(w, x, next, asked, asked') && Guessable(w, x, one, id, a)
    ensures Enabled(w, Wrong(x, one), clients, 1) && Tries(w, Wrong(x, one), x.e, 1)
    ensures var n := Apply(w, Wrong(x, one)); Ready(n, x, next, asked, asked') && (a < 4 ==> Guessable(n, x, one, id, a + 1))
  {
    hide Normalized, Accepted;
    var v, k := VerifyEvent(Wrong(x, one)), KeyOf(x, one);
    assert Codes.Newest(w.codes.rows, k, id);
    assert Codes.Outstanding(w.codes.rows, k, Codes.Current(w.codes.rows, k).value);
    assert CodeRuns.Compares(w.codes, v, id);
    var n := Apply(w, Wrong(x, one));
    forall i ensures Codes.Outstanding(n.codes.rows, k, i) <==> i == id && a < 4 {
      assert Codes.Outstanding(w.codes.rows, k, i) <==> i == id;
    }
  }

  lemma StepFirst(w: World, e: Event, rest: seq<Event>, clients: set<ClientId>, email: string)
    requires Enabled(w, e, clients, 1) && ValidRun(Apply(w, e), rest, clients, 1)
    ensures ValidRun(w, [e] + rest, clients, 1) && Final(w, [e] + rest) == Final(Apply(w, e), rest)
    ensures Guesses(w, [e] + rest, email, 1) == One(Tries(w, e, email, 1)) + Guesses(Apply(w, e), rest, email, 1)
  {
    hide Apply, Enabled, Tries;
    assert ([e] + rest)[1..] == rest;
  }

  /** The guesses a code has left are made. */
  lemma {:induction false} GuessAll(w: World, x: Crowding, one: bool, id: Codes.Id, a: nat, next: Codes.Id, asked: nat, asked': nat, clients: set<ClientId>)
    returns (evs: seq<Event>)
    requires Shares(x, clients) && Ready(w, x, next, asked, asked') && Guessable(w, x, one, id, a)
    ensures ValidRun(w, evs, clients, 1) && Guesses(w, evs, x.e, 1) == 5 - a
    ensures Ready(Final(w, evs), x, next, asked, asked')
    decreases 5 - a
  {
    hide Enabled, Apply, Tries, Ready, Shares;
    var n := Apply(w, Wrong(x, one));
    OneGuess(w, x, one, id, a, next, asked, asked', clients);
    var rest := [];
    if a < 4 {
      rest := GuessAll(n, x, one, id, a + 1, next, asked, asked', clients);
    }
    StepFirst(w, Wrong(x, one), rest, clients, x.e);
    evs := [Wrong(x, one)] + rest;
  }

  /** The number of codes asked for at the first address, or at the second, after one more. */
  function More(asked: nat, counts: bool): nat { if counts then asked + 1 else asked }

  /** A code can be asked for at the beginning of the hour, or, once, at the first address just before it. */
  predicate CanAsk(w: World, one: bool, askAt: Time, asked: nat, asked': nat) {
    && w.clock <= askAt
    && (askAt == BEGINNING || (askAt == BEGINNING - 1 && one && w.limits == map[]))
    && (askAt == BEGINNING ==> if one then asked < 5 else asked' < 5)
  }

  lemma AskAndStore(w: World, x: Crowding, next: Codes.Id, asked: nat, asked': nat, one: bool, askAt: Time, clients: set<ClientId>)
    returns (ask: Event, store: Event)
    requires Shares(x, clients) && Ready(w, x, next, asked, asked') && CanAsk(w, one, askAt, asked, asked')
    ensures Enabled(w, ask, clients, 1) && Enabled(Apply(w, ask), store, clients, 1)
    ensures !ask.Verify? && !store.Verify?
    ensures var n := Apply(Apply(w, ask), store);
      && Guessable(n, x, one, next, 0)
      && Ready(n, x, next + 1, More(asked, one && askAt == BEGINNING), More(asked', !one))
  {
    hide Normalized, Accepted;
    ask := Ask(Source(x, one), next, askAt);
    store := Store(next, Asker(x, one), RIGHT, {}, BEGINNING);
    BucketsDiffer(x, clients);
    RateLimits.DivBounds(askAt, HOUR);
    Asked(w, x, next, asked, asked', one, askAt);
    Stored(Apply(w, ask), x, one, next, clients);
  }

  lemma BucketsDiffer(x: Crowding, clients: set<ClientId>)
    requires Shares(x, clients)
    ensures OTP_BUCKET + x.f != OTP_BUCKET + x.f'
  {
    assert (OTP_BUCKET + x.f)[|OTP_BUCKET|..] == x.f && (OTP_BUCKET + x.f')[|OTP_BUCKET|..] == x.f';
  }

  /** The limiter says yes, and counts the call in the hour it is made. */
  lemma Asked(w: World, x: Crowding, next: Codes.Id, asked: nat, asked': nat, one: bool, askAt: Time)
    requires Ready(w, x, next, asked, asked') && OTP_BUCKET + x.f != OTP_BUCKET + x.f' && CanAsk(w, one, askAt, asked, asked')
    ensures var n := Apply(w, Ask(Source(x, one), next, askAt));
      && n.tickets == w.tickets[next := Ticket(Source(x, one), askAt, None)] && n.codes == w.codes
      && CountIn(n, x.f) == More(asked, one && askAt == BEGINNING) && CountIn(n, x.f') == More(asked', !one)
  {
    assert RateLimits.Truncate(BEGINNING, HOUR) == BEGINNING && RateLimits.Truncate(BEGINNING - 1, HOUR) == 0;
    assert RateLimits.Allowed(w.limits, AskEvent(Source(x, one), askAt));
  }

  lemma Stored(w: World, x: Crowding, one: bool, id: Codes.Id, clients: set<ClientId>)
    requires w.clock <= BEGINNING && w.codes.clock <= BEGINNING && CodeRuns.RowsBorn(w.codes) && Shares(x, clients)
    requires id in w.tickets && w.tickets[id].email == Source(x, one) && w.tickets[id].clientId.None? && id !in w.codes.born
    requires BEGINNING - 1 <= w.tickets[id].allowedAt
    ensures var store := Store(id, Asker(x, one), RIGHT, {}, BEGINNING); var n := Apply(w, store);
      && Enabled(w, store, clients, 1) && Guessable(n, x, one, id, 0)
      && n.limits == w.limits && n.clock == n.codes.clock == BEGINNING && CodeRuns.RowsBorn(n.codes)
      && n.tickets.Keys == w.tickets.Keys && n.codes.born == w.codes.born + {id}
  {
    hide Normalized, Accepted;
    var store := Store(id, Asker(x, one), RIGHT, {}, BEGINNING);
    var issue := StoreEvent(w.tickets[id], store);
    assert Codes.Possible(w.codes, issue);
    var n := Apply(w, store);
    forall i ensures Codes.Outstanding(n.codes.rows, KeyOf(x, one), i) <==> i == id {
    }
  }

  /** A code is asked for and all its guesses are used up. */
  lemma Round(w: World, x: Crowding, next: Codes.Id, asked: nat, asked': nat, one: bool, askAt: Time, clients: set<ClientId>)
    returns (evs: seq<Event>, n: World)
    requires Shares(x, clients) && Ready(w, x, next, asked, asked') && CanAsk(w, one, askAt, asked, asked')
    ensures ValidRun(w, evs, clients, 1) && Guesses(w, evs, x.e, 1) == 5 && n == Final(w, evs)
    ensures Ready(n, x, next + 1, More(asked, one && askAt == BEGINNING), More(asked', !one))
  {
    hide Enabled, Apply, Ready, Guessable, Shares, CanAsk;
    var ask, store := AskAndStore(w, x, next, asked, asked', one, askAt, clients);
    var w2 := Apply(Apply(w, ask), store);
    var tries := GuessAll(w2, x, one, next, 0, next + 1, More(asked, one && askAt == BEGINNING), More(asked', !one), clients);
    StepFirst(Apply(w, ask), store, tries, clients, x.e);
    StepFirst(w, ask, [store] + tries, clients, x.e);
    evs := [ask] + ([store] + tries);
    n := Final(w, evs);
  }

  lemma {:induction false} Joined(w: World, xs: seq<Event>, ys: seq<Event>, clients: set<ClientId>, email: string)
    requires ValidRun(w, xs, clients, 1) && ValidRun(Final(w, xs), ys, clients, 1)
    ensures ValidRun(w, xs + ys, clients, 1) && Final(w, xs + ys) == Final(Final(w, xs), ys)
    ensures Guesses(w, xs + ys, email, 1) == Guesses(w, xs, email, 1) + Guesses(Final(w, xs), ys, email, 1)
    decreases |xs|
  {
    hide Enabled, Apply, Tries;
    if xs == [] {
      assert xs + ys == ys;
    } else {
      assert (xs + ys)[1..] == xs[1..] + ys;
      Joined(Apply(w, xs[0]), xs[1..], ys, clients, email);
    }
  }

  /** Both addresses use up their windows of the hour. */
  lemma {:induction false} Rounds(w: World, x: Crowding, next: Codes.Id, asked: nat, asked': nat, clients: set<ClientId>)
    returns (evs: seq<Event>)
    requires Shares(x, clients) && Ready(w, x, next, asked, asked') && asked <= 5 && asked' <= 5
    ensures ValidRun(w, evs, clients, 1) && Guesses(w, evs, x.e, 1) == 5 * (5 - asked) + 5 * (5 - asked')
    decreases 10 - asked - asked'
  {
    hide Enabled, Apply, Tries, Shares;
    if asked == 5 && asked' == 5 {
      evs := [];
    } else {
      assert w.clock <= BEGINNING;
      hide Ready;
      var one := asked < 5;
      var first, n := Round(w, x, next, asked, asked', one, BEGINNING, clients);
      var rest := Rounds(n, x, next + 1, More(asked, one), More(asked', !one), clients);
      Joined(w, first, rest, clients, x.e);
      evs := first + rest;
    }
  }

  /** One code asked for just before the hour, and ten in it: 55 guesses. */
  lemma FiftyFiveGuesses(x: Crowding, clients: set<ClientId>) returns (evs: seq<Event>)
    requires Shares(x, clients)
    ensures ValidRun(Start(0), evs, clients, 1) && Guesses(Start(0), evs, x.e, 1) == 55
  {
    hide Shares;
    assert Ready(Start(0), x, 0, 0, 0);
    var first, n := Round(Start(0), x, 0, 0, 0, true, BEGINNING - 1, clients);
    var rest := Rounds(n, x, 1, 0, 0, clients);
    Joined(Start(0), first, rest, clients, x.e);
    evs := first + rest;
  }

  ghost predicate Bounded(clients: set<ClientId>) {
    forall now: Time, evs, email, n, k: nat :: ValidRun(Start(now), evs, clients, k) ==> Guesses(Start(now), evs, email, n) <= 25 * (k + 1)
  }

  /** The hourly bound holds, for all runs and all addresses, if and only if the client ids crowd no address. */
  lemma BoundedExactly(clients: set<ClientId>)
    ensures Bounded(clients) <==> !Crowded(clients)
  {
    hide ValidRun, Guesses, Start, Crowded, Shares;
    if !Crowded(clients) {
      forall now: Time, evs, email, n, k: nat | ValidRun(Start(now), evs, clients, k)
        ensures Guesses(Start(now), evs, email, n) <= 25 * (k + 1)
      {
        GuessesPerHour(now, evs, email, n, clients, k);
      }
    } else {
      var x := CrowdedShares(clients);
      var evs := FiftyFiveGuesses(x, clients);
      assert Guesses(Start(0), evs, x.e, 1) > 25 * (1 + 1);
    }
  }
}
