/** The rate limits of the handlers, over whole runs of requests: which request is refused is told by counting those
    before it in the same aligned window. */
module ServiceLimits {
  import opened Prelude
  import opened Passwords
  import opened Service
  import opened ServiceRuns
  import GuessBound
  import RateLimits
  import Sessions

  /** What is counted, by whose address. */
  datatype Meter =
    | StartByIp | ExchangeByIp | RegisterByIp | LoginByIp | LoginByEmail | VerifyByIp | ForgotByIp | ForgotByEmail | ResetByIp
    | OtpByIp | OtpByEmail | OtpVerifyByIp | RefreshByIp

  /** How many requests a window admits. */
  function Limit(m: Meter): nat {
    match m
    case StartByIp => 60
    case ExchangeByIp => 120
    case RegisterByIp => 10
    case LoginByIp => 30
    case LoginByEmail => 10
    case VerifyByIp => 30
    case ForgotByIp => 10
    case ForgotByEmail => 3
    case ResetByIp => 20
    case OtpByIp => 20
    case OtpByEmail => 5
    case OtpVerifyByIp => 30
    case RefreshByIp => 120
  }

  function Window(m: Meter): Time {
    if m.LoginByIp? || m.LoginByEmail? then 15 * MINUTE else HOUR
  }

  /** The meters a request is counted by, in the order they are asked, each for an address. */
  function MetersOf(e: Request): seq<(Meter, string)> {
    match e
    case Start(Some(ip), _, _, _, _, _, _, _, _) => [(StartByIp, ip)]
    case Exchange(ip, _, _, _, _, _, _, _) => [(ExchangeByIp, ip)]
    case Register(ip, _, _, password, _, _, _, _, _, _) => if 10 <= |password| then [(RegisterByIp, ip)] else []
    case Login(ip, _, email, _, _, _, _, _) => [(LoginByIp, ip), (LoginByEmail, email)]
    case VerifyEmail(ip, _, _) => [(VerifyByIp, ip)]
    case Forgot(ip, email, _, _, _) => [(ForgotByIp, ip), (ForgotByEmail, email)]
    case Reset(ip, _, password, _, _) => if 10 <= |password| then [(ResetByIp, ip)] else []
    case OtpRequest(ip, _, email, _, _, _) => [(OtpByIp, ip), (OtpByEmail, email)]
    case OtpVerify(ip, _, _, _, _, _, _, _, _) => [(OtpVerifyByIp, ip)]
    case Refresh(ip, _, _, _, _, _) => [(RefreshByIp, ip)]
    case _ => []
  }

  /** How many of the requests so far the meter has counted for the address in its aligned window number `n`. */
  function Counted(done: seq<Request>, m: Meter, key: string, n: int): nat
    decreases |done|, 0
  {
    if done == [] then 0
    else
      var rest, e := done[..|done| - 1], done[|done| - 1];
      Counted(rest, m, key, n) + One(e.at / Window(m) == n && Reaches(rest, e, m, key))
  }

  /** The meter's limit has been counted in the window of the request. */
  predicate Full(done: seq<Request>, e: Request, m: Meter, key: string)
    decreases |done|, 1
  {
    Limit(m) <= Counted(done, m, key, e.at / Window(m))
  }

  /** The request is counted by the meter, unless one asked before refuses it. */
  predicate Reaches(done: seq<Request>, e: Request, m: Meter, key: string)
    decreases |done|, 2
  {
    var ms := MetersOf(e);
    || (0 < |ms| && ms[0] == (m, key))
    || (1 < |ms| && ms[1] == (m, key) && !Full(done, e, ms[0].0, ms[0].1))
  }

  predicate Refused(done: seq<Request>, e: Request) {
    exists i :: 0 <= i < |MetersOf(e)| && Full(done, e, MetersOf(e)[i].0, MetersOf(e)[i].1)
  }

  // --- Each meter has buckets of its own --------------------------------------------------------------------

  function Name(m: Meter): string {
    match m
    case StartByIp => "oauth"
    case ExchangeByIp => "exchange"
    case RegisterByIp => "register"
    case LoginByIp => "login"
    case LoginByEmail => "login"
    case VerifyByIp => "verify"
    case ForgotByIp => "forgot"
    case ForgotByEmail => "forgot"
    case ResetByIp => "reset"
    case OtpByIp => "otp"
    case OtpByEmail => "otp"
    case OtpVerifyByIp => "otpv"
    case RefreshByIp => "refresh"
  }

  function Kind(m: Meter): string {
    if m.LoginByEmail? || m.ForgotByEmail? || m.OtpByEmail? then "id" else "ip"
  }

  function Bucket(m: Meter, key: string): string {
    Name(m) + (":" + (Kind(m) + (":" + key)))
  }

  lemma ColonAt(x: string, s: string, y: string, t: string)
    requires x + (":" + s) == y + (":" + t) && |x| < |y|
    ensures ':' in y
  {
    assert (x + (":" + s))[|x|] == ':' && (y + (":" + t))[|x|] == y[|x|];
  }

  lemma ColonSplits(x: string, s: string, y: string, t: string)
    requires ':' !in x && ':' !in y && x + (":" + s) == y + (":" + t)
    ensures x == y && s == t
  {
    if |x| < |y| {
      ColonAt(x, s, y, t);
    } else if |y| < |x| {
      ColonAt(y, t, x, s);
    } else {
      var z := x + (":" + s);
      assert z[..|x|] == x && z[..|y|] == y && z[|x| + 1..] == s && z[|y| + 1..] == t;
    }
  }

  lemma NamesArePlain(m: Meter)
    ensures ':' !in Name(m) && ':' !in Kind(m)
  {
  }

  lemma NamesIdentify(m: Meter, m': Meter)
    requires Name(m) == Name(m') && Kind(m) == Kind(m')
    ensures m == m'
  {
    assert "login" != "otp" && "login" != "otpv" && |Name(m)| == |Name(m')| && Name(m)[0] == Name(m')[0] && Name(m)[2] == Name(m')[2];
  }

  /** No two meters, and no two addresses, share a bucket. */
  lemma BucketsApart(m: Meter, key: string, m': Meter, key': string)
    requires Bucket(m, key) == Bucket(m', key')
    ensures m == m' && key == key'
  {
    hide Name, Kind;
    NamesArePlain(m);
    NamesArePlain(m');
    ColonSplits(Name(m), Kind(m) + (":" + key), Name(m'), Kind(m') + (":" + key'));
    ColonSplits(Kind(m), key, Kind(m'), key');
    NamesIdentify(m, m');
  }

  function ChargeOf(m: (Meter, string), at: Time): RateLimits.Event {
    RateLimits.Allow(Bucket(m.0, m.1), Limit(m.0), Window(m.0), at)
  }

  function Text(m: Meter): string {
    match m
    case StartByIp => "oauth:ip:"
    case ExchangeByIp => "exchange:ip:"
    case RegisterByIp => "register:ip:"
    case LoginByIp => "login:ip:"
    case LoginByEmail => "login:id:"
    case VerifyByIp => "verify:ip:"
    case ForgotByIp => "forgot:ip:"
    case ForgotByEmail => "forgot:id:"
    case ResetByIp => "reset:ip:"
    case OtpByIp => "otp:ip:"
    case OtpByEmail => "otp:id:"
    case OtpVerifyByIp => "otpv:ip:"
    case RefreshByIp => "refresh:ip:"
  }

  lemma TextIs(m: Meter)
    ensures Text(m) == Name(m) + ":" + Kind(m) + ":"
  {
  }

  lemma BucketIs(m: Meter, key: string)
    ensures Bucket(m, key) == Text(m) + key
  {
    hide Text, Name, Kind;
    TextIs(m);
    assert Bucket(m, key) == Name(m) + ":" + Kind(m) + ":" + key;
  }

  /** What the handlers ask of the limiter is what the meters say. */
  lemma ChargesAreMeters(e: Request)
    ensures |Charges(e)| == |MetersOf(e)| <= 2
    ensures forall i :: 0 <= i < |Charges(e)| ==> Charges(e)[i] == ChargeOf(MetersOf(e)[i], e.at)
    ensures |MetersOf(e)| == 2 ==> MetersOf(e)[0].0 != MetersOf(e)[1].0
  {
    hide Bucket;
    forall m, key ensures Bucket(m, key) == Text(m) + key {
      BucketIs(m, key);
    }
    OtpBucket();
  }

  lemma OtpBucket()
    ensures GuessBound.OTP_BUCKET == Text(OtpByEmail) && GuessBound.OTP_REQUESTS_PER_HOUR == Limit(OtpByEmail)
  {
  }

  // --- The table counts what the history says ---------------------------------------------------------------------

  /** The count of every window that the clock has not left. */
  ghost predicate Matches(c: RateLimits.Counts, done: seq<Request>, clock: Time) {
    forall m, key, n :: clock < Window(m) * n + Window(m) ==>
      RateLimits.CountAt(c, Bucket(m, key), Window(m) * n) == Counted(done, m, key, n)
  }

  lemma WindowPositive(m: Meter)
    ensures 0 < Window(m) <= HOUR
  {
  }

  /** The limiter says yes exactly when the meter is not full. */
  lemma AllowedIsNotFull(c: RateLimits.Counts, done: seq<Request>, e: Request, clock: Time, m: Meter, key: string)
    requires Matches(c, done, clock) && clock <= e.at
    ensures RateLimits.Allowed(c, ChargeOf((m, key), e.at)) <==> !Full(done, e, m, key)
  {
    WindowPositive(m);
    RateLimits.DivBounds(e.at, Window(m));
    assert RateLimits.CountAt(c, Bucket(m, key), Window(m) * (e.at / Window(m))) == Counted(done, m, key, e.at / Window(m));
  }

  /** Counting at one meter's bucket. */
  lemma OneCharge(c: RateLimits.Counts, x: (Meter, string), at: Time, m: Meter, key: string, n: int)
    ensures RateLimits.CountAt(RateLimits.Apply(c, ChargeOf(x, at)), Bucket(m, key), Window(m) * n) ==
            RateLimits.CountAt(c, Bucket(m, key), Window(m) * n) + One(x == (m, key) && at / Window(m) == n)
  {
    hide Bucket;
    WindowPositive(m);
    WindowPositive(x.0);
    if Bucket(x.0, x.1) == Bucket(m, key) {
      BucketsApart(x.0, x.1, m, key);
    }
    RateLimits.HitCounts(c, ChargeOf(x, at), Bucket(m, key), Window(m), n);
  }

  lemma ChargesMatch(c: RateLimits.Counts, done: seq<Request>, e: Request, clock: Time)
    requires Matches(c, done, clock) && clock <= e.at
    ensures Passes(c, Charges(e)) <==> !Refused(done, e)
    ensures !e.PruneOnce? ==> Matches(Charged(c, Charges(e)), done + [e], e.at)
  {
    hide Counted, Charges, MetersOf, Bucket, RateLimits.Apply, RateLimits.Allowed, Full, Window, Matches;
    var ms, cs := MetersOf(e), Charges(e);
    ChargesAreMeters(e);
    PassesBy(c, done, e, clock);
    forall m, key, n | e.at < Window(m) * n + Window(m)
      ensures RateLimits.CountAt(Charged(c, cs), Bucket(m, key), Window(m) * n) == Counted(done + [e], m, key, n)
    {
      CountsOne(c, done, e, clock, m, key, n);
    }
    MatchesAll(Charged(c, cs), done + [e], e.at);
  }

  lemma MatchesAll(c: RateLimits.Counts, done: seq<Request>, clock: Time)
    requires forall m, key, n :: clock < Window(m) * n + Window(m) ==>
      RateLimits.CountAt(c, Bucket(m, key), Window(m) * n) == Counted(done, m, key, n)
    ensures Matches(c, done, clock)
  {
  }

  lemma MatchesOne(c: RateLimits.Counts, done: seq<Request>, clock: Time, m: Meter, key: string, n: int)
    requires Matches(c, done, clock) && clock < Window(m) * n + Window(m)
    ensures RateLimits.CountAt(c, Bucket(m, key), Window(m) * n) == Counted(done, m, key, n)
  {
  }

  lemma PassesBy(c: RateLimits.Counts, done: seq<Request>, e: Request, clock: Time)
    requires Matches(c, done, clock) && clock <= e.at
    ensures Passes(c, Charges(e)) <==> !Refused(done, e)
    ensures |Charges(e)| == 2 ==> (RateLimits.Allowed(c, Charges(e)[0]) <==> !Full(done, e, MetersOf(e)[0].0, MetersOf(e)[0].1))
  {
    hide Charges, MetersOf, Bucket, RateLimits.Apply, RateLimits.Allowed, Full, Matches, Limit, Window;
    var ms, cs := MetersOf(e), Charges(e);
    ChargesAreMeters(e);
    if |ms| == 1 {
      AllowedIsNotFull(c, done, e, clock, ms[0].0, ms[0].1);
      assert cs == [cs[0]];
      PassesOne(c, cs[0]);
    } else if |ms| == 2 {
      AllowedIsNotFull(c, done, e, clock, ms[0].0, ms[0].1);
      AllowedIsNotFull(c, done, e, clock, ms[1].0, ms[1].1);
      OtherMeter(c, ms[0], ms[1], e.at);
      assert cs == [cs[0], cs[1]];
      PassesTwo(c, cs[0], cs[1]);
    }
  }

  lemma PassesOne(c: RateLimits.Counts, x: RateLimits.Event)
    requires x.Allow?
    ensures Passes(c, [x]) <==> RateLimits.Allowed(c, x)
    ensures Charged(c, [x]) == RateLimits.Apply(c, x)
  {
    hide RateLimits.Apply, RateLimits.Allowed;
    assert [x][1..] == [];
    assert Passes(RateLimits.Apply(c, x), []) && Charged(RateLimits.Apply(c, x), []) == RateLimits.Apply(c, x);
  }

  lemma PassesTwo(c: RateLimits.Counts, x: RateLimits.Event, y: RateLimits.Event)
    requires x.Allow? && y.Allow?
    ensures Passes(c, [x, y]) <==> RateLimits.Allowed(c, x) && RateLimits.Allowed(RateLimits.Apply(c, x), y)
    ensures Charged(c, [x, y]) ==
            if RateLimits.Allowed(c, x) then RateLimits.Apply(RateLimits.Apply(c, x), y) else RateLimits.Apply(c, x)
  {
    hide RateLimits.Apply, RateLimits.Allowed;
    assert [x, y][1..] == [y];
    PassesOne(RateLimits.Apply(c, x), y);
  }

  lemma OtherMeter(c: RateLimits.Counts, x: (Meter, string), y: (Meter, string), at: Time)
    requires x.0 != y.0
    ensures RateLimits.Allowed(RateLimits.Apply(c, ChargeOf(x, at)), ChargeOf(y, at)) <==> RateLimits.Allowed(c, ChargeOf(y, at))
  {
    WindowPositive(y.0);
    RateLimits.DivBounds(at, Window(y.0));
    OneCharge(c, x, at, y.0, y.1, at / Window(y.0));
  }

  lemma CountedNext(done: seq<Request>, e: Request, m: Meter, key: string, n: int)
    ensures Counted(done + [e], m, key, n) == Counted(done, m, key, n) + One(e.at / Window(m) == n && Reaches(done, e, m, key))
  {
    hide Window, Reaches;
    assert (done + [e])[..|done + [e]| - 1] == done && (done + [e])[|done + [e]| - 1] == e;
  }

  /** What charging one or two meters adds. */
  lemma ChargedCounts(c: RateLimits.Counts, e: Request, m: Meter, key: string, n: int)
    ensures var ms := MetersOf(e); var before := RateLimits.CountAt(c, Bucket(m, key), Window(m) * n);
      RateLimits.CountAt(Charged(c, Charges(e)), Bucket(m, key), Window(m) * n) ==
      if |ms| == 0 then before
      else if |ms| == 1 || !RateLimits.Allowed(c, ChargeOf(ms[0], e.at)) then before + One(ms[0] == (m, key) && e.at / Window(m) == n)
      else before + One(ms[0] == (m, key) && e.at / Window(m) == n) + One(ms[1] == (m, key) && e.at / Window(m) == n)
  {
    hide Charges, MetersOf, Bucket, RateLimits.Apply, RateLimits.Allowed, RateLimits.CountAt, Window, Charged, Passes, ChargeOf;
    var ms, cs := MetersOf(e), Charges(e);
    ChargesAreMeters(e);
    if |ms| == 0 {
      ChargedNothing(c);
    } else if |ms| == 1 {
      assert cs == [ChargeOf(ms[0], e.at)];
      IsAllow(ms[0], e.at);
      PassesOne(c, cs[0]);
      OneCharge(c, ms[0], e.at, m, key, n);
    } else {
      assert cs == [ChargeOf(ms[0], e.at), ChargeOf(ms[1], e.at)];
      IsAllow(ms[0], e.at);
      IsAllow(ms[1], e.at);
      PassesTwo(c, cs[0], cs[1]);
      OneCharge(c, ms[0], e.at, m, key, n);
      OneCharge(RateLimits.Apply(c, cs[0]), ms[1], e.at, m, key, n);
    }
  }

  lemma IsAllow(x: (Meter, string), at: Time)
    ensures ChargeOf(x, at).Allow?
  {
  }

  lemma CountsOne(c: RateLimits.Counts, done: seq<Request>, e: Request, clock: Time, m: Meter, key: string, n: int)
    requires Matches(c, done, clock) && clock <= e.at && e.at < Window(m) * n + Window(m)
    ensures RateLimits.CountAt(Charged(c, Charges(e)), Bucket(m, key), Window(m) * n) == Counted(done + [e], m, key, n)
  {
    hide Charges, MetersOf, Bucket, RateLimits.Apply, RateLimits.Allowed, RateLimits.CountAt, Full, Window, Matches, Counted, Charged, Passes, Refused, ChargeOf;
    var ms := MetersOf(e);
    AtMostTwo(e);
    MatchesOne(c, done, clock, m, key, n);
    CountedNext(done, e, m, key, n);
    ChargedCounts(c, e, m, key, n);
    if |ms| == 2 {
      AllowedIsNotFull(c, done, e, clock, ms[0].0, ms[0].1);
    }
  }

  lemma AtMostTwo(e: Request)
    ensures |MetersOf(e)| <= 2 && (|MetersOf(e)| == 2 ==> MetersOf(e)[0].0 != MetersOf(e)[1].0)
  {
  }

  lemma ChargedNothing(c: RateLimits.Counts)
    ensures Charged(c, []) == c
  {
  }

  lemma PruneMatches(c: RateLimits.Counts, done: seq<Request>, e: Request, clock: Time)
    requires Matches(c, done, clock) && clock <= e.at && e.PruneOnce?
    ensures Matches(RateLimits.Apply(c, RateLimits.Prune(WINDOW_GRACE, e.at)), done + [e], e.at)
  {
    hide Bucket, Matches, Window;
    var c' := RateLimits.Apply(c, RateLimits.Prune(WINDOW_GRACE, e.at));
    assert (done + [e])[..|done|] == done && (done + [e])[|done|] == e;
    forall m, key, n | e.at < Window(m) * n + Window(m)
      ensures RateLimits.CountAt(c', Bucket(m, key), Window(m) * n) == Counted(done + [e], m, key, n)
    {
      WindowPositive(m);
      MatchesOne(c, done, clock, m, key, n);
    }
    MatchesAll(c', done + [e], e.at);
  }

  lemma CountsNext(w: World, e: Request, kdf: Kdf)
    ensures Next(w, e, kdf).counts == CountsAfter(w, e) && Next(w, e, kdf).clock == e.at
  {
    hide TablesAfter, SessionEvents, CodeEvents, OAuthCalls, CountsAfter, PasswordsAfter, OAuthAfter;
  }

  lemma {:induction false} RunMatches(w: World, done: seq<Request>, evs: seq<Request>, k: nat, kdf: Kdf)
    requires ValidRun(w, evs, kdf) && Matches(w.counts, done, w.clock) && k <= |evs|
    ensures Matches(At(w, evs, k, kdf).counts, done + evs[..k], At(w, evs, k, kdf).clock)
    ensures k < |evs| ==> Enabled(At(w, evs, k, kdf), evs[k])
    decreases k
  {
    hide Enabled, Next, Matches, Charges;
    if k == 0 {
      assert done + evs[..0] == done;
    } else {
      var e, n := evs[0], Next(w, evs[0], kdf);
      EnabledClock(w, e);
      CountsNext(w, e, kdf);
      if e.PruneOnce? {
        PruneMatches(w.counts, done, e, w.clock);
      } else {
        ChargesMatch(w.counts, done, e, w.clock);
      }
      RunMatches(n, done + [e], evs[1..], k - 1, kdf);
      assert done + [e] + evs[1..][..k - 1] == done + evs[..k];
    }
  }

  lemma EmptyMatches(now: Time)
    ensures Matches(map[], [], now)
  {
  }

  /** Over every run of the service, a request is refused by the limiter if and only if one of its meters has counted
      its limit of requests, among those before it in the same aligned window; pruning makes no difference. */
  lemma LimitedExactly(now: Time, evs: seq<Request>, k: nat, kdf: Kdf)
    requires ValidRun(Empty(now), evs, kdf) && k < |evs|
    ensures ReplyTo(At(Empty(now), evs, k, kdf), evs[k], kdf) == Denied(RateLimited) <==> Refused(evs[..k], evs[k])
  {
    hide Enabled, Next, Matches, Charges, ReplyTo, Refused;
    EmptyMatches(now);
    RunMatches(Empty(now), [], evs, k, kdf);
    assert [] + evs[..k] == evs[..k];
    var w := At(Empty(now), evs, k, kdf);
    EnabledClock(w, evs[k]);
    ChargesMatch(w.counts, evs[..k], evs[k], w.clock);
    RefusedReply(w, evs[k], kdf);
  }

  lemma RefusedReply(w: World, e: Request, kdf: Kdf)
    ensures ReplyTo(w, e, kdf) == Denied(RateLimited) <==> !Admits(w, e)
  {
    hide Verify, Sessions.Apply, RateLimits.Allowed, RateLimits.Apply;
  }
}
