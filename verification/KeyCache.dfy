/** The SDK's cache of verification keys: sdk/go/keys.go. */
module KeyCaches {
  import opened Prelude

  type Key = string

  /** What one GET of the key set comes to: a 2xx body that parses to some keys or does not parse, another
      status, or no response at all. */
  datatype Answer = Parsed(keys: seq<Key>) | Garbled | Status(code: nat) | NoResponse

  predicate Delivered(a: Answer) {
    a.Parsed? || a.Garbled?
  }

  /** A status below 500 is a real answer. */
  predicate ShouldFailOver(a: Answer) {
    if a.Status? then a.code >= 500 else !Delivered(a)
  }

  /** The primary, or the fallback if there is one and the primary is broken. */
  function WithFallback(primary: Answer, fallback: Option<Answer>): Answer {
    if Delivered(primary) || fallback.None? || !ShouldFailOver(primary) then primary else fallback.value
  }

  datatype Cache = Cache(keys: Option<seq<Key>>, fetchedAt: Time, failed: bool)

  const COLD: Cache := Cache(None, 0, false)

  /** A fetch replaces the keys only with a non-empty set that parsed. */
  predicate Usable(a: Answer) {
    a.Parsed? && a.keys != []
  }

  function Fetched(c: Cache, a: Answer, now: Time): Cache {
    if Usable(a) then Cache(Some(a.keys), now, false) else c.(failed := true)
  }

  /** The fetch yields these keys: some, from the primary; or from the fallback, if the primary did not respond or
      responded with a server error. */
  predicate Delivers(primary: Answer, fallback: Option<Answer>, ks: seq<Key>) {
    && ks != []
    && (primary == Parsed(ks) || ((primary.NoResponse? || (primary.Status? && 500 <= primary.code)) && fallback == Some(Parsed(ks))))
  }

  /** A fetch stores exactly the keys it yields, at its instant; one that yields none leaves keys and timestamp. */
  lemma FetchedExactly(c: Cache, primary: Answer, fallback: Option<Answer>, now: Time)
    ensures Usable(WithFallback(primary, fallback)) <==> exists ks :: Delivers(primary, fallback, ks)
    ensures forall ks :: Delivers(primary, fallback, ks) ==> Fetched(c, WithFallback(primary, fallback), now) == Cache(Some(ks), now, false)
    ensures (forall ks :: !Delivers(primary, fallback, ks)) ==> Fetched(c, WithFallback(primary, fallback), now) == Cache(c.keys, c.fetchedAt, true)
  {
    var a := WithFallback(primary, fallback);
    if Usable(a) {
      assert Delivers(primary, fallback, a.keys);
    }
  }

  datatype Reply = Keys(keys: seq<Key>) | NoKeys | TooStale

  /** `maxStale` that is not positive disables expiry. */
  function Got(c: Cache, now: Time, maxStale: Time): Reply {
    if c.keys.None? then NoKeys
    else if 0 < maxStale && maxStale < now - c.fetchedAt then TooStale
    else Keys(c.keys.value)
  }

  class KeyCache {
    var cache: Cache
    /** Held while a refresh runs. */
    var refreshing: bool
    const refreshAfter: Time
    const maxStale: Time

    constructor (refreshAfter: Time, maxStale: Time)
      ensures cache == COLD && !refreshing && this.refreshAfter == refreshAfter && this.maxStale == maxStale
    {
      cache := COLD;
      refreshing := false;
      this.refreshAfter := refreshAfter;
      this.maxStale := maxStale;
    }

    /** Never fetches: it only says whether to kick off a refresh. */
    method Get(now: Time) returns (r: Reply, kick: bool)
      ensures r == Got(cache, now, maxStale)
      ensures r == NoKeys <==> cache.keys.None?
      ensures r == TooStale <==> cache.keys.Some? && 0 < maxStale && maxStale < now - cache.fetchedAt
      ensures r.Keys? ==> cache.keys == Some(r.keys)
      ensures kick <==> cache.keys.None? || refreshAfter < now - cache.fetchedAt
    {
      if cache.keys.None? {
        return NoKeys, true;
      }
      var age := now - cache.fetchedAt;
      kick := age > refreshAfter;
      if maxStale > 0 && age > maxStale {
        return TooStale, kick;
      }
      r := Keys(cache.keys.value);
    }

    method Fetch(primary: Answer, fallback: Option<Answer>, now: Time) returns (ok: bool)
      modifies this`cache
      ensures cache == Fetched(old(cache), WithFallback(primary, fallback), now)
      ensures ok <==> exists ks :: Delivers(primary, fallback, ks)
      ensures forall ks :: Delivers(primary, fallback, ks) ==> cache == Cache(Some(ks), now, false)
      ensures !ok ==> cache == Cache(old(cache).keys, old(cache).fetchedAt, true)
    {
      FetchedExactly(cache, primary, fallback, now);
      var body := primary;
      if !Delivered(primary) && fallback.Some? && ShouldFailOver(primary) {
        body := fallback.value;
      }
      if !Delivered(body) {
        cache := cache.(failed := true);
        return false;
      }
      if body.Garbled? {
        cache := cache.(failed := true);
        return false;
      }
      if |body.keys| == 0 {
        cache := cache.(failed := true);
        return false;
      }
      cache := Cache(Some(body.keys), now, false);
      return true;
    }

    /** Only one refresh at a time; a second one returns without fetching. */
    method Refresh(primary: Answer, fallback: Option<Answer>, now: Time) returns (ran: bool)
      modifies this
      ensures ran <==> !old(refreshing)
      ensures refreshing == old(refreshing)
      ensures cache == if ran then Fetched(old(cache), WithFallback(primary, fallback), now) else old(cache)
    {
      if refreshing {
        return false;
      }
      refreshing := true;
      var ok := Fetch(primary, fallback, now);
      refreshing := false;
      return true;
    }
  }
}

/** Runs of the cache against servers whose published keys change over time. */
module KeyTrust {
  import opened Prelude
  import opened KeyCaches

  datatype Server = Main | Standby

  /** A fetch that started at `start`, got these answers and was stored at `at`; or a read. */
  datatype Event =
    | Fetch(start: Time, primary: Answer, fallback: Option<Answer>, at: Time)
    | Read(at: Time)

  function Next(c: Cache, e: Event): Cache {
    match e
    case Fetch(_, primary, fallback, at) => Fetched(c, WithFallback(primary, fallback), at)
    case Read(_) => c
  }

  function Final(c: Cache, evs: seq<Event>): Cache
    decreases |evs|
  {
    if evs == [] then c else Final(Next(c, evs[0]), evs[1..])
  }

  type Publication = (Server, Time) -> seq<Key>

  /** The server answered with what it published at some moment of the fetch. */
  ghost predicate ServedDuring(published: Publication, server: Server, a: Answer, start: Time, at: Time) {
    a.Parsed? ==> exists t: Time :: start <= t <= at && a.keys == published(server, t)
  }

  /** Answers are true to what the servers publish, and no fetch takes longer than `duration`. */
  ghost predicate Honest(published: Publication, duration: Time, e: Event) {
    e.Fetch? ==>
      && e.start <= e.at <= e.start + duration
      && ServedDuring(published, Main, e.primary, e.start, e.at)
      && (e.fallback.Some? ==> ServedDuring(published, Standby, e.fallback.value, e.start, e.at))
  }

  /** The cached keys are what a server published no longer than `duration` before they were stored. */
  ghost predicate Sourced(published: Publication, duration: Time, c: Cache) {
    c.keys.Some? ==> exists server: Server, t: Time ::
      published(server, t) == c.keys.value && t <= c.fetchedAt <= t + duration
  }

  lemma StepSourced(published: Publication, duration: Time, c: Cache, e: Event)
    requires Sourced(published, duration, c) && Honest(published, duration, e)
    ensures Sourced(published, duration, Next(c, e))
  {
    if e.Fetch? && Usable(WithFallback(e.primary, e.fallback)) {
      var server := if WithFallback(e.primary, e.fallback) == e.primary then Main else Standby;
      var t :| e.start <= t <= e.at && WithFallback(e.primary, e.fallback).keys == published(server, t);
    }
  }

  lemma {:induction false} RunSourced(published: Publication, duration: Time, c: Cache, evs: seq<Event>)
    requires Sourced(published, duration, c)
    requires forall k :: 0 <= k < |evs| ==> Honest(published, duration, evs[k])
    ensures Sourced(published, duration, Final(c, evs))
    decreases |evs|
  {
    hide Sourced, Honest, Next;
    if evs == [] {
    } else {
      assert Honest(published, duration, evs[0]);
      StepSourced(published, duration, c, evs[0]);
      RunSourced(published, duration, Next(c, evs[0]), evs[1..]);
    }
  }

  /** A key that every server has withdrawn by time `withdrawn` is never handed out after that time plus
      the fetch duration plus the stale limit, whatever fetches succeeded or failed before. */
  lemma WithdrawnKeyExpires(published: Publication, duration: Time, evs: seq<Event>, key: Key, withdrawn: Time,
                            now: Time, maxStale: Time)
    requires forall k :: 0 <= k < |evs| ==> Honest(published, duration, evs[k])
    requires forall server: Server, t: Time :: withdrawn <= t ==> key !in published(server, t)
    requires 0 < maxStale
    requires Got(Final(COLD, evs), now, maxStale).Keys? && key in Got(Final(COLD, evs), now, maxStale).keys
    ensures now < withdrawn + duration + maxStale
  {
    RunSourced(published, duration, COLD, evs);
    var c := Final(COLD, evs);
    var server, t :| published(server, t) == c.keys.value && t <= c.fetchedAt <= t + duration;
  }

  /** Without a stale limit there is no such bound: the keys of one successful fetch are handed out for ever
      if every later fetch fails. */
  lemma NoLimitNoExpiry(evs: seq<Event>, keys: seq<Key>, at: Time, now: Time, maxStale: Time)
    requires keys != [] && maxStale <= 0 && AllFail(evs)
    ensures Got(Final(Cache(Some(keys), at, false), evs), now, maxStale) == Keys(keys)
  {
    FailuresKeepKeys(Cache(Some(keys), at, false), evs);
  }

  predicate AllFail(evs: seq<Event>) {
    forall k :: 0 <= k < |evs| && evs[k].Fetch? ==> !Usable(WithFallback(evs[k].primary, evs[k].fallback))
  }

  /** No failed, unparsable or empty fetch ever changes the keys or their timestamp. */
  lemma {:induction false} FailuresKeepKeys(c: Cache, evs: seq<Event>)
    requires AllFail(evs)
    ensures Final(c, evs).keys == c.keys && Final(c, evs).fetchedAt == c.fetchedAt
    decreases |evs|
  {
    if evs == [] {
    } else {
      FailuresKeepKeys(Next(c, evs[0]), evs[1..]);
    }
  }

  /** Once warm, the cache always holds a non-empty set. */
  lemma {:induction false} NeverEmptyAgain(c: Cache, evs: seq<Event>)
    requires c.keys.Some? && c.keys.value != []
    ensures Final(c, evs).keys.Some? && Final(c, evs).keys.value != []
    decreases |evs|
  {
    if evs == [] {
    } else {
      NeverEmptyAgain(Next(c, evs[0]), evs[1..]);
    }
  }

  /** The fetch yields some keys. */
  ghost predicate Succeeds(e: Event) {
    e.Fetch? && exists ks :: Delivers(e.primary, e.fallback, ks)
  }

  lemma {:induction false} OthersLeaveKeys(c: Cache, evs: seq<Event>)
    requires forall k :: 0 <= k < |evs| ==> !Succeeds(evs[k])
    ensures Final(c, evs).keys == c.keys && Final(c, evs).fetchedAt == c.fetchedAt
    decreases |evs|
  {
    if evs == [] {
    } else {
      if evs[0].Fetch? {
        FetchedExactly(c, evs[0].primary, evs[0].fallback, evs[0].at);
        assert !Succeeds(evs[0]);
      }
      OthersLeaveKeys(Next(c, evs[0]), evs[1..]);
    }
  }

  /** A cold cache has no keys to hand out until a fetch has yielded some. */
  lemma ColdUntilFetched(evs: seq<Event>, now: Time, maxStale: Time)
    requires forall k :: 0 <= k < |evs| ==> !Succeeds(evs[k])
    ensures Got(Final(COLD, evs), now, maxStale) == NoKeys
  {
    OthersLeaveKeys(COLD, evs);
  }

  /** What the last successful fetch of a run yielded is handed out at every later moment, until the limit if there is
      one. */
  lemma {:induction false} LastFetchServes(c: Cache, evs: seq<Event>, j: nat, ks: seq<Key>, now: Time, maxStale: Time)
    requires j < |evs| && evs[j].Fetch? && Delivers(evs[j].primary, evs[j].fallback, ks)
    requires forall k :: j < k < |evs| ==> !Succeeds(evs[k])
    ensures Got(Final(c, evs), now, maxStale) == if 0 < maxStale && evs[j].at + maxStale < now then TooStale else Keys(ks)
    decreases j
  {
    if j == 0 {
      FetchedExactly(c, evs[0].primary, evs[0].fallback, evs[0].at);
      OthersLeaveKeys(Next(c, evs[0]), evs[1..]);
    } else {
      LastFetchServes(Next(c, evs[0]), evs[1..], j - 1, ks, now, maxStale);
    }
  }

  /** What is handed out under a positive limit was stored by a successful fetch no longer ago than that. */
  lemma HandedOutIsRecent(c: Cache, evs: seq<Event>, now: Time, maxStale: Time)
    requires c.keys.None? && 0 < maxStale && Got(Final(c, evs), now, maxStale).Keys?
    ensures exists k :: 0 <= k < |evs| && Stores(evs[k], Final(c, evs)) && now - evs[k].at <= maxStale
  {
    LastStored(c, evs);
  }

  /** The cache's keys and timestamp are those of this fetch. */
  predicate Stores(e: Event, c: Cache) {
    e.Fetch? && c.keys.Some? && WithFallback(e.primary, e.fallback) == Parsed(c.keys.value) && c.fetchedAt == e.at
  }

  /** The keys and timestamp are those of one of the fetches, or the initial ones. */
  lemma {:induction false} LastStored(c: Cache, evs: seq<Event>)
    ensures
      || (Final(c, evs).keys == c.keys && Final(c, evs).fetchedAt == c.fetchedAt)
      || exists k :: 0 <= k < |evs| && Stores(evs[k], Final(c, evs))
    decreases |evs|
  {
    if evs == [] {
    } else {
      var rest := evs[1..];
      LastStored(Next(c, evs[0]), rest);
      if k :| 0 <= k < |rest| && Stores(rest[k], Final(c, evs)) {
        assert evs[k + 1] == rest[k];
      } else if Final(c, evs).keys != c.keys || Final(c, evs).fetchedAt != c.fetchedAt {
        assert Stores(evs[0], Final(c, evs));
      }
    }
  }
}

/** Overlapping refreshes: any number of goroutines try, and the fetches of those that got the lock take time. */
module RefreshLock {
  import opened Prelude
  import opened KeyCaches

  type Pid = nat

  /** `holder` is who holds the lock; `fetching` are the refreshes and warm-ups whose fetch is on its way. */
  datatype World = World(cache: Cache, holder: Option<Pid>, refreshing: set<Pid>, warming: set<Pid>)

  datatype Event =
    /** refresh: TryLock, and either start fetching or return. */
    | Try(pid: Pid)
    /** warm, which takes no lock. */
    | Warm(pid: Pid)
    /** A fetch comes to its end; a refresh then unlocks. */
    | End(pid: Pid, primary: Answer, fallback: Option<Answer>, at: Time)

  predicate Enabled(w: World, e: Event) {
    if e.End? then e.pid in w.refreshing || e.pid in w.warming else e.pid !in w.refreshing && e.pid !in w.warming
  }

  function Next(w: World, e: Event): World {
    match e
    case Try(pid) => if w.holder.Some? then w else World(w.cache, Some(pid), w.refreshing + {pid}, w.warming)
    case Warm(pid) => World(w.cache, w.holder, w.refreshing, w.warming + {pid})
    case End(pid, primary, fallback, at) =>
      World(Fetched(w.cache, WithFallback(primary, fallback), at), if pid in w.refreshing then None else w.holder,
            w.refreshing - {pid}, w.warming - {pid})
  }

  function Idle(): World {
    World(COLD, None, {}, {})
  }

  predicate ValidRun(w: World, evs: seq<Event>)
    decreases |evs|
  {
    evs == [] || (Enabled(w, evs[0]) && ValidRun(Next(w, evs[0]), evs[1..]))
  }

  function Final(w: World, evs: seq<Event>): World
    decreases |evs|
  {
    if evs == [] then w else Final(Next(w, evs[0]), evs[1..])
  }

  /** The lock is held exactly while one refresh fetches. */
  predicate LockInv(w: World) {
    w.refreshing == (if w.holder.Some? then {w.holder.value} else {}) && w.refreshing !! w.warming
  }

  lemma {:induction false} RunKeepsLock(w: World, evs: seq<Event>)
    requires LockInv(w) && ValidRun(w, evs)
    ensures LockInv(Final(w, evs))
    decreases |evs|
  {
    if evs == [] {
    } else {
      RunKeepsLock(Next(w, evs[0]), evs[1..]);
    }
  }

  /** However refreshes overlap, at most one fetches at a time; and one that finds none fetching gets to fetch,
      so the lock is never lost. */
  lemma OneRefreshAtATime(evs: seq<Event>, p: Pid, r: Pid)
    requires ValidRun(Idle(), evs)
    ensures p in Final(Idle(), evs).refreshing && r in Final(Idle(), evs).refreshing ==> p == r
    ensures Enabled(Final(Idle(), evs), Try(p)) ==>
      (p in Next(Final(Idle(), evs), Try(p)).refreshing <==> Final(Idle(), evs).refreshing == {})
  {
    RunKeepsLock(Idle(), evs);
  }

  /** And overlapping fetches, warm-ups included, leave a warm cache warm: whichever ends last, a fetch that
      fails never undoes one that succeeded. */
  lemma {:induction false} OverlapsKeepKeys(w: World, evs: seq<Event>)
    requires w.cache.keys.Some? && w.cache.keys.value != []
    ensures Final(w, evs).cache.keys.Some? && Final(w, evs).cache.keys.value != []
    ensures (forall k :: 0 <= k < |evs| && evs[k].End? ==> !Usable(WithFallback(evs[k].primary, evs[k].fallback))) ==>
      Final(w, evs).cache.keys == w.cache.keys && Final(w, evs).cache.fetchedAt == w.cache.fetchedAt
    decreases |evs|
  {
    if evs == [] {
    } else {
      OverlapsKeepKeys(Next(w, evs[0]), evs[1..]);
      assert forall k :: 0 <= k < |evs[1..]| ==> evs[1..][k] == evs[k + 1];
    }
  }
}
