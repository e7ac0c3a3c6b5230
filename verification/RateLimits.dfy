/** The fixed-window counters of internal/store/ratelimit.go. */
module RateLimits {
  import opened Prelude

  type Bucket = string

  /** Primary key (bucket, window_start). */
  type Counts = map<(Bucket, Time), nat>

  /** Rounding down to a multiple of the window; a window that is not positive leaves the time alone. */
  function Truncate(t: Time, window: Time): Time {
    if window <= 0 then t else t - t % window
  }

  datatype Event =
    | Allow(bucket: Bucket, limit: int, window: Time, at: Time)
    | Prune(olderThan: Time, at: Time)

  function CountAt(c: Counts, bucket: Bucket, start: Time): nat {
    if (bucket, start) in c then c[(bucket, start)] else 0
  }

  function Apply(c: Counts, e: Event): Counts {
    match e
    case Allow(b, _, w, at) => c[(b, Truncate(at, w)) := CountAt(c, b, Truncate(at, w)) + 1]
    case Prune(olderThan, at) => map k | k in c && at - olderThan <= k.1 :: c[k]
  }

  /** The reply to Allow. */
  predicate Allowed(c: Counts, e: Event)
    requires e.Allow?
  {
    CountAt(c, e.bucket, Truncate(e.at, e.window)) + 1 <= e.limit
  }

  predicate ValidRun(now: Time, evs: seq<Event>)
    decreases |evs|
  {
    evs == [] || (now <= evs[0].at && ValidRun(evs[0].at, evs[1..]))
  }

  // --- Arithmetic of aligned windows ------------------------------------------------------------

  lemma CancelLess(w: int, x: int, y: int)
    requires 0 < w && w * x < w * y
    ensures x < y
  {
    assert w * (x - y) == w * x - w * y;
    assert 0 <= x - y ==> 0 <= w * (x - y);
  }

  lemma CancelEqual(w: int, x: int, y: int)
    requires 0 < w && w * x == w * y
    ensures x == y
  {
    assert w * (x - y) == 0;
  }

  lemma DivBounds(t: int, w: int)
    requires 0 < w
    ensures w * (t / w) <= t < w * (t / w) + w
    ensures Truncate(t, w) == w * (t / w)
  {
  }

  /** Times within `k` windows' length of each other fall into `k + 1` consecutive windows. */
  lemma WindowsSpanned(t0: Time, t: Time, k: nat, w: Time)
    requires 0 < w && t0 <= t <= t0 + k * w
    ensures t0 / w <= t / w <= t0 / w + k
  {
    var a, b := t0 / w, t / w;
    DivBounds(t0, w);
    DivBounds(t, w);
    assert w * (b + 1) == w * b + w;
    CancelLess(w, a, b + 1);
    assert w * (a + k + 1) == w * a + k * w + w;
    CancelLess(w, b, a + k + 1);
  }

  // --- What is counted ----------------------------------------------------------------------------

  /** A call on the bucket in the aligned window number `n`, counting from time zero. */
  predicate Hits(e: Event, bucket: Bucket, window: Time, n: int) {
    e.Allow? && e.bucket == bucket && 0 < window && e.at / window == n
  }

  function Calls(evs: seq<Event>, bucket: Bucket, window: Time, n: int): nat
    decreases |evs|
  {
    if evs == [] then 0 else One(Hits(evs[0], bucket, window, n)) + Calls(evs[1..], bucket, window, n)
  }

  function Grants(c: Counts, evs: seq<Event>, bucket: Bucket, window: Time, n: int): nat
    decreases |evs|
  {
    if evs == [] then 0
    else
      One(Hits(evs[0], bucket, window, n) && Allowed(c, evs[0])) +
      Grants(Apply(c, evs[0]), evs[1..], bucket, window, n)
  }

  /** Grants at times from `lo` to `hi`. */
  function GrantsBetween(c: Counts, evs: seq<Event>, bucket: Bucket, lo: Time, hi: Time): nat
    decreases |evs|
  {
    if evs == [] then 0
    else
      One(evs[0].Allow? && evs[0].bucket == bucket && lo <= evs[0].at <= hi && Allowed(c, evs[0])) +
      GrantsBetween(Apply(c, evs[0]), evs[1..], bucket, lo, hi)
  }

  /** Every call on the bucket uses this limit and this window. */
  predicate Configured(evs: seq<Event>, bucket: Bucket, limit: nat, window: Time) {
    forall k :: 0 <= k < |evs| && evs[k].Allow? && evs[k].bucket == bucket ==>
      evs[k].limit == limit && evs[k].window == window
  }

  /** The pruning job only drops windows that have rolled over: a running window started less than its
      length ago. */
  predicate PrunesOld(evs: seq<Event>, window: Time) {
    forall k :: 0 <= k < |evs| && evs[k].Prune? ==> window <= evs[k].olderThan + 1
  }

  // --- One window --------------------------------------------------------------------------------------

  /** Once the clock has left a window, nothing hits it any more. */
  lemma {:induction false} NothingAfterWindow(c: Counts, now: Time, evs: seq<Event>, bucket: Bucket, window: Time, n: int)
    requires ValidRun(now, evs) && 0 < window && window * n + window <= now
    ensures Calls(evs, bucket, window, n) == 0 && Grants(c, evs, bucket, window, n) == 0
    decreases |evs|
  {
    if evs == [] {
    } else {
      var t := evs[0].at;
      DivBounds(t, window);
      NothingAfterWindow(Apply(c, evs[0]), t, evs[1..], bucket, window, n);
    }
  }

  lemma HitCounts(c: Counts, e: Event, bucket: Bucket, window: Time, n: int)
    requires e.Allow? && 0 < window && (e.bucket == bucket ==> e.window == window)
    ensures CountAt(Apply(c, e), bucket, window * n) == CountAt(c, bucket, window * n) + One(Hits(e, bucket, window, n))
    ensures Hits(e, bucket, window, n) ==> Truncate(e.at, e.window) == window * n
  {
    DivBounds(e.at, window);
    if window * (e.at / window) == window * n {
      CancelEqual(window, e.at / window, n);
    }
  }

  /** In each aligned window exactly min(calls, limit) calls are allowed: from any starting count, whatever
      the mix of denied calls, and however often old windows are pruned. */
  lemma {:induction false} WindowGrantsExactly(c: Counts, now: Time, evs: seq<Event>, bucket: Bucket, limit: nat, window: Time, n: int)
    requires ValidRun(now, evs) && 0 < window && Configured(evs, bucket, limit, window) && PrunesOld(evs, window)
    ensures Grants(c, evs, bucket, window, n) ==
            Min(Calls(evs, bucket, window, n), Max(0, limit - CountAt(c, bucket, window * n)))
    decreases |evs|
  {
    if evs == [] {
    } else {
      var e, rest := evs[0], evs[1..];
      WindowGrantsExactly(Apply(c, e), e.at, rest, bucket, limit, window, n);
      if e.Allow? {
        assert e.bucket == bucket ==> e.limit == limit && e.window == window;
        HitCounts(c, e, bucket, window, n);
      } else if CountAt(Apply(c, e), bucket, window * n) != CountAt(c, bucket, window * n) {
        assert window <= e.olderThan + 1;
        NothingAfterWindow(Apply(c, e), e.at, rest, bucket, window, n);
      }
    }
  }

  // --- Any stretch of time -------------------------------------------------------------------------------

  /** Grants in the windows numbered `n` to `n + k`. */
  function GrantsInWindows(c: Counts, evs: seq<Event>, bucket: Bucket, window: Time, n: int, k: nat): nat {
    Grants(c, evs, bucket, window, n + k) +
    if k == 0 then 0 else GrantsInWindows(c, evs, bucket, window, n, k - 1)
  }

  lemma {:induction false} FewInWindows(c: Counts, now: Time, evs: seq<Event>, bucket: Bucket, limit: nat, window: Time, n: int, k: nat)
    requires ValidRun(now, evs) && 0 < window && Configured(evs, bucket, limit, window) && PrunesOld(evs, window)
    ensures GrantsInWindows(c, evs, bucket, window, n, k) <= (k + 1) * limit
    decreases k
  {
    WindowGrantsExactly(c, now, evs, bucket, limit, window, n + k);
    if k == 0 {
    } else {
      FewInWindows(c, now, evs, bucket, limit, window, n, k - 1);
      assert (k + 1) * limit == k * limit + limit;
    }
  }

  lemma {:induction false} WindowsStep(c: Counts, evs: seq<Event>, bucket: Bucket, window: Time, n: int, k: nat)
    requires evs != [] && 0 < window
    ensures GrantsInWindows(c, evs, bucket, window, n, k) ==
            One(evs[0].Allow? && evs[0].bucket == bucket && n <= evs[0].at / window <= n + k && Allowed(c, evs[0])) +
            GrantsInWindows(Apply(c, evs[0]), evs[1..], bucket, window, n, k)
    decreases k
  {
    if k == 0 {
    } else {
      WindowsStep(c, evs, bucket, window, n, k - 1);
    }
  }

  lemma {:induction false} WindowsEmpty(c: Counts, bucket: Bucket, window: Time, n: int, k: nat)
    ensures GrantsInWindows(c, [], bucket, window, n, k) == 0
    decreases k
  {
    if k == 0 {
    } else {
      WindowsEmpty(c, bucket, window, n, k - 1);
    }
  }

  lemma {:induction false} StretchInWindows(c: Counts, evs: seq<Event>, bucket: Bucket, window: Time, t0: Time, k: nat)
    requires 0 < window
    ensures GrantsBetween(c, evs, bucket, t0, t0 + k * window) <= GrantsInWindows(c, evs, bucket, window, t0 / window, k)
    decreases |evs|
  {
    if evs == [] {
      WindowsEmpty(c, bucket, window, t0 / window, k);
    } else {
      WindowsStep(c, evs, bucket, window, t0 / window, k);
      StretchInWindows(Apply(c, evs[0]), evs[1..], bucket, window, t0, k);
      if t0 <= evs[0].at <= t0 + k * window {
        WindowsSpanned(t0, evs[0].at, k, window);
      }
    }
  }

  /** Calls no further apart than `k` windows' length are allowed at most `(k + 1) * limit` times: in any
      stretch one window long, twice the limit. */
  lemma StretchBound(c: Counts, now: Time, evs: seq<Event>, bucket: Bucket, limit: nat, window: Time, t0: Time, k: nat)
    requires ValidRun(now, evs) && 0 < window && Configured(evs, bucket, limit, window) && PrunesOld(evs, window)
    ensures GrantsBetween(c, evs, bucket, t0, t0 + k * window) <= (k + 1) * limit
  {
    StretchInWindows(c, evs, bucket, window, t0, k);
    FewInWindows(c, now, evs, bucket, limit, window, t0 / window, k);
  }

  // --- Pruning is invisible -----------------------------------------------------------------------------------

  function Replies(c: Counts, evs: seq<Event>): seq<bool>
    decreases |evs|
  {
    if evs == [] then []
    else (if evs[0].Allow? then [Allowed(c, evs[0])] else []) + Replies(Apply(c, evs[0]), evs[1..])
  }

  function NoPrunes(evs: seq<Event>): seq<Event> {
    if evs == [] then [] else (if evs[0].Prune? then [] else [evs[0]]) + NoPrunes(evs[1..])
  }

  /** Both tables agree on every window the clock has not left. */
  ghost predicate Agree(c: Counts, c': Counts, now: Time, widest: Time) {
    forall b, start :: now - widest < start ==> CountAt(c, b, start) == CountAt(c', b, start)
  }

  predicate NarrowerThan(evs: seq<Event>, widest: Time) {
    forall k :: 0 <= k < |evs| && evs[k].Allow? ==> evs[k].window <= widest
  }

  lemma StepAgrees(c: Counts, c': Counts, now: Time, widest: Time, e: Event)
    requires Agree(c, c', now, widest) && now <= e.at && 0 < widest
    requires e.Allow? ==> e.window <= widest
    requires e.Prune? ==> widest <= e.olderThan + 1
    ensures e.Allow? ==> Allowed(c, e) == Allowed(c', e) && Agree(Apply(c, e), Apply(c', e), e.at, widest)
    ensures e.Prune? ==> Agree(Apply(c, e), c', e.at, widest)
  {
    if e.Allow? {
      if 0 < e.window { DivBounds(e.at, e.window); }
      assert now - widest < Truncate(e.at, e.window);
      assert CountAt(c, e.bucket, Truncate(e.at, e.window)) == CountAt(c', e.bucket, Truncate(e.at, e.window));
      forall b, start | e.at - widest < start
        ensures CountAt(Apply(c, e), b, start) == CountAt(Apply(c', e), b, start)
      {
        assert CountAt(c, b, start) == CountAt(c', b, start);
      }
    } else {
      forall b, start | e.at - widest < start ensures CountAt(Apply(c, e), b, start) == CountAt(c', b, start) {
        assert CountAt(c, b, start) == CountAt(c', b, start);
      }
    }
  }

  lemma {:induction false} AgreeingReplies(c: Counts, c': Counts, now: Time, widest: Time, evs: seq<Event>)
    requires Agree(c, c', now, widest) && ValidRun(now, evs) && 0 < widest
    requires NarrowerThan(evs, widest) && PrunesOld(evs, widest)
    ensures Replies(c, evs) == Replies(c', NoPrunes(evs))
    decreases |evs|
  {
    hide Agree, Allowed, Apply;
    if evs == [] {
    } else {
      var e, rest := evs[0], evs[1..];
      StepAgrees(c, c', now, widest, e);
      if e.Prune? {
        AgreeingReplies(Apply(c, e), c', e.at, widest, rest);
        assert NoPrunes(evs) == NoPrunes(rest);
      } else {
        AgreeingReplies(Apply(c, e), Apply(c', e), e.at, widest, rest);
        assert NoPrunes(evs)[0] == e && NoPrunes(evs)[1..] == NoPrunes(rest);
      }
    }
  }

  /** Pruning only windows that no window in use can still be running in changes no reply, wherever in a run
      it happens. */
  lemma PruningIsInvisible(c: Counts, now: Time, widest: Time, evs: seq<Event>)
    requires ValidRun(now, evs) && 0 < widest && NarrowerThan(evs, widest) && PrunesOld(evs, widest)
    ensures Replies(c, evs) == Replies(c, NoPrunes(evs))
  {
    AgreeingReplies(c, c, now, widest, evs);
  }

  /** Dropping a window that is still running does change replies: the count starts again. */
  lemma PruningEarlyForgetsCalls(b: Bucket, limit: nat, window: Time, olderThan: Time)
    requires 0 < limit && 0 < window && olderThan + 1 < window
    ensures var full := map[(b, 0) := limit];
      && !Allowed(full, Allow(b, limit, window, window - 1))
      && Allowed(Apply(full, Prune(olderThan, window - 1)), Allow(b, limit, window, window - 1))
  {
    DivBounds(window - 1, window);
    assert (window - 1) / window == 0 by {
      CancelLess(window, (window - 1) / window, 1);
      CancelLess(window, -1, (window - 1) / window);
    }
  }

  lemma OneReply(c: Counts, e: Event)
    requires e.Allow?
    ensures NoPrunes([e]) == [e] && Replies(c, [e]) == [Allowed(c, e)]
  {
    assert [e][1..] == [];
    assert NoPrunes([]) == [] && Replies(Apply(c, e), []) == [];
  }

  /** Every window has this length, and every pruning this age. */
  predicate Uniform(evs: seq<Event>, window: Time, olderThan: Time) {
    forall k :: 0 <= k < |evs| ==> if evs[k].Allow? then evs[k].window == window else evs[k].olderThan == olderThan
  }

  ghost predicate Unnoticed(c: Counts, now: Time, evs: seq<Event>) {
    ValidRun(now, evs) ==> Replies(c, evs) == Replies(c, NoPrunes(evs))
  }

  /** Pruning goes unnoticed in all runs over windows of one length if and only if it spares every window
      that started less than that length ago. */
  lemma PruningUnnoticedExactly(window: Time, olderThan: Time)
    requires 0 < window
    ensures (forall c, now, evs :: Uniform(evs, window, olderThan) ==> Unnoticed(c, now, evs)) <==> window <= olderThan + 1
  {
    if window <= olderThan + 1 {
      forall c, now, evs | Uniform(evs, window, olderThan) ensures Unnoticed(c, now, evs) {
        if ValidRun(now, evs) {
          PruningIsInvisible(c, now, window, evs);
        }
      }
    } else {
      PruningEarlyForgetsCalls("", 1, window, olderThan);
      var c, prune, allow := map[("", 0) := 1], Prune(olderThan, window - 1), Allow("", 1, window, window - 1);
      var evs := [prune, allow];
      OneReply(c, allow);
      OneReply(Apply(c, prune), allow);
      assert evs[1..] == [allow];
      assert NoPrunes(evs) == [allow] && Replies(c, evs) == [true];
      assert Uniform(evs, window, olderThan) && ValidRun(window - 1, evs) && !Unnoticed(c, window - 1, evs);
    }
  }

  // --- The store ------------------------------------------------------------------------------------------------

  class RateLimiter {
    var counts: Counts

    constructor ()
      ensures counts == map[]
    {
      counts := map[];
    }

    /** INSERT ... ON CONFLICT DO UPDATE SET count = count + 1 RETURNING count. */
    method Allow(bucket: Bucket, limit: int, window: Time, now: Time) returns (ok: bool)
      modifies this
      ensures counts == Apply(old(counts), Event.Allow(bucket, limit, window, now))
      ensures ok == Allowed(old(counts), Event.Allow(bucket, limit, window, now))
      ensures ok <==> CountAt(counts, bucket, Truncate(now, window)) <= limit
    {
      var start := Truncate(now, window);
      var count := 1;
      if (bucket, start) in counts {
        count := counts[(bucket, start)] + 1;
      }
      counts := counts[(bucket, start) := count];
      ok := count <= limit;
    }

    method PruneRateLimits(olderThan: Time, now: Time) returns (n: nat)
      modifies this
      ensures counts == Apply(old(counts), Prune(olderThan, now))
      ensures n == |old(counts).Keys - counts.Keys|
      ensures forall k :: k in counts <==> k in old(counts) && k.1 + olderThan >= now
      ensures forall b, window :: 0 < window <= olderThan + 1 ==>
        CountAt(counts, b, Truncate(now, window)) == CountAt(old(counts), b, Truncate(now, window))
    {
      var kept := map k | k in counts && now - olderThan <= k.1 :: counts[k];
      n := |counts.Keys - kept.Keys|;
      counts := kept;
    }
  }
}
