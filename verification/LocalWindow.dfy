/** The in-process fallback limiter: one fixed window per caller, with eviction of stale callers when the map grows. */
module LocalWindow {

  const MAX_CALLERS := 10_000

  datatype Entry = Entry(start: real, count: nat)

  type Bucket = map<string, Entry>

  predicate Stale(e: Entry, now: real, window: int) {
    now - e.start >= window as real
  }

  /** The entry of a caller after one more hit. */
  function Bumped(bucket: Bucket, caller: string, now: real, window: int): Entry {
    if caller !in bucket || Stale(bucket[caller], now, window) then Entry(now, 1)
    else Entry(bucket[caller].start, bucket[caller].count + 1)
  }

  function WithoutStale(bucket: Bucket, now: real, window: int): Bucket {
    map k | k in bucket && !Stale(bucket[k], now, window) :: bucket[k]
  }

  /** The bucket after a hit; stale callers go when there are too many. */
  function AfterHit(bucket: Bucket, caller: string, now: real, window: int, cap: nat): (after: Bucket)
    ensures var all := bucket[caller := Bumped(bucket, caller, now, window)];
      if |all| <= cap then after == all
      else forall k :: (k in after <==> k in all && !Stale(all[k], now, window)) && (k in after ==> after[k] == all[k])
  {
    var bumped := bucket[caller := Bumped(bucket, caller, now, window)];
    if |bumped| > cap then WithoutStale(bumped, now, window) else bumped
  }

  /** The whole seconds that are left of the window, at least one. */
  function RetryAfter(e: Entry, now: real, window: int): (r: int)
    ensures var left := window as real - (now - e.start);
      r >= 1 && left < r as real + 1.0 && (r as real <= left || r == 1)
  {
    var left := (window as real - (now - e.start)).Floor;
    if left > 1 then left else 1
  }

  /** Whoever waits as long as told starts a new window, exactly if the rest of the window was whole seconds, or less
      than one: fractions of a second are cut off. */
  lemma {:induction false} WaitingIsEnough(e: Entry, now: real, window: int)
    ensures var left := window as real - (now - e.start);
      Stale(e, now + RetryAfter(e, now, window) as real, window) <==> left <= 1.0 || left == left.Floor as real
  {
    var left := window as real - (now - e.start);
    assert Stale(e, now + RetryAfter(e, now, window) as real, window) <==> left <= RetryAfter(e, now, window) as real;
  }

  class LocalLimiter {
    var buckets: map<string, Bucket>

    constructor ()
      ensures buckets == map[]
    {
      buckets := map[];
    }

    function BucketOf(scope: string): Bucket
      reads this
    {
      if scope in buckets then buckets[scope] else map[]
    }

    method Evict(bucket: Bucket, now: real, window: int) returns (kept: Bucket)
      ensures kept == WithoutStale(bucket, now, window)
    {
      kept := bucket;
      var keys := bucket.Keys;
      while keys != {}
        invariant keys <= bucket.Keys
        invariant kept == map k | k in bucket && (k in keys || !Stale(bucket[k], now, window)) :: bucket[k]
        decreases keys
      {
        var key :| key in keys;
        if Stale(bucket[key], now, window) {
          kept := kept - {key};
        }
        keys := keys - {key};
      }
    }

    method LocalHit(scope: string, caller: string, window: int, now: real) returns (count: nat, retryAfter: int)
      modifies this
      ensures buckets == old(buckets)[scope := AfterHit(old(BucketOf(scope)), caller, now, window, MAX_CALLERS)]
      ensures count == Bumped(old(BucketOf(scope)), caller, now, window).count
      ensures retryAfter == RetryAfter(Bumped(old(BucketOf(scope)), caller, now, window), now, window)
    {
      var bucket := BucketOf(scope);
      var start, hits := now, 0;
      if caller in bucket {
        start, hits := bucket[caller].start, bucket[caller].count;
      }
      if now - start >= window as real {
        start, hits := now, 0;
      }
      hits := hits + 1;
      bucket := bucket[caller := Entry(start, hits)];
      ghost var bumped := bucket;
      if |bucket| > MAX_CALLERS {
        bucket := Evict(bucket, now, window);
      }
      buckets := buckets[scope := bucket];
      count, retryAfter := hits, RetryAfter(Entry(start, hits), now, window);
    }
  }

  // ---------------------------------------------------------------- eviction is invisible

  datatype Hit = Hit(caller: string, now: real)

  /** Hits of one scope, in the order of a clock that does not run backwards. */
  ghost predicate Monotone(hits: seq<Hit>) {
    forall i, j :: 0 <= i < j < |hits| ==> hits[i].now <= hits[j].now
  }

  function BucketAfter(hits: seq<Hit>, window: int, cap: nat): Bucket {
    if hits == [] then map[]
    else
      var n := |hits| - 1;
      AfterHit(BucketAfter(hits[..n], window, cap), hits[n].caller, hits[n].now, window, cap)
  }

  /** The same hits on a map that never forgets anybody. */
  function UnboundedAfter(hits: seq<Hit>, window: int): Bucket {
    if hits == [] then map[]
    else
      var n := |hits| - 1;
      var before := UnboundedAfter(hits[..n], window);
      before[hits[n].caller := Bumped(before, hits[n].caller, hits[n].now, window)]
  }

  /** The evicting map agrees with the unbounded one except for callers that are stale by now. */
  ghost predicate Agrees(small: Bucket, big: Bucket, now: real, window: int) {
    small.Keys <= big.Keys &&
    forall k :: k in big ==> if k in small then small[k] == big[k] else Stale(big[k], now, window)
  }

  lemma {:induction false} HitAgrees(
      small: Bucket, big: Bucket, before: real, caller: string, now: real, window: int, cap: nat)
    requires Agrees(small, big, before, window) && before <= now
    ensures Bumped(small, caller, now, window) == Bumped(big, caller, now, window)
    ensures Agrees(AfterHit(small, caller, now, window, cap), big[caller := Bumped(big, caller, now, window)],
                   now, window)
  {
  }

  lemma {:induction false} RunAgrees(hits: seq<Hit>, window: int, cap: nat)
    requires hits != [] && Monotone(hits)
    ensures Agrees(BucketAfter(hits, window, cap), UnboundedAfter(hits, window), hits[|hits| - 1].now, window)
  {
    var n := |hits| - 1;
    if n > 0 {
      RunAgrees(hits[..n], window, cap);
      HitAgrees(BucketAfter(hits[..n], window, cap), UnboundedAfter(hits[..n], window), hits[n - 1].now,
                hits[n].caller, hits[n].now, window, cap);
    } else {
      HitAgrees(map[], map[], hits[0].now, hits[0].caller, hits[0].now, window, cap);
    }
  }

  /** Evicting stale callers, at any threshold, never changes what a hit is told. */
  lemma {:induction false} EvictionInvisible(hits: seq<Hit>, next: Hit, window: int, cap: nat)
    requires Monotone(hits + [next])
    ensures Bumped(BucketAfter(hits, window, cap), next.caller, next.now, window)
         == Bumped(UnboundedAfter(hits, window), next.caller, next.now, window)
  {
    if hits != [] {
      var all := hits + [next];
      assert all[|hits|] == next && forall i :: 0 <= i < |hits| ==> all[i] == hits[i];
      RunAgrees(hits, window, cap);
      HitAgrees(BucketAfter(hits, window, cap), UnboundedAfter(hits, window), hits[|hits| - 1].now,
                next.caller, next.now, window, cap);
    }
  }

  // ---------------------------------------------------------------- how much one caller gets through

  /** The times of one caller's hits. */
  function TimesOf(hits: seq<Hit>, caller: string): seq<real> {
    if hits == [] then []
    else
      var n := |hits| - 1;
      TimesOf(hits[..n], caller) + (if hits[n].caller == caller then [hits[n].now] else [])
  }

  /** The entry after a caller's hits, looking at that caller alone. */
  function EntryAfter(times: seq<real>, window: int): Entry
    requires times != []
  {
    var n := |times| - 1;
    if n == 0 then Entry(times[0], 1)
    else
      var before := EntryAfter(times[..n], window);
      if Stale(before, times[n], window) then Entry(times[n], 1) else Entry(before.start, before.count + 1)
  }

  /** Callers do not influence each other. */
  lemma {:induction false} CallersIndependent(hits: seq<Hit>, caller: string, window: int)
    ensures TimesOf(hits, caller) == [] <==> caller !in UnboundedAfter(hits, window)
    ensures TimesOf(hits, caller) != [] ==>
      UnboundedAfter(hits, window)[caller] == EntryAfter(TimesOf(hits, caller), window)
  {
    if hits != [] {
      var n := |hits| - 1;
      CallersIndependent(hits[..n], caller, window);
      var times := TimesOf(hits[..n], caller);
      if hits[n].caller == caller {
        assert (times + [hits[n].now])[..|times|] == times;
      } else {
        assert times + [] == times;
      }
    }
  }

  ghost predicate Ascending(times: seq<real>) {
    forall i, j :: 0 <= i < j < |times| ==> times[i] <= times[j]
  }

  function EntryAt(times: seq<real>, window: int, i: nat): Entry
    requires i < |times|
  {
    EntryAfter(times[..i + 1], window)
  }

  lemma {:induction false} EntryStep(times: seq<real>, window: int, i: nat)
    requires 0 < i < |times|
    ensures var p, e := EntryAt(times, window, i - 1), EntryAt(times, window, i);
      e == if Stale(p, times[i], window) then Entry(times[i], 1) else Entry(p.start, p.count + 1)
  {
    assert times[..i + 1][..i] == times[..i];
  }

  /** Windows of one caller start at its hits, at least a window length apart, and hold every hit that falls into
      them. */
  lemma {:induction false} WindowsApart(times: seq<real>, window: int, i: nat, j: nat)
    requires Ascending(times) && window > 0 && i <= j < |times|
    ensures var a, b := EntryAt(times, window, i), EntryAt(times, window, j);
      a.start <= times[i] < a.start + window as real && b.start <= times[j] < b.start + window as real &&
      a.start <= b.start &&
      (a.start != b.start ==> times[i] <= b.start && a.start + window as real <= b.start) &&
      (a.start == b.start ==> b.count == a.count + (j - i)) && a.count >= 1
    decreases j
  {
    if j > i {
      WindowsApart(times, window, i, j - 1);
      EntryStep(times, window, j);
      assert times[j - 1] <= times[j] && times[i] <= times[j];
    } else if i > 0 {
      WindowsApart(times, window, i - 1, i - 1);
      EntryStep(times, window, i);
    }
  }

  /** How many of hits lo..hi are let through. */
  function Admitted(times: seq<real>, window: int, limit: nat, lo: nat, hi: nat): nat
    requires lo <= hi <= |times|
  {
    if lo == hi then 0
    else Admitted(times, window, limit, lo, hi - 1) + (if EntryAt(times, window, hi - 1).count <= limit then 1 else 0)
  }

  lemma {:induction false} AdmittedSplit(times: seq<real>, window: int, limit: nat, lo: nat, mid: nat, hi: nat)
    requires lo <= mid <= hi <= |times|
    ensures Admitted(times, window, limit, lo, hi)
         == Admitted(times, window, limit, lo, mid) + Admitted(times, window, limit, mid, hi)
  {
    if mid < hi {
      AdmittedSplit(times, window, limit, lo, mid, hi - 1);
    }
  }

  /** Inside one window the counts run upwards one by one, so exactly those up to the limit pass. */
  lemma {:induction false} OneWindow(times: seq<real>, window: int, limit: nat, lo: nat, hi: nat)
    requires Ascending(times) && window > 0 && lo < hi <= |times|
    requires EntryAt(times, window, lo).start == EntryAt(times, window, hi - 1).start
    ensures var first, last := EntryAt(times, window, lo).count, EntryAt(times, window, hi - 1).count;
      var passing := (if last < limit then last else limit) + 1 - first;
      Admitted(times, window, limit, lo, hi) == if passing > 0 then passing else 0
    decreases hi
  {
    WindowsApart(times, window, lo, hi - 1);
    if hi - 1 > lo {
      WindowsApart(times, window, lo, hi - 2);
      WindowsApart(times, window, hi - 2, hi - 1);
      OneWindow(times, window, limit, lo, hi - 1);
    } else {
      assert Admitted(times, window, limit, lo, lo) == 0;
    }
  }

  lemma {:induction false} CountPositive(times: seq<real>, window: int)
    requires times != []
    ensures EntryAfter(times, window).count >= 1
  {
    if |times| > 1 {
      CountPositive(times[..|times| - 1], window);
    }
  }

  lemma {:induction false} FirstOfWindow(times: seq<real>, window: int, i: nat)
    requires i < |times| && EntryAt(times, window, i).start != times[i]
    ensures EntryAt(times, window, i).count >= 2
  {
    if i > 0 {
      EntryStep(times, window, i);
      CountPositive(times[..i], window);
    }
  }

  /** The first hit at or after lo that opens another window than hit lo is in, or hi. */
  function NextWindow(times: seq<real>, window: int, lo: nat, at: nat, hi: nat): (m: nat)
    requires lo <= at <= hi <= |times| && lo < |times|
    ensures at <= m <= hi
    ensures forall k :: at <= k < m ==> EntryAt(times, window, k).start == EntryAt(times, window, lo).start
    ensures m < hi ==> EntryAt(times, window, m).start != EntryAt(times, window, lo).start
    decreases hi - at
  {
    if at == hi || EntryAt(times, window, at).start != EntryAt(times, window, lo).start then at
    else NextWindow(times, window, lo, at + 1, hi)
  }

  /** In any stretch of time as long as the window, a caller gets fewer than twice the limit through: when two windows
      meet in it, the hit that opened the first lies before it. */
  lemma {:induction false} FewerThanTwiceTheLimit(times: seq<real>, window: int, limit: nat, from: real, lo: nat,
                                                  hi: nat)
    requires Ascending(times) && window > 0 && limit > 0 && lo <= hi <= |times|
    requires forall k :: lo <= k < hi ==> from <= times[k] < from + window as real
    ensures Admitted(times, window, limit, lo, hi) <= 2 * limit - 1
  {
    if lo < hi {
      var m := NextWindow(times, window, lo, lo + 1, hi);
      WindowsApart(times, window, lo, lo);
      OneWindow(times, window, limit, lo, m);
      AdmittedSplit(times, window, limit, lo, m, hi);
      if m < hi {
        WindowsApart(times, window, lo, m);
        WindowsApart(times, window, m, hi - 1);
        WindowsApart(times, window, m, m);
        OneWindow(times, window, limit, m, hi);
        FirstOfWindow(times, window, lo);
      }
    }
  }

  /** With both its ends counted, such a stretch can also hold the hit that opens the next window: then it is twice the
      limit. */
  lemma {:induction false} AtMostTwiceTheLimit(times: seq<real>, window: int, limit: nat, from: real, lo: nat, hi: nat)
    requires Ascending(times) && window > 0 && lo <= hi <= |times|
    requires forall k :: lo <= k < hi ==> from <= times[k] <= from + window as real
    ensures Admitted(times, window, limit, lo, hi) <= 2 * limit
  {
    if lo < hi {
      var m := NextWindow(times, window, lo, lo + 1, hi);
      WindowsApart(times, window, lo, lo);
      OneWindow(times, window, limit, lo, m);
      AdmittedSplit(times, window, limit, lo, m, hi);
      if m < hi {
        WindowsApart(times, window, lo, m);
        WindowsApart(times, window, m, hi - 1);
        WindowsApart(times, window, m, m);
        OneWindow(times, window, limit, m, hi);
      }
    }
  }

  lemma {:induction false} ClosedBoundIsReached()
    ensures var times := [0.0, 0.0, 2.0, 2.0];
      Ascending(times) && Admitted(times, 2, 2, 0, 4) == 4
  {
    var times := [0.0, 0.0, 2.0, 2.0];
    assert EntryAt(times, 2, 0) == Entry(0.0, 1);
    EntryStep(times, 2, 1);
    EntryStep(times, 2, 2);
    EntryStep(times, 2, 3);
    OneWindow(times, 2, 2, 0, 2);
    OneWindow(times, 2, 2, 2, 4);
    AdmittedSplit(times, 2, 2, 0, 2, 4);
  }

  /** That bound is reached: with a limit of two hits per two seconds, three hits within a fifth of a second pass. */
  lemma {:induction false} BoundIsReached()
    ensures var times := [0.0, 1.9, 2.0, 2.1];
      Ascending(times) && Admitted(times, 2, 2, 1, 4) == 3
  {
    var times := [0.0, 1.9, 2.0, 2.1];
    assert EntryAt(times, 2, 0) == Entry(0.0, 1);
    EntryStep(times, 2, 1);
    EntryStep(times, 2, 2);
    EntryStep(times, 2, 3);
    AdmittedSplit(times, 2, 2, 1, 2, 4);
    AdmittedSplit(times, 2, 2, 2, 3, 4);
    assert Admitted(times, 2, 2, 1, 1) == Admitted(times, 2, 2, 2, 2) == Admitted(times, 2, 2, 3, 3) == 0;
  }
}
