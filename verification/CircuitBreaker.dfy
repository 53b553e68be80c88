/** The withdrawal circuit breaker: a ring of time buckets that stands in for a rolling window. */
module CircuitBreaker {
  import opened Prelude

  const MAX_BUCKETS := 24
  const DEFAULT_BUCKETS := 12
  const DEFAULT_WINDOW_SECS := 3600

  datatype Config = Config(enabled: bool, threshold: i128, windowSecs: u64, bucketCount: u32)

  /** An accepted withdrawal, as the ghost log remembers it. */
  datatype Hit = Hit(at: nat, amount: nat)

  predicate ConfigOk(c: Config) {
    && 1 <= c.bucketCount <= MAX_BUCKETS
    && 0 <= c.threshold
    && (c.enabled ==> 0 < c.threshold && 0 < c.windowSecs)
  }

  function BucketSecs(c: Config): nat
    requires ConfigOk(c)
    ensures 1 <= BucketSecs(c)
  {
    Max(c.windowSecs / c.bucketCount, 1)
  }

  /** The bucket that instant `t` belongs to; it starts at `Bucket(c, t) * BucketSecs(c)`. */
  function Bucket(c: Config, t: nat): nat
    requires ConfigOk(c)
  {
    t / BucketSecs(c)
  }

  lemma BucketHolds(c: Config, t: nat)
    requires ConfigOk(c)
    ensures Bucket(c, t) * BucketSecs(c) <= t < (Bucket(c, t) + 1) * BucketSecs(c)
  {
    DivHolds(t, BucketSecs(c));
  }

  lemma DivHolds(t: nat, d: nat)
    requires 0 < d
    ensures (t / d) * d <= t < (t / d + 1) * d
  {
  }

  lemma MulLess(a: int, b: int, d: int)
    requires 0 < d
    ensures a * d < b * d <==> a < b
    ensures a * d == b * d <==> a == b
  {
  }

  function Cutoff(c: Config, now: nat): nat {
    if now < c.windowSecs then 0 else now - c.windowSecs
  }

  /** The longest time span for which the threshold is promised; `SpanIsExact` shows that no longer one would do. */
  function Span(c: Config): nat
    requires ConfigOk(c)
  {
    if c.bucketCount <= c.windowSecs then (c.bucketCount - 1) * (c.windowSecs / c.bucketCount) else c.windowSecs
  }

  /** In terms of the ring: all buckets but one, as far as the window goes. */
  lemma SpanOfRing(c: Config)
    requires ConfigOk(c)
    ensures Span(c) == Min(c.windowSecs, (c.bucketCount - 1) * BucketSecs(c))
  {
    DivHolds(c.windowSecs, c.bucketCount);
    RingArithmetic(c.bucketCount, c.windowSecs / c.bucketCount, c.windowSecs);
  }

  lemma RingArithmetic(n: nat, bs: nat, window: nat)
    requires 1 <= n && bs * n <= window < (bs + 1) * n
    ensures n <= window ==> 1 <= bs && (n - 1) * bs <= window
    ensures window < n ==> bs == 0
  {
    MulLess(1, bs + 1, n);
    MulLess(bs, 1, n);
    assert (n - 1) * bs == bs * n - bs;
  }

  // ---- Sums over the log of accepted withdrawals ----

  /** The exact volume accepted between `a` and `b`, both included. */
  function SumIn(log: seq<Hit>, a: int, b: int): nat {
    if log == [] then 0
    else
      var h := log[|log| - 1];
      SumIn(log[..|log| - 1], a, b) + if a <= h.at <= b then h.amount else 0
  }

  /** The volume accepted in bucket `k`, provided that bucket lives in ring slot `i`. */
  function Volume(c: Config, log: seq<Hit>, i: nat, k: nat): nat
    requires ConfigOk(c)
  {
    if log == [] then 0
    else
      var h := log[|log| - 1];
      Volume(c, log[..|log| - 1], i, k)
      + if Bucket(c, h.at) == k && k % c.bucketCount == i then h.amount else 0
  }

  predicate Recent(c: Config, h: Hit, now: nat)
    requires ConfigOk(c)
  {
    && Cutoff(c, now) <= Bucket(c, h.at) * BucketSecs(c)
    && Bucket(c, now) < Bucket(c, h.at) + c.bucketCount
  }

  /** The volume whose bucket is one of the last `bucketCount` and starts at or after the cutoff. */
  function RecentVolume(c: Config, log: seq<Hit>, now: nat): nat
    requires ConfigOk(c)
  {
    if log == [] then 0
    else
      var h := log[|log| - 1];
      RecentVolume(c, log[..|log| - 1], now) + if Recent(c, h, now) then h.amount else 0
  }

  // ---- The ring of buckets ----

  /** The loop of the source over the first `n` ring slots. */
  function Rolling(starts: seq<nat>, volumes: seq<nat>, cutoff: nat, n: nat): nat
    requires n <= |starts| && n <= |volumes|
  {
    if n == 0 then 0
    else Rolling(starts, volumes, cutoff, n - 1) + if cutoff <= starts[n - 1] then volumes[n - 1] else 0
  }

  /** Slot `i` holds bucket number `k` with exactly the volume accepted in it; a fresh slot holds bucket 0. */
  predicate SlotOk(c: Config, start: nat, volume: nat, i: nat, k: nat, log: seq<Hit>, now: nat)
    requires ConfigOk(c)
  {
    && start == k * BucketSecs(c)
    && (k == 0 || k % c.bucketCount == i)
    && k <= Bucket(c, now)
    && volume == Volume(c, log, i, k)
  }

  /** The slot of an accepted withdrawal holds its bucket or a later one. */
  predicate HitOk(c: Config, ks: seq<nat>, h: Hit, now: nat)
    requires ConfigOk(c) && |ks| == c.bucketCount
  {
    h.at <= now && Bucket(c, h.at) <= ks[Bucket(c, h.at) % c.bucketCount]
  }

  ghost predicate RingOk(c: Config, starts: seq<nat>, volumes: seq<nat>, ks: seq<nat>, log: seq<Hit>, now: nat)
    requires ConfigOk(c)
  {
    && |starts| == |volumes| == |ks| == c.bucketCount
    && (forall i :: 0 <= i < |ks| ==> SlotOk(c, starts[i], volumes[i], i, ks[i], log, now))
    && (forall j :: 0 <= j < |log| ==> HitOk(c, ks, log[j], now))
  }

  ghost predicate Captured(c: Config, ks: seq<nat>, h: Hit, cutoff: nat)
    requires ConfigOk(c) && |ks| == c.bucketCount
  {
    var b := Bucket(c, h.at);
    ks[b % c.bucketCount] == b && cutoff <= b * BucketSecs(c)
  }

  /** What the ring still holds at or after the cutoff, counted withdrawal by withdrawal. */
  ghost function CapturedVolume(c: Config, ks: seq<nat>, log: seq<Hit>, cutoff: nat): nat
    requires ConfigOk(c) && |ks| == c.bucketCount
  {
    if log == [] then 0
    else
      var h := log[|log| - 1];
      CapturedVolume(c, ks, log[..|log| - 1], cutoff) + if Captured(c, ks, h, cutoff) then h.amount else 0
  }

  ghost function RollingOf(c: Config, ks: seq<nat>, log: seq<Hit>, cutoff: nat, n: nat): nat
    requires ConfigOk(c) && |ks| == c.bucketCount && n <= |ks|
  {
    if n == 0 then 0
    else
      RollingOf(c, ks, log, cutoff, n - 1)
      + if cutoff <= ks[n - 1] * BucketSecs(c) then Volume(c, log, n - 1, ks[n - 1]) else 0
  }

  lemma {:induction false} RollingStep(c: Config, ks: seq<nat>, log: seq<Hit>, cutoff: nat, n: nat)
    requires ConfigOk(c) && |ks| == c.bucketCount && n <= |ks| && log != []
    ensures
      var h := log[|log| - 1];
      var slot := Bucket(c, h.at) % c.bucketCount;
      RollingOf(c, ks, log, cutoff, n)
      == RollingOf(c, ks, log[..|log| - 1], cutoff, n)
         + if slot < n && Captured(c, ks, h, cutoff) then h.amount else 0
  {
    if n > 0 {
      RollingStep(c, ks, log, cutoff, n - 1);
    }
  }

  lemma {:induction false} RollingOfIsCaptured(c: Config, ks: seq<nat>, log: seq<Hit>, cutoff: nat)
    requires ConfigOk(c) && |ks| == c.bucketCount
    ensures RollingOf(c, ks, log, cutoff, |ks|) == CapturedVolume(c, ks, log, cutoff)
  {
    if log == [] {
      RollingOfEmpty(c, ks, cutoff, |ks|);
    } else {
      RollingStep(c, ks, log, cutoff, |ks|);
      RollingOfIsCaptured(c, ks, log[..|log| - 1], cutoff);
    }
  }

  lemma {:induction false} RollingOfEmpty(c: Config, ks: seq<nat>, cutoff: nat, n: nat)
    requires ConfigOk(c) && |ks| == c.bucketCount && n <= |ks|
    ensures RollingOf(c, ks, [], cutoff, n) == 0
  {
    if n > 0 {
      RollingOfEmpty(c, ks, cutoff, n - 1);
    }
  }

  /** The slots' sum is the captured volume, although slots are reused and start as zeros. */
  lemma {:induction false} RollingIsCaptured(
      c: Config, starts: seq<nat>, volumes: seq<nat>, ks: seq<nat>, log: seq<Hit>, now: nat, cutoff: nat, n: nat)
    requires ConfigOk(c) && RingOk(c, starts, volumes, ks, log, now) && n <= |ks|
    ensures Rolling(starts, volumes, cutoff, n) == RollingOf(c, ks, log, cutoff, n)
    ensures n == |ks| ==> Rolling(starts, volumes, cutoff, n) == CapturedVolume(c, ks, log, cutoff)
  {
    if n > 0 {
      RollingIsCaptured(c, starts, volumes, ks, log, now, cutoff, n - 1);
    }
    RollingOfIsCaptured(c, ks, log, cutoff);
  }

  /** Two bucket numbers that share a slot are equal or at least a whole ring apart. */
  lemma SlotGap(k: nat, b: nat, n: nat)
    requires 0 < n && b < k && k % n == b % n
    ensures b + n <= k
  {
    var p, q := k / n, b / n;
    assert k - b == (p - q) * n;
    MulLess(0, p - q, n);
    MulLess(p - q, 1, n);
  }

  /** Everything recent is captured, and everything captured lies inside the window. */
  lemma {:induction false} CapturedBounds(c: Config, ks: seq<nat>, log: seq<Hit>, now: nat)
    requires ConfigOk(c)
    requires |ks| == c.bucketCount
    requires forall i :: 0 <= i < |ks| ==> (ks[i] == 0 || ks[i] % c.bucketCount == i) && ks[i] <= Bucket(c, now)
    requires forall j :: 0 <= j < |log| ==> HitOk(c, ks, log[j], now)
    ensures RecentVolume(c, log, now) <= CapturedVolume(c, ks, log, Cutoff(c, now))
            <= SumIn(log, Cutoff(c, now), now)
  {
    if log != [] {
      var h := log[|log| - 1];
      CapturedBounds(c, ks, log[..|log| - 1], now);
      BucketHolds(c, h.at);
      var b := Bucket(c, h.at);
      var k := ks[b % c.bucketCount];
      if Recent(c, h, now) && k != b {
        assert 0 <= b % c.bucketCount < |ks|;
        SlotGap(k, b, c.bucketCount);
        assert false;
      }
    }
  }

  /** The source's rolling total never trips early, and misses only volume outside the last buckets. */
  lemma RollingBounds(c: Config, starts: seq<nat>, volumes: seq<nat>, ks: seq<nat>, log: seq<Hit>, now: nat)
    requires ConfigOk(c) && RingOk(c, starts, volumes, ks, log, now)
    ensures RecentVolume(c, log, now)
            <= Rolling(starts, volumes, Cutoff(c, now), c.bucketCount)
            <= SumIn(log, Cutoff(c, now), now)
  {
    RollingIsCaptured(c, starts, volumes, ks, log, now, Cutoff(c, now), |ks|);
    CapturedBounds(c, ks, log, now);
  }

  // ---- The promise over whole runs ----

  /** At the moment of each accepted withdrawal, the span that ends there is within the threshold. */
  ghost predicate Trailing(c: Config, log: seq<Hit>)
    requires ConfigOk(c)
  {
    forall n :: 0 <= n < |log| ==> TrailingAt(c, log, n)
  }

  predicate TrailingAt(c: Config, log: seq<Hit>, n: nat)
    requires ConfigOk(c) && n < |log|
  {
    SumIn(log[..n + 1], log[n].at - Span(c), log[n].at) <= c.threshold
  }

  lemma TrailingPrefix(c: Config, log: seq<Hit>, m: nat)
    requires ConfigOk(c) && Trailing(c, log) && m <= |log|
    ensures Trailing(c, log[..m])
  {
    forall n | 0 <= n < m
      ensures TrailingAt(c, log[..m], n)
    {
      assert TrailingAt(c, log, n);
      assert log[..m][..n + 1] == log[..n + 1];
    }
  }

  lemma TrailingExtend(c: Config, log: seq<Hit>, h: Hit)
    requires ConfigOk(c) && Trailing(c, log)
    requires SumIn(log + [h], h.at - Span(c), h.at) <= c.threshold
    ensures Trailing(c, log + [h])
  {
    forall n | 0 <= n < |log| + 1
      ensures TrailingAt(c, log + [h], n)
    {
      if n < |log| {
        assert TrailingAt(c, log, n);
        assert (log + [h])[..n + 1] == log[..n + 1];
      } else {
        assert (log + [h])[..n + 1] == log + [h];
      }
    }
  }

  ghost predicate Sorted(log: seq<Hit>) {
    forall i, j :: 0 <= i < j < |log| ==> log[i].at <= log[j].at
  }

  lemma {:induction false} SumInMonotone(log: seq<Hit>, a: int, b: int, a': int, b': int)
    requires forall j :: 0 <= j < |log| && a <= log[j].at <= b ==> a' <= log[j].at <= b'
    ensures SumIn(log, a, b) <= SumIn(log, a', b')
  {
    if log != [] {
      SumInMonotone(log[..|log| - 1], a, b, a', b');
    }
  }

  /**
   * The breaker's promise: however long the run, the withdrawals accepted within any closed time span
   * no longer than `Span` never total more than the threshold.
   */
  lemma {:induction false} SpanWithinThreshold(c: Config, log: seq<Hit>, a: int, b: int)
    requires ConfigOk(c) && Sorted(log) && Trailing(c, log)
    requires b - a <= Span(c)
    ensures SumIn(log, a, b) <= c.threshold
  {
    if log != [] {
      var last := log[|log| - 1];
      if a <= last.at <= b {
        SumInMonotone(log, a, b, last.at - Span(c), last.at);
        assert log[..|log|] == log;
        assert TrailingAt(c, log, |log| - 1);
      } else {
        var rest := log[..|log| - 1];
        TrailingPrefix(c, log, |log| - 1);
        SpanWithinThreshold(c, rest, a, b);
      }
    }
  }

  /** A withdrawal no older than `Span` is still recent, so its volume has not left the ring. */
  lemma SpanIsRecent(c: Config, h: Hit, now: nat)
    requires ConfigOk(c)
    requires now - Span(c) <= h.at <= now
    ensures Recent(c, h, now)
  {
    BucketHolds(c, h.at);
    BucketHolds(c, now);
    SpanOfRing(c);
    RingFits(c);
    hide Span, BucketSecs, Bucket;
    SpanArithmetic(Bucket(c, h.at), Bucket(c, now), BucketSecs(c), c.bucketCount, h.at, now, c.windowSecs);
  }

  /** The ring covers no more than the window, unless the window has fewer seconds than there are buckets. */
  lemma RingFits(c: Config)
    requires ConfigOk(c)
    ensures if c.bucketCount <= c.windowSecs then c.bucketCount * BucketSecs(c) <= c.windowSecs
            else BucketSecs(c) == 1
  {
    DivHolds(c.windowSecs, c.bucketCount);
    RingArithmetic(c.bucketCount, c.windowSecs / c.bucketCount, c.windowSecs);
  }

  lemma SpanArithmetic(b: nat, k: nat, bs: nat, n: nat, t: nat, now: nat, window: nat)
    requires 1 <= n && 1 <= bs && if n <= window then n * bs <= window else bs == 1
    requires b * bs <= t < (b + 1) * bs && k * bs <= now < (k + 1) * bs
    requires now - Min(window, (n - 1) * bs) <= t <= now
    ensures k < b + n && now - window <= b * bs
  {
    Spread(b, 1, bs);
    Spread(n - 1, 1, bs);
    Spread(b, n, bs);
    MulLess(k, b + n, bs);
  }

  lemma Spread(a: nat, b: nat, d: nat)
    ensures (a + b) * d == a * d + b * d
  {
  }

  lemma {:induction false} SpanVolume(c: Config, log: seq<Hit>, now: nat)
    requires ConfigOk(c)
    requires forall j :: 0 <= j < |log| ==> log[j].at <= now
    ensures SumIn(log, now - Span(c), now) <= RecentVolume(c, log, now)
  {
    if log != [] {
      var h := log[|log| - 1];
      SpanVolume(c, log[..|log| - 1], now);
      if now - Span(c) <= h.at {
        SpanIsRecent(c, h, now);
      }
    }
  }

  /** What the ring can miss or include, in seconds. */
  lemma WindowBounds(c: Config, starts: seq<nat>, volumes: seq<nat>, ks: seq<nat>, log: seq<Hit>, now: nat)
    requires ConfigOk(c) && RingOk(c, starts, volumes, ks, log, now)
    ensures SumIn(log, now - Span(c), now) <= RecentVolume(c, log, now)
    ensures SumIn(log, Cutoff(c, now), now) <= SumIn(log, now - c.windowSecs, now)
  {
    forall j | 0 <= j < |log|
      ensures log[j].at <= now
    {
      assert HitOk(c, ks, log[j], now);
    }
    SpanVolume(c, log, now);
    SumInMonotone(log, Cutoff(c, now), now, now - c.windowSecs, now);
  }

  // ---- Steps of the ring ----

  lemma {:induction false} VolumeZero(c: Config, log: seq<Hit>, i: nat, k: nat)
    requires ConfigOk(c)
    requires forall j :: 0 <= j < |log| ==> Bucket(c, log[j].at) != k || k % c.bucketCount != i
    ensures Volume(c, log, i, k) == 0
  {
    if log != [] {
      VolumeZero(c, log[..|log| - 1], i, k);
    }
  }

  /** Recycling the slot of the current bucket keeps the ring in order. */
  lemma Recycle(c: Config, starts: seq<nat>, volumes: seq<nat>, ks: seq<nat>, log: seq<Hit>, was: nat, now: nat)
    requires ConfigOk(c) && RingOk(c, starts, volumes, ks, log, was) && was <= now
    ensures
      var b := Bucket(c, now);
      var i := b % c.bucketCount;
      var start := b * BucketSecs(c);
      RingOk(c,
             starts[i := start],
             if starts[i] == start then volumes else volumes[i := 0],
             ks[i := b], log, now)
  {
    var b := Bucket(c, now);
    var i := b % c.bucketCount;
    BucketMonotone(c, was, now);
    assert SlotOk(c, starts[i], volumes[i], i, ks[i], log, was);
    if ks[i] != b {
      MulLess(ks[i], b, BucketSecs(c));
      forall j | 0 <= j < |log|
        ensures Bucket(c, log[j].at) != b
      {
        assert HitOk(c, ks, log[j], was);
      }
      VolumeZero(c, log, i, b);
    }
    forall j | 0 <= j < |log|
      ensures HitOk(c, ks[i := b], log[j], now)
    {
      assert HitOk(c, ks, log[j], was);
      BucketMonotone(c, log[j].at, now);
    }
    var starts' := starts[i := b * BucketSecs(c)];
    var volumes' := if starts[i] == b * BucketSecs(c) then volumes else volumes[i := 0];
    forall s | 0 <= s < |ks|
      ensures SlotOk(c, starts'[s], volumes'[s], s, ks[i := b][s], log, now)
    {
      assert SlotOk(c, starts[s], volumes[s], s, ks[s], log, was);
    }
  }

  lemma BucketMonotone(c: Config, t: nat, u: nat)
    requires ConfigOk(c) && t <= u
    ensures Bucket(c, t) <= Bucket(c, u)
  {
    BucketHolds(c, t);
    BucketHolds(c, u);
    MulLess(Bucket(c, t), Bucket(c, u) + 1, BucketSecs(c));
  }

  lemma LaterKeepsRing(c: Config, starts: seq<nat>, volumes: seq<nat>, ks: seq<nat>, log: seq<Hit>, was: nat, now: nat)
    requires ConfigOk(c) && RingOk(c, starts, volumes, ks, log, was) && was <= now
    ensures RingOk(c, starts, volumes, ks, log, now)
  {
    BucketMonotone(c, was, now);
  }

  /** Adding an accepted amount to the current slot keeps the ring in order. */
  lemma Accept(c: Config, starts: seq<nat>, volumes: seq<nat>, ks: seq<nat>, log: seq<Hit>, now: nat, amount: nat)
    requires ConfigOk(c) && RingOk(c, starts, volumes, ks, log, now)
    requires ks[Bucket(c, now) % c.bucketCount] == Bucket(c, now)
    ensures
      var i := Bucket(c, now) % c.bucketCount;
      RingOk(c, starts, volumes[i := volumes[i] + amount], ks, log + [Hit(now, amount)], now)
  {
  }

  /** An attempt that fits next to the recent volume keeps the promise. */
  lemma AcceptWithinThreshold(c: Config, log: seq<Hit>, now: nat, amount: nat)
    requires ConfigOk(c) && Trailing(c, log)
    requires forall j :: 0 <= j < |log| ==> log[j].at <= now
    requires amount + RecentVolume(c, log, now) <= c.threshold
    ensures Trailing(c, log + [Hit(now, amount)])
  {
    SpanVolume(c, log, now);
    assert (log + [Hit(now, amount)])[..|log|] == log;
    TrailingExtend(c, log, Hit(now, amount));
  }

  // ---- Which runs of withdrawals are possible ----

  /** The slots' bucket numbers after an attempt at `now` has recycled its slot. */
  function Visited(c: Config, ks: seq<nat>, now: nat): (ks': seq<nat>)
    requires ConfigOk(c) && |ks| == c.bucketCount
    ensures |ks'| == c.bucketCount
  {
    ks[Bucket(c, now) % c.bucketCount := Bucket(c, now)]
  }

  /** The slots' bucket numbers after the accepted withdrawals of the log; a failed call leaves no trace. */
  function SlotsOf(c: Config, log: seq<Hit>): (ks: seq<nat>)
    requires ConfigOk(c)
    ensures |ks| == c.bucketCount
  {
    if log == [] then seq(c.bucketCount, _ => 0)
    else Visited(c, SlotsOf(c, log[..|log| - 1]), log[|log| - 1].at)
  }

  /** What an attempt at `now` finds in the ring: a function of the withdrawals accepted before it. */
  ghost function HeldVolume(c: Config, log: seq<Hit>, now: nat): nat
    requires ConfigOk(c)
  {
    CapturedVolume(c, Visited(c, SlotsOf(c, log), now), log, Cutoff(c, now))
  }

  /** Each withdrawal of the log comes no earlier than the one before and fits next to what the ring held then. */
  ghost predicate Possible(c: Config, log: seq<Hit>)
    requires ConfigOk(c)
  {
    log == []
    || var front, h := log[..|log| - 1], log[|log| - 1];
       && Possible(c, front) && (front == [] || front[|front| - 1].at <= h.at)
       && h.amount + HeldVolume(c, front, h.at) <= c.threshold
  }

  lemma OneMorePossible(c: Config, log: seq<Hit>, h: Hit)
    requires ConfigOk(c) && Possible(c, log) && LastAt(log) <= h.at
    requires h.amount + HeldVolume(c, log, h.at) <= c.threshold
    ensures Possible(c, log + [h]) && SlotsOf(c, log + [h]) == Visited(c, SlotsOf(c, log), h.at)
  {
    hide HeldVolume;
    assert (log + [h])[..|log|] == log;
  }

  ghost predicate SlotsOk(c: Config, ks: seq<nat>, log: seq<Hit>, now: nat)
    requires ConfigOk(c) && |ks| == c.bucketCount
  {
    && (forall i :: 0 <= i < |ks| ==> (ks[i] == 0 || ks[i] % c.bucketCount == i) && ks[i] <= Bucket(c, now))
    && (forall j :: 0 <= j < |log| ==> HitOk(c, ks, log[j], now))
  }

  lemma VisitedOk(c: Config, ks: seq<nat>, log: seq<Hit>, was: nat, now: nat)
    requires ConfigOk(c) && |ks| == c.bucketCount && SlotsOk(c, ks, log, was) && was <= now
    ensures SlotsOk(c, Visited(c, ks, now), log, now)
  {
    BucketMonotone(c, was, now);
    forall j | 0 <= j < |log|
      ensures HitOk(c, Visited(c, ks, now), log[j], now)
    {
      assert HitOk(c, ks, log[j], was);
      BucketMonotone(c, log[j].at, now);
    }
  }

  function LastAt(log: seq<Hit>): nat {
    if log == [] then 0 else log[|log| - 1].at
  }

  lemma LastIsPast(c: Config, starts: seq<nat>, volumes: seq<nat>, ks: seq<nat>, log: seq<Hit>, now: nat)
    requires ConfigOk(c) && RingOk(c, starts, volumes, ks, log, now)
    ensures LastAt(log) <= now
  {
    assert log != [] ==> HitOk(c, ks, log[|log| - 1], now);
  }

  lemma {:induction false} SlotsOfOk(c: Config, log: seq<Hit>)
    requires ConfigOk(c) && Possible(c, log)
    ensures SlotsOk(c, SlotsOf(c, log), log, LastAt(log))
  {
    if log != [] {
      var front, h := log[..|log| - 1], log[|log| - 1];
      SlotsOfOk(c, front);
      VisitedOk(c, SlotsOf(c, front), front, LastAt(front), h.at);
      assert forall j :: 0 <= j < |front| ==> HitOk(c, SlotsOf(c, log), front[j], h.at);
    }
  }

  /** The ring holds all volume of the promised span, and nothing from outside the window. */
  lemma HeldBounds(c: Config, log: seq<Hit>, now: nat)
    requires ConfigOk(c) && Possible(c, log) && LastAt(log) <= now
    ensures SumIn(log, now - Span(c), now) <= RecentVolume(c, log, now) <= HeldVolume(c, log, now)
    ensures HeldVolume(c, log, now) <= SumIn(log, now - c.windowSecs, now)
  {
    SumInMonotone(log, Cutoff(c, now), now, now - c.windowSecs, now);
    SlotsOfOk(c, log);
    forall j | 0 <= j < |log|
      ensures log[j].at <= now
    {
      assert HitOk(c, SlotsOf(c, log), log[j], LastAt(log));
    }
    SpanVolume(c, log, now);
    VisitedOk(c, SlotsOf(c, log), log, LastAt(log), now);
    CapturedBounds(c, Visited(c, SlotsOf(c, log), now), log, now);
  }

  lemma {:induction false} PossibleIsPromised(c: Config, log: seq<Hit>)
    requires ConfigOk(c) && Possible(c, log)
    ensures Sorted(log) && Trailing(c, log) && forall j :: 0 <= j < |log| ==> log[j].at <= LastAt(log)
  {
    if log != [] {
      var front, h := log[..|log| - 1], log[|log| - 1];
      PossibleIsPromised(c, front);
      hide HeldVolume, Trailing, RecentVolume, SumIn, Span;
      HeldBounds(c, front, h.at);
      AcceptWithinThreshold(c, front, h.at, h.amount);
      assert log == front + [h];
    }
  }

  ghost predicate WithinAt(c: Config, log: seq<Hit>, a: int, length: nat) {
    SumIn(log, a, a + length) <= c.threshold
  }

  /** No run lets more than the threshold through in any closed span of this length. */
  ghost predicate Promised(c: Config, length: nat)
    requires ConfigOk(c)
  {
    forall log, a :: Possible(c, log) ==> WithinAt(c, log, a, length)
  }

  /** Two withdrawals of the whole threshold, one second further apart than the promise reaches. */
  function TightLog(c: Config): seq<Hit>
    requires ConfigOk(c)
  {
    var t := BucketSecs(c) - 1;
    [Hit(t, c.threshold), Hit(t + Span(c) + 1, c.threshold)]
  }

  lemma ForgottenArithmetic(n: nat, bs: nat, window: nat)
    requires 1 <= n && 0 < window && bs == Max(window / n, 1)
    ensures var now := bs + Min(window, (n - 1) * bs);
            now == n * bs || (bs == 1 && now == window + 1)
  {
    DivHolds(window, n);
    assert n * bs == (n - 1) * bs + bs;
    if n <= window {
      MulLess(0, window / n, n);
      assert n * bs <= window;
    } else {
      MulLess(window / n, 1, n);
      assert bs == 1;
    }
  }

  lemma BucketIs(t: nat, k: nat, bs: nat)
    requires 0 < bs && k * bs <= t < k * bs + bs
    ensures t / bs == k
  {
    DivHolds(t, bs);
    MulLess(k, t / bs + 1, bs);
    MulLess(t / bs, k + 1, bs);
  }

  /** When the second one comes, the first has lost its slot or the window is over. */
  lemma FirstIsForgotten(c: Config)
    requires ConfigOk(c) && c.enabled
    ensures Bucket(c, TightLog(c)[0].at) == 0
    ensures Bucket(c, TightLog(c)[1].at) == c.bucketCount || 0 < Cutoff(c, TightLog(c)[1].at)
  {
    var bs, now := BucketSecs(c), TightLog(c)[1].at;
    SpanOfRing(c);
    ForgottenArithmetic(c.bucketCount, bs, c.windowSecs);
    BucketIs(bs - 1, 0, bs);
    if now == c.bucketCount * bs {
      BucketIs(now, c.bucketCount, bs);
    }
  }

  lemma NothingHeld(c: Config, h: Hit, now: nat)
    requires ConfigOk(c) && Bucket(c, h.at) == 0 && (Bucket(c, now) == c.bucketCount || 0 < Cutoff(c, now))
    ensures HeldVolume(c, [], h.at) == 0 && HeldVolume(c, [h], now) == 0
  {
    hide Bucket, Cutoff, BucketSecs, SlotsOf;
    var ks, cutoff := Visited(c, SlotsOf(c, [h]), now), Cutoff(c, now);
    assert [h][..0] == [] && CapturedVolume(c, ks, [], cutoff) == 0;
    assert !Captured(c, ks, h, cutoff);
  }

  lemma TightIsPossible(c: Config)
    requires ConfigOk(c) && c.enabled
    ensures Possible(c, TightLog(c))
  {
    var log := TightLog(c);
    FirstIsForgotten(c);
    NothingHeld(c, log[0], log[1].at);
    hide HeldVolume, Span, BucketSecs, Bucket, Cutoff;
    assert log[..1] == [log[0]] && [log[0]][..0] == [];
    assert Possible(c, []) && Possible(c, [log[0]]);
  }

  /**
   * The promise is exact: a span length is safe in every run if and only if it is at most all buckets but one of
   * `windowSecs / bucketCount` seconds each, or the whole window when it has fewer seconds than there are buckets.
   */
  lemma SpanIsExact(c: Config, length: nat)
    requires ConfigOk(c) && c.enabled
    ensures Promised(c, length) <==>
            length <= if c.bucketCount <= c.windowSecs
                      then (c.bucketCount - 1) * (c.windowSecs / c.bucketCount) else c.windowSecs
  {
    if length <= Span(c) {
      forall log, a | Possible(c, log)
        ensures WithinAt(c, log, a, length)
      {
        PossibleIsPromised(c, log);
        SpanWithinThreshold(c, log, a, a + length);
      }
    } else {
      var log := TightLog(c);
      TightIsPossible(c);
      assert log[..1] == [log[0]] && log[..1][..0] == [];
      assert SumIn(log[..1], log[0].at, log[0].at + length) == c.threshold;
      assert !WithinAt(c, log, log[0].at, length);
    }
  }

  /** Without a division: in every run the withdrawals of such a span never total more than the threshold. */
  lemma PromiseInSeconds(c: Config, log: seq<Hit>, a: int, b: int)
    requires ConfigOk(c) && c.enabled && Possible(c, log) && a <= b
    requires if c.bucketCount <= c.windowSecs
             then c.bucketCount * (b - a) <= (c.bucketCount - 1) * (c.windowSecs - c.bucketCount + 1)
             else b - a <= c.windowSecs
    ensures SumIn(log, a, b) <= c.threshold
  {
    if c.bucketCount <= c.windowSecs {
      ReachArithmetic(c.bucketCount, c.windowSecs, b - a);
    }
    PossibleIsPromised(c, log);
    SpanWithinThreshold(c, log, a, b);
  }

  lemma ReachArithmetic(n: nat, window: nat, length: nat)
    requires 1 <= n <= window && n * length <= (n - 1) * (window - n + 1)
    ensures length <= (n - 1) * (window / n)
  {
    DivHolds(window, n);
    AtMostScaled(n - 1, window - n + 1, window / n * n);
    Regrouped(n - 1, window / n, n);
    MulLess((n - 1) * (window / n), length, n);
  }

  lemma AtMostScaled(k: nat, a: nat, b: nat)
    requires a <= b
    ensures k * a <= k * b
  {
  }

  lemma Regrouped(a: nat, b: nat, d: nat)
    ensures a * (b * d) == a * b * d
  {
  }

  class Breaker {
    var config: Config
    var bucketStarts: seq<nat>
    var bucketVolumes: seq<nat>
    var tripped: bool
    var trippedAt: Option<nat>
    var paused: bool

    ghost var ks: seq<nat>      // bucket number held by each slot
    ghost var log: seq<Hit>     // withdrawals accepted since the last configure or reset
    ghost var clock: nat        // time of the last call

    ghost predicate Valid()
      reads this
    {
      && ConfigOk(config)
      && RingOk(config, bucketStarts, bucketVolumes, ks, log, clock)
      && Sorted(log)
      && Trailing(config, log)
    }

    /** No trip is stored, and the ring is what the accepted withdrawals alone have made of it. */
    ghost predicate Calm()
      reads this
    {
      Valid() && !tripped && trippedAt == None && ks == SlotsOf(config, log) && Possible(config, log)
    }

    constructor ()
      ensures Calm() && log == [] && config == Config(false, 0, 3_600, 12) && !paused && clock == 0
    {
      config := Config(false, 0, DEFAULT_WINDOW_SECS, DEFAULT_BUCKETS);
      var zeros := seq(DEFAULT_BUCKETS, _ => 0);
      bucketStarts, bucketVolumes, ks := zeros, zeros, zeros;
      tripped, trippedAt, paused := false, None, false;
      log, clock := [], 0;
    }

    /** Empties the ring for the given number of buckets. */
    method ResetStatus()
      requires ConfigOk(config)
      modifies this`bucketStarts, this`bucketVolumes, this`tripped, this`trippedAt, this`ks, this`log
      ensures Valid() && Calm() && log == []
      ensures bucketVolumes == seq(config.bucketCount, _ => 0) == bucketStarts
    {
      bucketStarts, bucketVolumes := [], [];
      for i := 0 to config.bucketCount
        invariant bucketStarts == seq(i, _ => 0) == bucketVolumes
      {
        bucketStarts := bucketStarts + [0];
        bucketVolumes := bucketVolumes + [0];
      }
      ks, log := bucketStarts, [];
      tripped, trippedAt := false, None;
    }

    method Configure(gate: Option<ContractError>, enabled: bool, threshold: i128, windowSecs: u64, bucketCount: u32)
      returns (r: Result<(), ContractError>)
      requires Valid()
      modifies this
      ensures Valid() && clock == old(clock) && paused == old(paused)
      ensures r.Ok? <==> gate.None? && 0 <= threshold && 1 <= bucketCount <= 24
                         && (enabled ==> 0 < threshold && 0 < windowSecs)
      ensures r.Ok? ==> config == Config(enabled, threshold, windowSecs, bucketCount) && log == [] && Calm()
      ensures r.Err? ==> config == old(config) && log == old(log)
                         && tripped == old(tripped) && trippedAt == old(trippedAt)
      ensures old(Calm()) ==> Calm()
    {
      if gate.Some? {
        return Err(gate.value);
      }
      if threshold < 0 {
        return Err(InvalidAmount);
      }
      if enabled && (threshold == 0 || windowSecs == 0) {
        return Err(InvalidInput);
      }
      if bucketCount == 0 || bucketCount > MAX_BUCKETS {
        return Err(InvalidInput);
      }
      config := Config(enabled, threshold, windowSecs, bucketCount);
      ResetStatus();
      return Ok(());
    }

    method Reset(gate: Option<ContractError>) returns (r: Result<(), ContractError>)
      requires Valid()
      modifies this
      ensures Valid() && clock == old(clock) && config == old(config)
      ensures r.Ok? <==> gate.None?
      ensures r.Ok? ==> log == [] && Calm() && paused == (old(paused) && !old(tripped))
      ensures r.Err? ==> log == old(log) && tripped == old(tripped) && trippedAt == old(trippedAt)
                         && paused == old(paused)
      ensures old(Calm()) ==> Calm() && paused == old(paused)
    {
      if gate.Some? {
        return Err(gate.value);
      }
      var wasTripped := tripped;
      ResetStatus();
      if wasTripped {
        paused := false;
      }
      return Ok(());
    }

    /** Fits both vectors to the configured bucket count, padding with zeros or dropping the tail. */
    method NormalizeStatus()
      requires ConfigOk(config)
      modifies this`bucketStarts, this`bucketVolumes
      ensures |bucketStarts| == |bucketVolumes| == config.bucketCount
      ensures forall i :: 0 <= i < config.bucketCount ==>
                && bucketStarts[i] == (if i < |old(bucketStarts)| then old(bucketStarts)[i] else 0)
                && bucketVolumes[i] == (if i < |old(bucketVolumes)| then old(bucketVolumes)[i] else 0)
    {
      var count := config.bucketCount;
      while |bucketStarts| < count
        invariant |old(bucketStarts)| <= |bucketStarts|
        invariant bucketVolumes == old(bucketVolumes)
        invariant forall i :: 0 <= i < |bucketStarts| ==>
                    bucketStarts[i] == if i < |old(bucketStarts)| then old(bucketStarts)[i] else 0
        decreases count - |bucketStarts|
      {
        bucketStarts := bucketStarts + [0];
      }
      ghost var padded := bucketStarts;
      while |bucketVolumes| < count
        invariant |old(bucketVolumes)| <= |bucketVolumes| && count <= |bucketStarts|
        invariant bucketStarts == padded
        invariant forall i :: 0 <= i < |bucketVolumes| ==>
                    bucketVolumes[i] == if i < |old(bucketVolumes)| then old(bucketVolumes)[i] else 0
        decreases count - |bucketVolumes|
      {
        bucketVolumes := bucketVolumes + [0];
      }
      ghost var paddedVolumes := bucketVolumes;
      while |bucketStarts| > count
        invariant count <= |bucketStarts| && bucketStarts <= padded
        invariant bucketVolumes == paddedVolumes
        decreases |bucketStarts|
      {
        bucketStarts := bucketStarts[..|bucketStarts| - 1];
      }
      while |bucketVolumes| > count
        invariant count <= |bucketVolumes| && bucketVolumes <= paddedVolumes
        invariant |bucketStarts| == count && bucketStarts <= padded
        decreases |bucketVolumes|
      {
        bucketVolumes := bucketVolumes[..|bucketVolumes| - 1];
      }
    }

    /** Moves the clock to `now` and gives the current bucket its slot, emptied if it held an older one. */
    method RecycleSlot(now: nat) returns (index: nat)
      requires Valid() && config.enabled && clock <= now
      modifies this`bucketStarts, this`bucketVolumes, this`ks, this`clock
      ensures clock == now && Valid()
      ensures index == Bucket(config, now) % config.bucketCount && ks == Visited(config, old(ks), now)
      ensures index < |ks| && ks[index] == Bucket(config, now)
      ensures bucketStarts[index] <= now < bucketStarts[index] + Max(config.windowSecs / config.bucketCount, 1)
    {
      hide Trailing, Sorted, SlotOk, HitOk;
      ghost var starts, volumes := bucketStarts, bucketVolumes;
      NormalizeStatus();
      assert bucketStarts == starts && bucketVolumes == volumes;
      var bucketSecs := Max(config.windowSecs / config.bucketCount, 1);
      var start := (now / bucketSecs) * bucketSecs;
      index := (now / bucketSecs) % config.bucketCount;
      Recycle(config, bucketStarts, bucketVolumes, ks, log, clock, now);
      if bucketStarts[index] != start {
        bucketStarts := bucketStarts[index := start];
        bucketVolumes := bucketVolumes[index := 0];
      }
      assert bucketStarts == starts[index := start];
      DivHolds(now, bucketSecs);
      ks, clock := ks[index := now / bucketSecs], now;
    }

    /** The attempt plus every slot that starts at or after the cutoff, with checked addition. */
    method RollingTotal(amount: nat, cutoff: nat) returns (total: Result<nat, ContractError>)
      requires ConfigOk(config) && |bucketStarts| == |bucketVolumes| == config.bucketCount && amount <= I128_MAX
      ensures
        var exact := amount + Rolling(bucketStarts, bucketVolumes, cutoff, config.bucketCount);
        total == if exact <= I128_MAX then Ok(exact) else Err(OverflowError)
    {
      var sum := amount;
      for i := 0 to config.bucketCount
        invariant sum == amount + Rolling(bucketStarts, bucketVolumes, cutoff, i) <= I128_MAX
      {
        RollingGrows(bucketStarts, bucketVolumes, cutoff, i + 1, config.bucketCount);
        if bucketStarts[i] >= cutoff {
          if sum + bucketVolumes[i] > I128_MAX {
            return Err(OverflowError);
          }
          sum := sum + bucketVolumes[i];
        }
      }
      return Ok(sum);
    }

    /** The rolling total of an attempt at the current time, between its two bounds. */
    method MeasureWindow(now: nat, amount: nat) returns (total: Result<nat, ContractError>, ghost rolling: nat)
      requires Valid() && now == clock && amount <= I128_MAX
      ensures amount + RecentVolume(config, log, clock) <= rolling <= amount + SumIn(log, Cutoff(config, clock), clock)
      ensures amount + SumIn(log, now - Span(config), now) <= rolling
              <= amount + SumIn(log, now - config.windowSecs, now)
      ensures rolling == amount + CapturedVolume(config, ks, log, Cutoff(config, now))
      ensures total == if rolling <= I128_MAX then Ok(rolling) else Err(OverflowError)
      ensures total.Ok? ==>
                amount + RecentVolume(config, log, clock) <= total.value
                <= amount + SumIn(log, Cutoff(config, clock), clock)
    {
      hide Span, Trailing, Sorted, SumIn, RecentVolume, CapturedVolume, SlotOk, HitOk;
      var cutoff := if now < config.windowSecs then 0 else now - config.windowSecs;
      rolling := amount + Rolling(bucketStarts, bucketVolumes, cutoff, config.bucketCount);
      RollingBounds(config, bucketStarts, bucketVolumes, ks, log, clock);
      RollingIsCaptured(config, bucketStarts, bucketVolumes, ks, log, clock, cutoff, |ks|);
      WindowBounds(config, bucketStarts, bucketVolumes, ks, log, clock);
      total := RollingTotal(amount, cutoff);
    }

    /**
     * Records a withdrawal or trips.  `rolling` is the total that is compared with the threshold: at least
     * the attempt plus all volume of the promised span, and at most the attempt plus the exact volume of the window.
     */
    method RecordWithdrawalOrTrip(now: nat, amount: nat)
      returns (r: Result<(), ContractError>, ghost rolling: nat)
      requires Valid() && clock <= now && amount <= I128_MAX
      modifies this
      ensures Valid() && clock == now && config == old(config)
      ensures !config.enabled ==> r.Ok? && log == old(log) && ks == old(ks)
      ensures config.enabled ==>
                && ks == Visited(config, old(ks), now)
                && rolling == amount + CapturedVolume(config, ks, old(log), Cutoff(config, now))
                && amount + SumIn(old(log), now - Span(config), now) <= rolling
                && rolling <= amount + SumIn(old(log), now - config.windowSecs, now)
                && (r == Ok(()) <==> rolling <= config.threshold)
                && (r == Err(ContractPaused) <==> config.threshold < rolling <= I128_MAX)
                && (r == Err(OverflowError) <==> I128_MAX < rolling)
                && log == (if r.Ok? then old(log) + [Hit(now, amount)] else old(log))
      ensures r == Err(ContractPaused) ==> tripped && trippedAt == Some(now) && paused
      ensures r != Err(ContractPaused) ==>
                tripped == old(tripped) && trippedAt == old(trippedAt) && paused == old(paused)
    {
      hide Span, Trailing, Sorted, RingOk, SlotOk, RecentVolume, SumIn, CapturedVolume, Visited, Bucket, Cutoff;
      r, rolling := Ok(()), 0;
      if config.enabled {
        var index := RecycleSlot(now);
        var total;
        total, rolling := MeasureWindow(now, amount);
        if total.Err? {
          r := Err(total.error);
        } else if total.value > config.threshold {
          tripped, trippedAt, paused := true, Some(now), true;
          r := Err(ContractPaused);
        } else {
          AddVolume(index, amount);
        }
      } else {
        LaterKeepsRing(config, bucketStarts, bucketVolumes, ks, log, clock, now);
        clock := now;
      }
    }

    /**
     * A whole withdrawal call as the host runs it; `rest` is what the remaining checks and transfers of the call
     * answer.  An error undoes everything, a trip and its pause included, so the call never leaves a trip behind.
     */
    method Withdrawal(now: nat, amount: nat, rest: Option<ContractError>) returns (r: Result<(), ContractError>)
      requires Calm() && clock <= now && amount <= I128_MAX
      modifies this
      ensures Calm() && config == old(config) && paused == old(paused) && clock <= now
      ensures r.Ok? <==>
                rest.None? && (config.enabled ==> amount + HeldVolume(config, old(log), now) <= config.threshold)
      ensures SumIn(old(log), now - Span(config), now) <= HeldVolume(config, old(log), now)
              <= SumIn(old(log), now - config.windowSecs, now)
      ensures log == if r.Ok? && config.enabled then old(log) + [Hit(now, amount)] else old(log)
      ensures r.Err? ==> bucketStarts == old(bucketStarts) && bucketVolumes == old(bucketVolumes)
    {
      var starts, volumes, wasPaused := bucketStarts, bucketVolumes, paused;
      ghost var wasKs, wasLog, wasClock := ks, log, clock;
      hide ConfigOk, RingOk, Trailing, Sorted, SlotsOf, Possible, Visited, CapturedVolume, RecentVolume, SumIn, Span;
      LastIsPast(config, bucketStarts, bucketVolumes, ks, log, clock);
      HeldBounds(config, log, now);
      ghost var rolling;
      r, rolling := RecordWithdrawalOrTrip(now, amount);
      if r.Ok? && rest.Some? {
        r := Err(rest.value);
      }
      if r.Err? {
        Undo(starts, volumes, wasPaused, wasKs, wasLog, wasClock);
      } else if config.enabled {
        OneMorePossible(config, wasLog, Hit(now, amount));
      }
    }

    /** Puts back what a failed call found. */
    method Undo(starts: seq<nat>, volumes: seq<nat>, paused: bool, ghost ks: seq<nat>, ghost log: seq<Hit>,
                ghost clock: nat)
      requires ConfigOk(config) && RingOk(config, starts, volumes, ks, log, clock)
      requires Sorted(log) && Trailing(config, log) && ks == SlotsOf(config, log) && Possible(config, log)
      modifies this
      ensures Calm() && config == old(config)
      ensures bucketStarts == starts && bucketVolumes == volumes && this.paused == paused
      ensures this.log == log && this.clock == clock
    {
      bucketStarts, bucketVolumes, tripped, trippedAt, this.paused := starts, volumes, false, None, paused;
      this.ks, this.log, this.clock := ks, log, clock;
    }

    /** The admin's pause switch. */
    method SetPaused(paused: bool)
      requires Calm()
      modifies this`paused
      ensures Calm() && this.paused == paused
    {
      this.paused := paused;
    }

    /** Books an accepted amount.  It is part of the total, so its checked addition cannot overflow. */
    method AddVolume(index: nat, amount: nat)
      requires Valid()
      requires index == Bucket(config, clock) % config.bucketCount && ks[index] == Bucket(config, clock)
      requires amount + RecentVolume(config, log, clock) <= config.threshold
      modifies this`bucketVolumes, this`log
      ensures Valid() && log == old(log) + [Hit(clock, amount)]
    {
      Accept(config, bucketStarts, bucketVolumes, ks, log, clock, amount);
      AcceptWithinThreshold(config, log, clock, amount);
      bucketVolumes := bucketVolumes[index := bucketVolumes[index] + amount];
      log := log + [Hit(clock, amount)];
    }
  }

  /** Every possible log is the log of a run of calls. */
  method Replay(c: Config, log: seq<Hit>) returns (b: Breaker)
    requires ConfigOk(c) && c.enabled && Possible(c, log)
    ensures fresh(b) && b.Calm() && b.config == c && b.log == log
  {
    hide RingOk, Trailing, Sorted, HeldVolume, SlotsOf, Possible, RecentVolume, SumIn;
    b := new Breaker();
    var configured := b.Configure(None, c.enabled, c.threshold, c.windowSecs, c.bucketCount);
    var i := 0;
    while i < |log|
      invariant 0 <= i <= |log| && fresh(b) && b.Calm() && b.config == c && b.log == log[..i]
      invariant b.clock <= LastAt(log[..i])
    {
      NextFits(c, log, i);
      var done := b.Withdrawal(log[i].at, log[i].amount, None);
      i := i + 1;
    }
  }

  lemma NextFits(c: Config, log: seq<Hit>, i: nat)
    requires ConfigOk(c) && Possible(c, log) && i < |log|
    ensures log[..i + 1] == log[..i] + [log[i]] && LastAt(log[..i]) <= log[i].at
    ensures log[i].amount + HeldVolume(c, log[..i], log[i].at) <= c.threshold
  {
    PossiblePrefix(c, log, i + 1);
    assert log[..i + 1][..i] == log[..i];
  }

  lemma {:induction false} PossiblePrefix(c: Config, log: seq<Hit>, n: nat)
    requires ConfigOk(c) && Possible(c, log) && n <= |log|
    ensures Possible(c, log[..n])
  {
    if n < |log| {
      PossiblePrefix(c, log[..|log| - 1], n);
      assert log[..|log| - 1][..n] == log[..n];
    } else {
      assert log[..n] == log;
    }
  }

  lemma {:induction false} RollingGrows(starts: seq<nat>, volumes: seq<nat>, cutoff: nat, i: nat, n: nat)
    requires i <= n <= |starts| && n <= |volumes|
    ensures Rolling(starts, volumes, cutoff, i) <= Rolling(starts, volumes, cutoff, n)
  {
    if i < n {
      RollingGrows(starts, volumes, cutoff, i, n - 1);
    }
  }
}
