/** Fixed-window rate limiters: the realtime server's, with its sweep, and the contract's, with its saturating clock. */
module RateLimit {
  import opened Prelude

  type Time = int

  /** How many of the times are in `[from, to)`. */
  function Count(log: seq<Time>, from: Time, to: Time): nat {
    if log == [] then 0
    else Count(log[..|log| - 1], from, to) + if from <= log[|log| - 1] < to then 1 else 0
  }

  lemma {:induction false} CountSplit(log: seq<Time>, from: Time, mid: Time, to: Time)
    requires from <= mid <= to
    ensures Count(log, from, to) == Count(log, from, mid) + Count(log, mid, to)
  {
    if log != [] {
      CountSplit(log[..|log| - 1], from, mid, to);
    }
  }

  lemma {:induction false} CountWider(log: seq<Time>, from: Time, to: Time, from': Time, to': Time)
    requires from' <= from && to <= to'
    ensures Count(log, from, to) <= Count(log, from', to')
  {
    if log != [] {
      CountWider(log[..|log| - 1], from, to, from', to');
    }
  }

  lemma {:induction false} CountBeyond(log: seq<Time>, from: Time, to: Time)
    requires forall i :: 0 <= i < |log| ==> log[i] < from
    ensures Count(log, from, to) == 0
  {
    if log != [] {
      CountBeyond(log[..|log| - 1], from, to);
    }
  }

  lemma CountAppend(log: seq<Time>, x: Time, from: Time, to: Time)
    ensures Count(log + [x], from, to) == Count(log, from, to) + if from <= x < to then 1 else 0
  {
  }

  predicate WithinBound(log: seq<Time>, t: Time, window: int, cap: nat) {
    Count(log, t, t + window) <= 2 * cap
  }

  /** No interval as long as the window holds more than twice the cap. */
  ghost predicate Bounded(log: seq<Time>, window: int, cap: nat) {
    forall t :: WithinBound(log, t, window, cap)
  }

  /** The accepted hits of one key, and when its last window was opened. */
  datatype Track = Track(start: Time, log: seq<Time>)

  /** At most `count` hits since the window opened, at most `cap` in the window's length before it. */
  ghost predicate TrackOk(tr: Track, count: int, window: int, cap: nat) {
    && Bounded(tr.log, window, cap) && count <= cap
    && (0 < window ==>
          && (forall i :: 0 <= i < |tr.log| ==> tr.log[i] < tr.start + window)
          && Count(tr.log, tr.start, tr.start + window) <= count
          && Count(tr.log, tr.start - window, tr.start) <= cap)
  }

  /** An interval that reaches into the open window meets at most that window and what came shortly before it. */
  lemma CountRecent(tr: Track, now: Time, t: Time, window: int)
    requires forall i :: 0 <= i < |tr.log| ==> tr.log[i] < tr.start + window
    requires tr.start <= now < tr.start + window && t <= now < t + window
    ensures Count(tr.log, t, t + window) <=
            Count(tr.log, tr.start - window, tr.start) + Count(tr.log, tr.start, tr.start + window)
  {
    var end := tr.start + window;
    CountWider(tr.log, t, t + window, tr.start - window, end + window);
    CountSplit(tr.log, tr.start - window, tr.start, end + window);
    CountSplit(tr.log, tr.start, end, end + window);
    CountBeyond(tr.log, end, end + window);
  }

  /** A hit counted in the open window. */
  lemma HitInside(tr: Track, count: int, now: Time, window: int, cap: nat)
    requires TrackOk(tr, count, window, cap) && count < cap && tr.start <= now < tr.start + window
    ensures TrackOk(tr.(log := tr.log + [now]), count + 1, window, cap)
  {
    var log := tr.log + [now];
    CountAppend(tr.log, now, tr.start, tr.start + window);
    CountAppend(tr.log, now, tr.start - window, tr.start);
    forall t
      ensures WithinBound(log, t, window, cap)
    {
      CountAppend(tr.log, now, t, t + window);
      assert WithinBound(tr.log, t, window, cap);
      if t <= now < t + window {
        CountRecent(tr, now, t, window);
      }
    }
  }

  /** A hit that opens a new window once the old one is over. */
  lemma HitFresh(tr: Track, count: int, now: Time, window: int, cap: nat)
    requires TrackOk(tr, count, window, cap) && 0 < cap && tr.start + window <= now
    ensures TrackOk(Track(now, tr.log + [now]), 1, window, cap)
  {
    if 0 < window {
      HitFreshWindow(tr, count, now, window, cap);
    } else {
      forall t
        ensures WithinBound(tr.log + [now], t, window, cap)
      {
        CountEmpty(tr.log + [now], t, t + window);
      }
    }
  }

  lemma {:induction false} CountEmpty(log: seq<Time>, from: Time, to: Time)
    requires to <= from
    ensures Count(log, from, to) == 0
  {
    if log != [] {
      CountEmpty(log[..|log| - 1], from, to);
    }
  }

  lemma HitFreshWindow(tr: Track, count: int, now: Time, window: int, cap: nat)
    requires TrackOk(tr, count, window, cap) && 0 < window && 0 < cap && tr.start + window <= now
    ensures TrackOk(Track(now, tr.log + [now]), 1, window, cap)
  {
    var log := tr.log + [now];
    CountAppend(tr.log, now, now, now + window);
    CountBeyond(tr.log, now, now + window);
    CountAppend(tr.log, now, now - window, now);
    CountSinceStart(tr, now - window, now, window);
    forall t
      ensures WithinBound(log, t, window, cap)
    {
      CountAppend(tr.log, now, t, t + window);
      assert WithinBound(tr.log, t, window, cap);
      if t <= now < t + window {
        CountSinceStart(tr, t, t + window, window);
      }
    }
  }

  lemma CountSinceStart(tr: Track, from: Time, to: Time, window: int)
    requires forall i :: 0 <= i < |tr.log| ==> tr.log[i] < tr.start + window
    requires 0 <= window && tr.start <= from && tr.start + window <= to
    ensures Count(tr.log, from, to) <= Count(tr.log, tr.start, tr.start + window)
  {
    CountWider(tr.log, from, to, tr.start, to);
    CountSplit(tr.log, tr.start, tr.start + window, to);
    CountBeyond(tr.log, tr.start + window, to);
  }

  lemma NoHits(start: Time, window: int, cap: nat)
    ensures TrackOk(Track(start, []), 0, window, cap)
  {
  }

  // ---- The realtime server's limiter ----

  datatype Window = Window(count: int, resetAt: Time)

  function Entry(hits: map<string, Window>, key: string): Option<Window> {
    if key in hits then Some(hits[key]) else None
  }

  predicate Expired(entry: Option<Window>, now: Time) {
    entry.None? || entry.value.resetAt <= now
  }

  function Admits(entry: Option<Window>, now: Time, max: int): bool {
    Expired(entry, now) || entry.value.count < max
  }

  /** The entry of a key after one hit. */
  function AfterHit(entry: Option<Window>, now: Time, max: int, window: int): Window {
    if Expired(entry, now) then Window(1, now + window)
    else if entry.value.count < max then entry.value.(count := entry.value.count + 1)
    else entry.value
  }

  function Swept(hits: map<string, Window>, now: Time): map<string, Window> {
    map k | k in hits && now < hits[k].resetAt :: hits[k]
  }

  /** A stored entry describes the open window; a missing one means that the last window is over. */
  ghost predicate KeyOk(entry: Option<Window>, tr: Track, last: Time, window: int, cap: nat) {
    && (forall i :: 0 <= i < |tr.log| ==> tr.log[i] <= last)
    && match entry
       case Some(w) =>
         && w.resetAt == tr.start + window && tr.start <= last && TrackOk(tr, w.count, window, cap)
         && (0 < window ==> w.count == Count(tr.log, tr.start, tr.start + window))
       case None => TrackOk(tr, cap, window, cap) && tr.start + window <= last
  }

  /** In the open window the count is exact, so a hit is refused only when the window is full. */
  lemma AdmitsIff(entry: Option<Window>, tr: Track, last: Time, now: Time, max: int, window: int, cap: nat)
    requires KeyOk(entry, tr, last, window, cap) && last <= now
    ensures Admits(entry, now, max) <==> tr.start + window <= now || Count(tr.log, tr.start, now + 1) < max
  {
    if now < tr.start + window {
      CountSplit(tr.log, tr.start, now + 1, tr.start + window);
      CountBeyond(tr.log, now + 1, tr.start + window);
    }
  }

  lemma HitKeepsKey(entry: Option<Window>, tr: Track, last: Time, now: Time, max: int, window: int, cap: nat)
    requires KeyOk(entry, tr, last, window, cap) && last <= now && cap == Max(max, 1)
    ensures KeyOk(Some(AfterHit(entry, now, max, window)), Recorded(entry, tr, now, max), now, window, cap)
  {
    if Expired(entry, now) {
      HitFresh(tr, if entry.Some? then entry.value.count else cap, now, window, cap);
      if 0 < window {
        CountAppend(tr.log, now, now, now + window);
        CountBeyond(tr.log, now, now + window);
      }
    } else if entry.value.count < max {
      CountAppend(tr.log, now, tr.start, tr.start + window);
      HitInside(tr, entry.value.count, now, window, cap);
    }
  }

  function Recorded(entry: Option<Window>, tr: Track, now: Time, max: int): (r: Track)
    ensures r.log == tr.log + if Admits(entry, now, max) then [now] else []
  {
    if Expired(entry, now) then Track(now, tr.log + [now])
    else if Admits(entry, now, max) then tr.(log := tr.log + [now])
    else tr
  }

  function TrackOf(accepted: map<string, Track>, key: string, start: Time): Track {
    if key in accepted then accepted[key] else Track(start, [])
  }

  /** The table and, key by key, the hits accepted so far agree. */
  ghost predicate TableOk(hits: map<string, Window>, accepted: map<string, Track>, last: Time, window: int, cap: nat) {
    && hits.Keys <= accepted.Keys
    && forall k :: k in accepted ==> KeyOk(Entry(hits, k), accepted[k], last, window, cap)
  }

  lemma LaterKey(entry: Option<Window>, tr: Track, last: Time, now: Time, window: int, cap: nat)
    requires KeyOk(entry, tr, last, window, cap) && last <= now
    ensures KeyOk(entry, tr, now, window, cap)
    ensures Expired(entry, now) ==> KeyOk(None, tr, now, window, cap)
  {
  }

  lemma MapSame<K, V>(m: map<K, V>, k: K)
    requires k in m
    ensures m[k := m[k]] == m
  {
  }

  lemma HitKeepsTable(hits: map<string, Window>, accepted: map<string, Track>, last: Time, key: string, now: Time,
                      max: int, window: int, cap: nat)
    requires TableOk(hits, accepted, last, window, cap) && last <= now && cap == Max(max, 1)
    ensures var tr := TrackOf(accepted, key, now - window);
            TableOk(hits[key := AfterHit(Entry(hits, key), now, max, window)],
                    accepted[key := Recorded(Entry(hits, key), tr, now, max)], now, window, cap)
  {
    var tr, entry := TrackOf(accepted, key, now - window), Entry(hits, key);
    NoHits(now - window, window, cap);
    assert key in accepted ==> KeyOk(entry, accepted[key], last, window, cap);
    HitKeepsKey(entry, tr, now, now, max, window, cap);
    forall k | k in accepted && k != key
      ensures KeyOk(Entry(hits, k), accepted[k], now, window, cap)
    {
      LaterKey(Entry(hits, k), accepted[k], last, now, window, cap);
    }
  }

  lemma TableAdmitsIff(hits: map<string, Window>, accepted: map<string, Track>, last: Time, key: string, now: Time,
                       max: int, window: int, cap: nat)
    requires TableOk(hits, accepted, last, window, cap) && last <= now
    ensures key !in accepted ==> Admits(Entry(hits, key), now, max)
    ensures key in accepted ==>
              (Expired(Entry(hits, key), now) <==> accepted[key].start + window <= now)
              && (Admits(Entry(hits, key), now, max) <==>
                    accepted[key].start + window <= now
                    || Count(accepted[key].log, accepted[key].start, now + 1) < max)
  {
    if key in accepted {
      assert KeyOk(Entry(hits, key), accepted[key], last, window, cap);
      AdmitsIff(Entry(hits, key), accepted[key], last, now, max, window, cap);
    }
  }

  lemma SweepKeepsTable(hits: map<string, Window>, accepted: map<string, Track>, last: Time, now: Time,
                        window: int, cap: nat)
    requires TableOk(hits, accepted, last, window, cap) && last <= now
    ensures TableOk(Swept(hits, now), accepted, now, window, cap)
  {
    forall k | k in accepted
      ensures KeyOk(Entry(Swept(hits, now), k), accepted[k], now, window, cap)
    {
      LaterKey(Entry(hits, k), accepted[k], last, now, window, cap);
    }
  }

  class SlidingWindowLimiter {
    const max: int
    const windowMs: int
    var hits: map<string, Window>
    ghost var accepted: map<string, Track>
    ghost var last: Time

    ghost predicate Valid()
      reads this
    {
      TableOk(hits, accepted, last, windowMs, Max(max, 1))
    }

    constructor (max: int, windowMs: int, ghost now: Time)
      ensures Valid() && this.max == max && this.windowMs == windowMs
      ensures hits == map[] && accepted == map[] && last == now
    {
      this.max, this.windowMs := max, windowMs;
      hits, accepted, last := map[], map[], now;
    }

    /** Whether a hit is let through; no interval of the window's length holds more than twice the budget. */
    method Consume(key: string, now: Time) returns (ok: bool)
      requires Valid() && last <= now
      modifies this
      ensures Valid() && last == now
      ensures key !in old(accepted) ==> ok
      ensures key in old(accepted) ==>
                var tr := old(accepted)[key];
                ok <==> tr.start + windowMs <= now || Count(tr.log, tr.start, now + 1) < max
      ensures ok && key in old(accepted) ==>
                && key in accepted && accepted[key].log == old(accepted)[key].log + [now]
                && accepted[key].start == if old(accepted)[key].start + windowMs <= now then now
                                          else old(accepted)[key].start
      ensures ok <==> Admits(Entry(old(hits), key), now, max)
      ensures hits == old(hits)[key := AfterHit(Entry(old(hits), key), now, max, windowMs)]
      ensures accepted == old(accepted)[key :=
                            Recorded(Entry(old(hits), key), TrackOf(old(accepted), key, now - windowMs), now, max)]
    {
      hide TableOk, Count;
      var entry := Entry(hits, key);
      ghost var next := AfterHit(entry, now, max, windowMs);
      ghost var track := Recorded(entry, TrackOf(accepted, key, now - windowMs), now, max);
      HitKeepsTable(hits, accepted, last, key, now, max, windowMs, Max(max, 1));
      TableAdmitsIff(hits, accepted, last, key, now, max, windowMs, Max(max, 1));
      if entry.None? || now >= entry.value.resetAt {
        hits := hits[key := Window(1, now + windowMs)];
        ok := true;
      } else if entry.value.count >= max {
        MapSame(hits, key);
        ok := false;
      } else {
        hits := hits[key := entry.value.(count := entry.value.count + 1)];
        ok := true;
      }
      assert hits == old(hits)[key := next];
      accepted, last := accepted[key := track], now;
    }

    /** Drops the expired entries, one by one. */
    static method DropExpired(hits: map<string, Window>, now: Time) returns (left: map<string, Window>)
      ensures left == Swept(hits, now)
    {
      left := hits;
      var keys := hits.Keys;
      while keys != {}
        invariant keys <= left.Keys <= hits.Keys
        invariant forall k :: k in left ==> left[k] == hits[k] && (k in keys || now < hits[k].resetAt)
        invariant forall k :: k in hits && now < hits[k].resetAt ==> k in left
        decreases |keys|
      {
        var key :| key in keys;
        if now >= left[key].resetAt {
          left := left - {key};
        }
        keys := keys - {key};
      }
    }

    method Sweep(now: Time)
      requires Valid() && last <= now
      modifies this
      ensures Valid() && last == now && accepted == old(accepted) && hits == Swept(old(hits), now)
      ensures forall k :: k in hits <==> k in old(hits) && now < old(hits)[k].resetAt
      ensures forall k :: k in hits ==> hits[k] == old(hits)[k]
    {
      SweepKeepsTable(hits, accepted, last, now, windowMs, Max(max, 1));
      hits := DropExpired(hits, now);
      last := now;
    }
  }

  // ---- The sweep changes no answer ----

  datatype Call = Hit(key: string, at: Time) | Sweep(at: Time)

  /** The clock never goes back, starting from `now`. */
  predicate Ordered(calls: seq<Call>, now: Time) {
    calls == [] || (now <= calls[0].at && Ordered(calls[1..], calls[0].at))
  }

  /** The answers to the hits, in order. */
  function Answers(hits: map<string, Window>, calls: seq<Call>, max: int, window: int): seq<bool>
    decreases calls
  {
    if calls == [] then []
    else match calls[0]
      case Hit(key, at) =>
        var entry := Entry(hits, key);
        [Admits(entry, at, max)] + Answers(hits[key := AfterHit(entry, at, max, window)], calls[1..], max, window)
      case Sweep(at) => Answers(Swept(hits, at), calls[1..], max, window)
  }

  function WithoutSweeps(calls: seq<Call>): seq<Call> {
    if calls == [] then []
    else (if calls[0].Hit? then [calls[0]] else []) + WithoutSweeps(calls[1..])
  }

  /** Two tables that no hit from `now` on can tell apart. */
  ghost predicate Alike(a: map<string, Window>, b: map<string, Window>, now: Time) {
    forall k :: SameFor(Entry(a, k), Entry(b, k), now)
  }

  predicate SameFor(a: Option<Window>, b: Option<Window>, now: Time) {
    a == b || (Expired(a, now) && Expired(b, now))
  }

  lemma {:induction false} AlikeAnswers(a: map<string, Window>, b: map<string, Window>, calls: seq<Call>, now: Time,
                                        max: int, window: int)
    requires Alike(a, b, now) && Ordered(calls, now)
    ensures Answers(a, calls, max, window) == Answers(b, WithoutSweeps(calls), max, window)
    decreases calls
  {
    if calls != [] {
      var at := calls[0].at;
      forall k
        ensures SameFor(Entry(a, k), Entry(b, k), at) && SameFor(Entry(Swept(a, at), k), Entry(b, k), at)
      {
        assert SameFor(Entry(a, k), Entry(b, k), now);
      }
      match calls[0]
      case Hit(key, _) =>
        var a' := a[key := AfterHit(Entry(a, key), at, max, window)];
        var b' := b[key := AfterHit(Entry(b, key), at, max, window)];
        forall k
          ensures SameFor(Entry(a', k), Entry(b', k), at)
        {
          assert SameFor(Entry(a, k), Entry(b, k), at);
        }
        AlikeAnswers(a', b', calls[1..], at, max, window);
        assert WithoutSweeps(calls)[1..] == WithoutSweeps(calls[1..]);
      case Sweep(_) =>
        AlikeAnswers(Swept(a, at), b, calls[1..], at, max, window);
        assert WithoutSweeps(calls) == WithoutSweeps(calls[1..]);
    }
  }

  /** However sweeps are spread over a run, every hit is answered as if there were none. */
  lemma SweepIsInvisible(hits: map<string, Window>, calls: seq<Call>, now: Time, max: int, window: int)
    requires Ordered(calls, now)
    ensures Answers(hits, calls, max, window) == Answers(hits, WithoutSweeps(calls), max, window)
  {
    forall k
      ensures SameFor(Entry(hits, k), Entry(hits, k), now)
    {
    }
    AlikeAnswers(hits, hits, calls, now, max, window);
  }

  // ---- The contract's limiter ----

  datatype Status = Status(count: u32, lastOpTime: u64)

  const NO_STATUS := Status(0, 0)

  /** The window's end saturates at the last clock value. */
  predicate WindowOver(st: Status, now: u64, window: u64) {
    Min(st.lastOpTime + window, U64_MAX) <= now
  }

  /** One call of an ordinary address: the new status, and whether it is within the limit. */
  function Checked(st: Status, now: u64, maxOps: u32, window: u64): (Status, bool) {
    if WindowOver(st, now, window) then (Status(1, now), true)
    else if st.count >= maxOps then (st, false)
    else (Status(st.count + 1, st.lastOpTime), true)
  }

  class ContractLimiter {
    const admin: string
    const maxOps: u32
    const windowSecs: u64
    var statuses: map<string, Status>

    constructor (admin: string, maxOps: u32, windowSecs: u64)
      ensures this.admin == admin && this.maxOps == maxOps && this.windowSecs == windowSecs && statuses == map[]
    {
      this.admin, this.maxOps, this.windowSecs := admin, maxOps, windowSecs;
      statuses := map[];
    }

    method CheckRateLimit(address: string, now: u64) returns (r: Result<(), ContractError>)
      modifies this
      ensures address == admin ==> r.Ok? && statuses == old(statuses)
      ensures address != admin ==>
                var st := if address in old(statuses) then old(statuses)[address] else NO_STATUS;
                var after := Checked(st, now, maxOps, windowSecs);
                && r == (if after.1 then Ok(()) else Err(RateLimitExceeded))
                && statuses == if after.1 then old(statuses)[address := after.0] else old(statuses)
    {
      if address == admin {
        return Ok(());
      }
      var st := if address in statuses then statuses[address] else NO_STATUS;
      if now >= Min(st.lastOpTime + windowSecs, U64_MAX) {
        st := Status(1, now);
      } else if st.count >= maxOps {
        return Err(RateLimitExceeded);
      } else {
        st := st.(count := st.count + 1);
      }
      statuses := statuses[address := st];
      return Ok(());
    }
  }

  predicate Monotone(times: seq<u64>) {
    forall i, j :: 0 <= i <= j < |times| ==> times[i] <= times[j]
  }

  /** The status of one address after a run of its calls, and the accepted ones. */
  function CheckedAll(times: seq<u64>, maxOps: u32, window: u64): (Status, seq<Time>) {
    if times == [] then (NO_STATUS, [])
    else
      var before := CheckedAll(times[..|times| - 1], maxOps, window);
      var now := times[|times| - 1];
      var after := Checked(before.0, now, maxOps, window);
      (after.0, before.1 + if after.1 then [now] else [])
  }

  lemma {:induction false} ContractTrack(times: seq<u64>, maxOps: u32, window: u64)
    requires Monotone(times) && (times != [] ==> times[|times| - 1] < U64_MAX)
    ensures var run := CheckedAll(times, maxOps, window);
            && TrackOk(Track(run.0.lastOpTime, run.1), run.0.count, window, Max(maxOps, 1))
            && (times != [] ==> run.0.lastOpTime <= times[|times| - 1])
            && (times == [] ==> run.0.lastOpTime == 0)
  {
    if times == [] {
      NoHits(0, window, Max(maxOps, 1));
    } else {
      var earlier, now := times[..|times| - 1], times[|times| - 1];
      ContractTrack(earlier, maxOps, window);
      CheckKeepsTrack(CheckedAll(earlier, maxOps, window), now, maxOps, window);
    }
  }

  /** The stored count is the number of calls accepted since the window was opened, and none is later than `last`. */
  ghost predicate CountsSince(st: Status, log: seq<Time>, last: Time) {
    && (forall i :: 0 <= i < |log| ==> log[i] <= last)
    && forall end :: st.lastOpTime <= end && last < end ==> CountIs(log, st.lastOpTime, end, st.count)
  }

  predicate CountIs(log: seq<Time>, from: Time, to: Time, n: int) {
    Count(log, from, to) == n
  }

  lemma CheckKeepsCount(st: Status, log: seq<Time>, last: Time, now: u64, maxOps: u32, window: u64)
    requires CountsSince(st, log, last) && last <= now < U64_MAX && 0 < window && st.lastOpTime <= now
    requires forall i :: 0 <= i < |log| ==> log[i] < st.lastOpTime + window
    ensures var after := Checked(st, now, maxOps, window);
            CountsSince(after.0, log + if after.1 then [now] else [], now)
  {
    var after := Checked(st, now, maxOps, window);
    var log' := log + if after.1 then [now] else [];
    forall end | after.0.lastOpTime <= end && now < end
      ensures CountIs(log', after.0.lastOpTime, end, after.0.count)
    {
      assert CountIs(log, st.lastOpTime, end, st.count);
      CountAppend(log, now, after.0.lastOpTime, end);
      if WindowOver(st, now, window) {
        CountBeyond(log, now, end);
      }
      assert log + [] == log;
    }
  }

  lemma {:induction false} ContractCount(times: seq<u64>, maxOps: u32, window: u64)
    requires Monotone(times) && 0 < window && (times != [] ==> times[|times| - 1] < U64_MAX)
    ensures var run := CheckedAll(times, maxOps, window);
            CountsSince(run.0, run.1, if times == [] then 0 else times[|times| - 1])
  {
    if times != [] {
      var earlier, now := times[..|times| - 1], times[|times| - 1];
      ContractCount(earlier, maxOps, window);
      ContractTrack(earlier, maxOps, window);
      var before := CheckedAll(earlier, maxOps, window);
      CheckKeepsCount(before.0, before.1, if earlier == [] then 0 else earlier[|earlier| - 1], now, maxOps, window);
    }
  }

  /** A call is refused exactly in an open window in which the allowed number was accepted. */
  lemma ContractAdmitsIff(times: seq<u64>, maxOps: u32, window: u64)
    requires Monotone(times) && times != [] && times[|times| - 1] < U64_MAX
    ensures var before := CheckedAll(times[..|times| - 1], maxOps, window);
            var now := times[|times| - 1];
            Checked(before.0, now, maxOps, window).1 <==>
              before.0.lastOpTime + window <= now || Count(before.1, before.0.lastOpTime, now + 1) < maxOps
  {
    var earlier, now := times[..|times| - 1], times[|times| - 1];
    ContractTrack(earlier, maxOps, window);
    if 0 < window {
      ContractCount(earlier, maxOps, window);
      var before := CheckedAll(earlier, maxOps, window);
      assert CountIs(before.1, before.0.lastOpTime, now + 1, before.0.count);
    }
  }

  lemma CheckKeepsTrack(before: (Status, seq<Time>), now: u64, maxOps: u32, window: u64)
    requires TrackOk(Track(before.0.lastOpTime, before.1), before.0.count, window, Max(maxOps, 1))
    requires before.0.lastOpTime <= now < U64_MAX
    ensures var after := Checked(before.0, now, maxOps, window);
            && TrackOk(Track(after.0.lastOpTime, before.1 + if after.1 then [now] else []), after.0.count, window,
                       Max(maxOps, 1))
            && after.0.lastOpTime <= now
  {
    var tr := Track(before.0.lastOpTime, before.1);
    if WindowOver(before.0, now, window) {
      HitFresh(tr, before.0.count, now, window, Max(maxOps, 1));
    } else if before.0.count < maxOps {
      HitInside(tr, before.0.count, now, window, Max(maxOps, 1));
    } else {
      assert before.1 + [] == before.1;
    }
  }

  /** At the last clock value every window is over, so every call is accepted. */
  lemma {:induction false} AllAcceptedAtTheEnd(n: nat, maxOps: u32, window: u64)
    ensures CheckedAll(seq(n, _ => U64_MAX), maxOps, window).1 == seq(n, _ => U64_MAX)
    ensures 0 < window ==> Count(seq(n, _ => U64_MAX), U64_MAX, U64_MAX + window) == n
  {
    if n > 0 {
      var times: seq<u64> := seq(n, _ => U64_MAX);
      AllAcceptedAtTheEnd(n - 1, maxOps, window);
      assert times[..n - 1] == seq(n - 1, _ => U64_MAX);
    }
  }

  /** The bound holds in every run of clocks up to `end` exactly when `end` is before the last clock value. */
  lemma ContractBoundIff(end: u64, maxOps: u32, window: u64)
    ensures end < U64_MAX || window == 0 <==>
            forall times: seq<u64> :: Monotone(times) && (forall i :: 0 <= i < |times| ==> times[i] <= end) ==>
                                      Bounded(CheckedAll(times, maxOps, window).1, window, Max(maxOps, 1))
  {
    var cap := Max(maxOps, 1);
    if window == 0 {
      forall times: seq<u64>, t: Time
        ensures WithinBound(CheckedAll(times, maxOps, window).1, t, window, cap)
      {
        CountEmpty(CheckedAll(times, maxOps, window).1, t, t + window);
      }
    } else if end < U64_MAX {
      forall times: seq<u64> | Monotone(times) && (forall i :: 0 <= i < |times| ==> times[i] <= end)
        ensures Bounded(CheckedAll(times, maxOps, window).1, window, cap)
      {
        ContractTrack(times, maxOps, window);
      }
    } else {
      var times: seq<u64> := seq(2 * cap + 1, _ => U64_MAX);
      AllAcceptedAtTheEnd(2 * cap + 1, maxOps, window);
      assert !WithinBound(CheckedAll(times, maxOps, window).1, U64_MAX, window, cap);
    }
  }
}
