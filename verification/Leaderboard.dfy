/** The capped creator rankings: a sorted cache of 50 entries that agrees with the full ranking. */
module Leaderboard {
  import opened Prelude

  const MAX_SIZE := 50

  type Address = string

  datatype Entry = Entry(address: Address, username: string, amount: int, creditScore: nat)

  datatype Profile = Profile(owner: Address, username: string, totalTipsReceived: int, creditScore: nat)

  function Ranked(p: Profile, amount: int): Entry {
    Entry(p.owner, p.username, amount, p.creditScore)
  }

  /** `x` may stand above `y`: another creator, and no smaller an amount. */
  predicate MayPrecede(x: Entry, y: Entry) {
    x.address != y.address && x.amount >= y.amount
  }

  /** Distinct addresses, descending amounts. */
  ghost predicate Sorted(s: seq<Entry>) {
    forall i, j :: 0 <= i < j < |s| ==> MayPrecede(s[i], s[j])
  }

  ghost predicate BoardOk(s: seq<Entry>) {
    Sorted(s) && |s| <= 50
  }

  // ---- The specification: an unbounded ranking, and its first entries ----

  function Without(s: seq<Entry>, a: Address): seq<Entry> {
    if s == [] then []
    else (if s[0].address == a then [] else [s[0]]) + Without(s[1..], a)
  }

  /** Places `e` behind every entry with at least its amount. */
  function Insert(s: seq<Entry>, e: Entry): seq<Entry> {
    if s == [] || s[0].amount < e.amount then [e] + s
    else [s[0]] + Insert(s[1..], e)
  }

  /** The full ranking after the creator of `e` moved to the amount of `e`. */
  function Moved(s: seq<Entry>, e: Entry): seq<Entry> {
    Insert(Without(s, e.address), e)
  }

  function Take(k: nat, s: seq<Entry>): seq<Entry> {
    if |s| <= k then s else s[..k]
  }

  /** A capped board after the same move: trimmed, moved, trimmed. */
  function Updated(board: seq<Entry>, e: Entry): seq<Entry> {
    Take(MAX_SIZE, Moved(Take(MAX_SIZE, board), e))
  }

  lemma {:induction false} WithoutMembers(s: seq<Entry>, a: Address)
    ensures |Without(s, a)| <= |s|
    ensures forall e :: e in Without(s, a) <==> e in s && e.address != a
  {
    if s != [] {
      WithoutMembers(s[1..], a);
      assert s == [s[0]] + s[1..];
    }
  }

  lemma {:induction false} WithoutSorted(s: seq<Entry>, a: Address)
    requires Sorted(s)
    ensures Sorted(Without(s, a))
  {
    if s != [] {
      WithoutSorted(s[1..], a);
      WithoutMembers(s[1..], a);
      Prepend(s[0], Without(s[1..], a));
    }
  }

  lemma Prepend(e: Entry, s: seq<Entry>)
    requires Sorted(s)
    requires forall x :: x in s ==> MayPrecede(e, x)
    ensures Sorted([e] + s)
  {
  }

  lemma {:induction false} WithoutAt(s: seq<Entry>, i: nat)
    requires Sorted(s) && i < |s|
    ensures Without(s, s[i].address) == s[..i] + s[i + 1..]
  {
    if i == 0 {
      WithoutAbsent(s[1..], s[0].address);
    } else {
      WithoutAt(s[1..], i - 1);
      assert s[..i] == [s[0]] + s[1..][..i - 1];
    }
  }

  lemma {:induction false} WithoutAbsent(s: seq<Entry>, a: Address)
    requires forall i :: 0 <= i < |s| ==> s[i].address != a
    ensures Without(s, a) == s
  {
    if s != [] {
      WithoutAbsent(s[1..], a);
    }
  }

  lemma {:induction false} InsertAt(s: seq<Entry>, e: Entry, p: nat)
    requires p <= |s|
    requires forall i :: 0 <= i < p ==> s[i].amount >= e.amount
    requires p < |s| ==> s[p].amount < e.amount
    ensures Insert(s, e) == s[..p] + [e] + s[p..]
  {
    if p > 0 {
      InsertAt(s[1..], e, p - 1);
      assert s[..p] == [s[0]] + s[1..][..p - 1];
    }
  }

  /** The amount's position in a descending list, as the binary search finds it. */
  ghost predicate InsertionPoint(s: seq<Entry>, amount: int, p: int) {
    && 0 <= p <= |s|
    && (forall i :: 0 <= i < p ==> s[i].amount >= amount)
    && (forall i :: p <= i < |s| ==> s[i].amount < amount)
  }

  lemma {:induction false} InsertMembers(s: seq<Entry>, e: Entry)
    ensures |Insert(s, e)| == |s| + 1
    ensures forall x :: x in Insert(s, e) <==> x == e || x in s
  {
    if s != [] {
      InsertMembers(s[1..], e);
      assert s == [s[0]] + s[1..];
    }
  }

  lemma {:induction false} InsertSorted(s: seq<Entry>, e: Entry)
    requires Sorted(s) && forall x :: x in s ==> x.address != e.address
    ensures Sorted(Insert(s, e))
  {
    if s == [] {
    } else if s[0].amount < e.amount {
      forall x | x in s
        ensures MayPrecede(e, x)
      {
        var j :| 0 <= j < |s| && s[j] == x;
        assert j > 0 ==> MayPrecede(s[0], s[j]);
      }
      Prepend(e, s);
    } else {
      InsertSorted(s[1..], e);
      InsertMembers(s[1..], e);
      assert s[0] in s;
      Prepend(s[0], Insert(s[1..], e));
    }
  }

  /** Moving one creator keeps a ranking distinct and descending, cut off or not. */
  lemma MovedSorted(s: seq<Entry>, e: Entry, k: nat)
    requires Sorted(s)
    ensures Sorted(Moved(s, e)) && Sorted(Take(k, Moved(s, e))) && |Take(k, Moved(s, e))| <= k
  {
    WithoutMembers(s, e.address);
    WithoutSorted(s, e.address);
    InsertSorted(Without(s, e.address), e);
  }

  lemma MovedMembers(s: seq<Entry>, e: Entry, k: nat)
    ensures forall x :: x in Moved(s, e) <==> x == e || (x in s && x.address != e.address)
    ensures forall x :: x in Take(k, Moved(s, e)) ==> x == e || (x in s && x.address != e.address)
  {
    WithoutMembers(s, e.address);
    InsertMembers(Without(s, e.address), e);
  }

  /** Removing one creator from the first `k` entries agrees, up to the freed slot, with removing it from all. */
  lemma {:induction false} TakeWithout(k: nat, s: seq<Entry>, a: Address)
    requires Sorted(s) && 0 < k
    ensures Take(k - 1, Without(s, a)) == Take(k - 1, Without(Take(k, s), a))
  {
    if s != [] {
      TakeCons(k, s);
      var t := Take(k, s);
      assert t[1..] == Take(k - 1, s[1..]);
      if s[0].address == a {
        WithoutAbsent(s[1..], a);
        WithoutAbsent(t[1..], a);
      } else if k > 1 {
        TakeWithout(k - 1, s[1..], a);
        TakeCons(k - 1, Without(s, a));
        TakeCons(k - 1, Without(t, a));
      }
    }
  }

  lemma TakeCons(k: nat, s: seq<Entry>)
    requires 0 < k && s != []
    ensures Take(k, s) == [s[0]] + Take(k - 1, s[1..])
  {
  }

  /**
   * The fast form refines the simple one: cutting the ranking to `k` entries before a move that raises a
   * creator's amount loses nothing that the cut-off ranking needs afterwards.
   */
  lemma {:induction false} TakeMoved(k: nat, s: seq<Entry>, e: Entry)
    requires Sorted(s)
    requires forall x :: x in s && x.address == e.address ==> x.amount < e.amount
    ensures Take(k, Moved(Take(k, s), e)) == Take(k, Moved(s, e))
  {
    if k > 0 && s != [] {
      TakeCons(k, s);
      var t := Take(k, s);
      assert t[1..] == Take(k - 1, s[1..]);
      assert s[0] in s;
      if s[0].address != e.address && s[0].amount >= e.amount {
        assert Sorted(s[1..]) && forall x :: x in s[1..] ==> x in s;
        TakeMoved(k - 1, s[1..], e);
        MoveBehind(s, e);
        MoveBehind(t, e);
        TakeCons(k, Moved(s, e));
        TakeCons(k, Moved(t, e));
      } else {
        MoveToFront(s, e);
        MoveToFront(t, e);
        TakeWithout(k, s, e.address);
        TakeCons(k, Moved(s, e));
        TakeCons(k, Moved(t, e));
      }
    }
  }

  lemma MoveBehind(s: seq<Entry>, e: Entry)
    requires s != [] && s[0].address != e.address && s[0].amount >= e.amount
    ensures Moved(s, e) == [s[0]] + Moved(s[1..], e)
  {
  }

  lemma MoveToFront(s: seq<Entry>, e: Entry)
    requires Sorted(s) && s != [] && s[0].amount < e.amount
    ensures Moved(s, e) == [e] + Without(s, e.address)
  {
  }

  // ---- Runs of tips only ----

  /** A tip that reached a creator, with the creator's profile data at that time. */
  datatype Tip = Tip(to: Address, username: string, creditScore: nat, amount: nat)

  function Last(tips: seq<Tip>): Tip
    requires tips != []
  {
    tips[|tips| - 1]
  }

  function Total(tips: seq<Tip>, a: Address): nat {
    if tips == [] then 0
    else Total(tips[..|tips| - 1], a) + if Last(tips).to == a then Last(tips).amount else 0
  }

  /** How many tips had arrived when the creator reached the present total; 0 if no tip ever did. */
  function ReachedAt(tips: seq<Tip>, a: Address): nat {
    if tips == [] then 0
    else if Last(tips).to == a then |tips|
    else ReachedAt(tips[..|tips| - 1], a)
  }

  function EntryAfter(tips: seq<Tip>): Entry
    requires tips != []
  {
    var t := Last(tips);
    Entry(t.to, t.username, Total(tips, t.to), t.creditScore)
  }

  /** The all-time board after a run of tips, as the contract keeps it. */
  function Board(tips: seq<Tip>): seq<Entry> {
    if tips == [] then []
    else Updated(Board(tips[..|tips| - 1]), EntryAfter(tips))
  }

  /** The ranking of all creators after a run of tips. */
  function Ranking(tips: seq<Tip>): seq<Entry> {
    if tips == [] then []
    else Moved(Ranking(tips[..|tips| - 1]), EntryAfter(tips))
  }

  predicate Above(tips: seq<Tip>, x: Entry, y: Entry) {
    || x.amount > y.amount
    || (x.amount == y.amount && ReachedAt(tips, x.address) < ReachedAt(tips, y.address))
  }

  predicate Listed(s: seq<Entry>, a: Address) {
    exists e :: e in s && e.address == a
  }

  /** Every tipped creator once, with the exact total, larger totals first, ties by who got there first. */
  ghost predicate Faithful(tips: seq<Tip>, s: seq<Entry>) {
    && Sorted(s)
    && (forall e :: e in s ==> e.amount == Total(tips, e.address) && 0 < ReachedAt(tips, e.address))
    && (forall a :: 0 < ReachedAt(tips, a) ==> Listed(s, a))
    && Ordered(tips, s)
  }

  ghost predicate Ordered(tips: seq<Tip>, s: seq<Entry>) {
    forall i, j :: 0 <= i < j < |s| ==> Above(tips, s[i], s[j])
  }

  ghost predicate Positive(tips: seq<Tip>) {
    forall i :: 0 <= i < |tips| ==> 0 < tips[i].amount
  }

  lemma {:induction false} ReachedBound(tips: seq<Tip>, a: Address)
    ensures ReachedAt(tips, a) <= |tips|
    ensures Positive(tips) ==> (0 < ReachedAt(tips, a) <==> 0 < Total(tips, a))
  {
    if tips != [] {
      ReachedBound(tips[..|tips| - 1], a);
    }
  }

  lemma {:induction false} RankingFaithful(tips: seq<Tip>)
    requires Positive(tips)
    ensures Faithful(tips, Ranking(tips))
  {
    if tips != [] {
      var prev := tips[..|tips| - 1];
      RankingFaithful(prev);
      var s, e := Ranking(prev), EntryAfter(tips);
      MovedSorted(s, e, 0);
      MovedMembers(s, e, 0);
      forall a | 0 < ReachedAt(tips, a)
        ensures Listed(Ranking(tips), a)
      {
        if a == e.address {
          assert e in Ranking(tips);
        } else {
          assert Listed(s, a);
          var x :| x in s && x.address == a;
          assert x in Ranking(tips);
        }
      }
      RankingOrdered(tips, s);
    }
  }

  /** The moved creator goes behind its ties, and the others keep their order. */
  lemma RankingOrdered(tips: seq<Tip>, s: seq<Entry>)
    requires Positive(tips) && tips != [] && Faithful(tips[..|tips| - 1], s)
    ensures Ordered(tips, Moved(s, EntryAfter(tips)))
  {
    var prev, e := tips[..|tips| - 1], EntryAfter(tips);
    var w := Without(s, e.address);
    WithoutMembers(s, e.address);
    WithoutKeepsOrder(prev, s, e.address);
    InsertKeepsOrder(tips, w, e);
  }

  lemma {:induction false} InsertKeepsOrder(tips: seq<Tip>, w: seq<Entry>, e: Entry)
    requires tips != [] && e == EntryAfter(tips)
    requires Ordered(tips[..|tips| - 1], w) && forall x :: x in w ==> x.address != e.address
    ensures Ordered(tips, Insert(w, e))
  {
    if w != [] {
      assert w[0] in w;
      forall j | 0 < j < |w|
        ensures Above(tips, w[0], w[j])
      {
        assert Above(tips[..|tips| - 1], w[0], w[j]) && w[j] in w;
      }
      if w[0].amount >= e.amount {
        InsertKeepsOrder(tips, w[1..], e);
        InsertMembers(w[1..], e);
        var r := Insert(w[1..], e);
        ReachedBound(tips[..|tips| - 1], w[0].address);
        forall j | 0 <= j < |r|
          ensures Above(tips, w[0], r[j])
        {
          assert r[j] in r;
          if r[j] != e {
            var m :| 0 <= m < |w[1..]| && w[1..][m] == r[j];
            assert w[m + 1] == r[j];
          }
        }
      } else {
        OrderedLater(tips, w);
        forall j | 0 <= j < |w|
          ensures Above(tips, e, w[j])
        {
          assert j > 0 ==> Above(tips, w[0], w[j]);
        }
      }
    }
  }

  lemma OrderedLater(tips: seq<Tip>, w: seq<Entry>)
    requires tips != [] && Ordered(tips[..|tips| - 1], w) && forall x :: x in w ==> x.address != Last(tips).to
    ensures Ordered(tips, w)
  {
  }

  lemma {:induction false} WithoutKeepsOrder(tips: seq<Tip>, s: seq<Entry>, a: Address)
    requires Ordered(tips, s)
    ensures Ordered(tips, Without(s, a))
  {
    if s != [] {
      WithoutKeepsOrder(tips, s[1..], a);
      WithoutMembers(s[1..], a);
      var w := Without(s[1..], a);
      forall j | 0 <= j < |w|
        ensures Above(tips, s[0], w[j])
      {
        assert w[j] in s[1..];
        var m :| 0 <= m < |s[1..]| && s[1..][m] == w[j];
        assert s[m + 1] == w[j];
      }
    }
  }

  /** In every run of tips only, the all-time board is the first 50 entries of the ranking of all creators. */
  lemma {:induction false} BoardIsTopOfRanking(tips: seq<Tip>)
    requires Positive(tips)
    ensures Faithful(tips, Ranking(tips))
    ensures Board(tips) == Take(MAX_SIZE, Ranking(tips)) && BoardOk(Board(tips))
  {
    hide Ordered, Above, ReachedAt;
    RankingFaithful(tips);
    if tips != [] {
      var prev := tips[..|tips| - 1];
      BoardIsTopOfRanking(prev);
      RankingFaithful(prev);
      TakeMoved(MAX_SIZE, Ranking(prev), EntryAfter(tips));
    }
  }

  /** A creator left out is behind all 50 kept: no larger total, and at equal totals it got there later. */
  lemma LeftOutIsBehind(tips: seq<Tip>, a: Address, i: nat)
    requires Positive(tips) && 0 < ReachedAt(tips, a) && i < |Board(tips)|
    requires !Listed(Board(tips), a)
    ensures |Board(tips)| == 50
    ensures Board(tips)[i].amount == Total(tips, Board(tips)[i].address)
    ensures var kept := Board(tips)[i];
            || Total(tips, a) < kept.amount
            || (Total(tips, a) == kept.amount && ReachedAt(tips, kept.address) < ReachedAt(tips, a))
  {
    BoardIsTopOfRanking(tips);
    var r := Ranking(tips);
    assert Listed(r, a);
    var e :| e in r && e.address == a;
    var j :| 0 <= j < |r| && r[j] == e;
    assert e !in Take(MAX_SIZE, r);
    assert MAX_SIZE <= j;
    assert Board(tips)[i] == r[i] && r[i] in r;
    assert Above(tips, r[i], r[j]);
  }

  // ---- The contract's boards ----

  datatype Period = AllTime | Monthly | Weekly

  datatype Volumes = Volumes(monthlyStartAt: nat, monthly: i128, weeklyStartAt: nat, weekly: i128)

  /** The monthly volumes that belong to the running period. */
  function CurrentMonthly(volumes: map<Address, Volumes>, resetAt: nat): map<Address, int> {
    map a | a in volumes && volumes[a].monthlyStartAt == resetAt :: volumes[a].monthly
  }

  function CurrentWeekly(volumes: map<Address, Volumes>, resetAt: nat): map<Address, int> {
    map a | a in volumes && volumes[a].weeklyStartAt == resetAt :: volumes[a].weekly
  }

  lemma CurrentAfter(volumes: map<Address, Volumes>, a: Address, v: Volumes)
    ensures CurrentMonthly(volumes[a := v], v.monthlyStartAt)
            == CurrentMonthly(volumes, v.monthlyStartAt)[a := v.monthly]
    ensures CurrentWeekly(volumes[a := v], v.weeklyStartAt)
            == CurrentWeekly(volumes, v.weeklyStartAt)[a := v.weekly]
  {
  }

  ghost predicate Shows(board: seq<Entry>, amounts: map<Address, int>) {
    forall e :: e in board ==> e.address in amounts && e.amount == amounts[e.address]
  }

  lemma UpdatedOk(board: seq<Entry>, e: Entry, amounts: map<Address, int>)
    requires Sorted(board) && Shows(board, amounts)
    ensures BoardOk(Updated(board, e)) && Shows(Updated(board, e), amounts[e.address := e.amount])
  {
    var t := Take(MAX_SIZE, board);
    MovedSorted(t, e, MAX_SIZE);
    MovedMembers(t, e, MAX_SIZE);
  }

  lemma WithoutOk(board: seq<Entry>, a: Address, amounts: map<Address, int>)
    requires BoardOk(board) && Shows(board, amounts)
    ensures BoardOk(Without(board, a)) && Shows(Without(board, a), amounts)
  {
    WithoutMembers(board, a);
    WithoutSorted(board, a);
  }

  function SaturatingAdd(a: i128, b: int): (sum: i128)
    ensures I128_MIN <= a + b <= I128_MAX ==> sum == a + b
    ensures a + b < I128_MIN ==> sum == I128_MIN
    ensures I128_MAX < a + b ==> sum == I128_MAX
  {
    Max(I128_MIN, Min(I128_MAX, a + b))
  }

  /** The three boards and the start of the running periods, stored as one record. */
  datatype BoardSet = BoardSet(allTime: seq<Entry>, monthly: seq<Entry>, weekly: seq<Entry>,
                               monthlyResetAt: nat, weeklyResetAt: nat)

  /** Each board is sorted, distinct and capped, and shows no stale amount. */
  ghost predicate SetOk(b: BoardSet, volumes: map<Address, Volumes>, latest: map<Address, int>) {
    && BoardOk(b.allTime) && Shows(b.allTime, latest)
    && BoardOk(b.monthly) && Shows(b.monthly, CurrentMonthly(volumes, b.monthlyResetAt))
    && BoardOk(b.weekly) && Shows(b.weekly, CurrentWeekly(volumes, b.weeklyResetAt))
  }

  lemma SetIsSorted(b: BoardSet, volumes: map<Address, Volumes>, latest: map<Address, int>)
    requires SetOk(b, volumes, latest)
    ensures Sorted(b.allTime) && Sorted(b.monthly) && Sorted(b.weekly)
  {
  }

  /** The boards after a creator's lifetime total and period volumes changed. */
  function SetAfter(b: BoardSet, p: Profile, v: Volumes): BoardSet {
    b.(allTime := Updated(b.allTime, Ranked(p, p.totalTipsReceived)),
       monthly := Updated(b.monthly, Ranked(p, v.monthly)),
       weekly := Updated(b.weekly, Ranked(p, v.weekly)))
  }

  /** The boards without one creator, everything else in place. */
  function Delisted(b: BoardSet, a: Address): BoardSet {
    b.(allTime := Without(b.allTime, a), monthly := Without(b.monthly, a), weekly := Without(b.weekly, a))
  }

  lemma SetAfterOk(b: BoardSet, volumes: map<Address, Volumes>, latest: map<Address, int>, p: Profile, v: Volumes)
    requires SetOk(b, volumes, latest)
    requires v.monthlyStartAt == b.monthlyResetAt && v.weeklyStartAt == b.weeklyResetAt
    ensures SetOk(SetAfter(b, p, v), volumes[p.owner := v], latest[p.owner := p.totalTipsReceived])
  {
    UpdatedOk(b.allTime, Ranked(p, p.totalTipsReceived), latest);
    UpdatedOk(b.monthly, Ranked(p, v.monthly), CurrentMonthly(volumes, b.monthlyResetAt));
    UpdatedOk(b.weekly, Ranked(p, v.weekly), CurrentWeekly(volumes, b.weeklyResetAt));
    CurrentAfter(volumes, p.owner, v);
  }

  /** A creator's period volumes after `amount`, restarted when a period has been reset in between. */
  function VolumesAfter(volumes: map<Address, Volumes>, a: Address, b: BoardSet, amount: int): Volumes {
    var month := CurrentMonthly(volumes, b.monthlyResetAt);
    var week := CurrentWeekly(volumes, b.weeklyResetAt);
    Volumes(b.monthlyResetAt, SaturatingAdd(if a in month then month[a] else 0, amount),
            b.weeklyResetAt, SaturatingAdd(if a in week then week[a] else 0, amount))
  }

  /** A tip booked on the contract's boards is the next step of the run that `Board` describes. */
  lemma TipIsNextStep(b: BoardSet, tips: seq<Tip>, t: Tip, v: Volumes)
    requires b.allTime == Board(tips)
    ensures SetAfter(b, Profile(t.to, t.username, Total(tips, t.to) + t.amount, t.creditScore), v).allTime
            == Board(tips + [t])
  {
    hide Updated;
    assert (tips + [t])[..|tips|] == tips && Last(tips + [t]) == t;
  }

  // ---- Period volumes over a run ----

  /** What the volumes of a run are made of: amounts booked for creators, and resets of a period. */
  datatype Step = Booked(creator: Address, amount: int) | Restarted(period: Period, at: nat)

  /** When the running period began; 0 before any reset. */
  function StartOf(steps: seq<Step>, p: Period): nat {
    if steps == [] then 0
    else
      var last := steps[|steps| - 1];
      if last.Restarted? && last.period == p then last.at else StartOf(steps[..|steps| - 1], p)
  }

  /** A reset that comes later than the start of the period it ends; one in the same second ends nothing. */
  predicate Ends(steps: seq<Step>, last: Step, p: Period) {
    last.Restarted? && last.period == p && StartOf(steps, p) < last.at
  }

  /** Everything booked for a creator since the period began, refunds being negative. */
  function SumSince(steps: seq<Step>, a: Address, p: Period): int {
    if steps == [] then 0
    else
      var front, last := steps[..|steps| - 1], steps[|steps| - 1];
      if Ends(front, last, p) then 0
      else SumSince(front, a, p) + if last.Booked? && last.creator == a then last.amount else 0
  }

  /** No sum since the period began has left the range of an i128. */
  predicate InRange(steps: seq<Step>, a: Address, p: Period) {
    steps == []
    || var front, last := steps[..|steps| - 1], steps[|steps| - 1];
       Ends(front, last, p) || (InRange(front, a, p) && I128_MIN <= SumSince(steps, a, p) <= I128_MAX)
  }

  /** A creator's volume in the running period. */
  function Current(volumes: map<Address, Volumes>, b: BoardSet, a: Address, p: Period): int {
    if a !in volumes then 0
    else
      match p
      case AllTime => 0
      case Monthly => if volumes[a].monthlyStartAt == b.monthlyResetAt then volumes[a].monthly else 0
      case Weekly => if volumes[a].weeklyStartAt == b.weeklyResetAt then volumes[a].weekly else 0
  }

  predicate VolumeOk(volumes: map<Address, Volumes>, b: BoardSet, steps: seq<Step>, a: Address, p: Period) {
    InRange(steps, a, p) ==> Current(volumes, b, a, p) == SumSince(steps, a, p)
  }

  predicate StartsOk(volumes: map<Address, Volumes>, b: BoardSet, steps: seq<Step>) {
    && StartOf(steps, Monthly) == b.monthlyResetAt && StartOf(steps, Weekly) == b.weeklyResetAt
    && forall a :: a in volumes ==>
         volumes[a].monthlyStartAt <= b.monthlyResetAt && volumes[a].weeklyStartAt <= b.weeklyResetAt
  }

  /** While nothing saturates, each creator's volume is the sum of what was booked since the period began. */
  ghost predicate VolumesOk(volumes: map<Address, Volumes>, b: BoardSet, steps: seq<Step>) {
    && StartsOk(volumes, b, steps)
    && forall a :: SumsOk(volumes, b, steps, a)
  }

  predicate SumsOk(volumes: map<Address, Volumes>, b: BoardSet, steps: seq<Step>, a: Address) {
    VolumeOk(volumes, b, steps, a, Monthly) && VolumeOk(volumes, b, steps, a, Weekly)
  }

  lemma CurrentBooked(volumes: map<Address, Volumes>, b: BoardSet, a: Address, amount: int, x: Address, p: Period)
    requires !p.AllTime?
    ensures var after := volumes[a := VolumesAfter(volumes, a, b, amount)];
            Current(after, b, x, p) == if x == a then SaturatingAdd(Current(volumes, b, a, p), amount)
                                       else Current(volumes, b, x, p)
  {
  }

  lemma SumBooked(steps: seq<Step>, a: Address, amount: int, x: Address, p: Period)
    ensures var after := steps + [Booked(a, amount)];
            && SumSince(after, x, p) == SumSince(steps, x, p) + (if x == a then amount else 0)
            && (InRange(after, x, p) ==> InRange(steps, x, p) && I128_MIN <= SumSince(after, x, p) <= I128_MAX)
            && StartOf(after, p) == StartOf(steps, p)
  {
    assert (steps + [Booked(a, amount)])[..|steps|] == steps;
  }

  lemma BookedKeepsSum(volumes: map<Address, Volumes>, b: BoardSet, steps: seq<Step>, a: Address, amount: int,
                       x: Address, p: Period)
    requires !p.AllTime? && VolumeOk(volumes, b, steps, x, p)
    ensures VolumeOk(volumes[a := VolumesAfter(volumes, a, b, amount)], b, steps + [Booked(a, amount)], x, p)
  {
    CurrentBooked(volumes, b, a, amount, x, p);
    SumBooked(steps, a, amount, x, p);
    hide Current, SumSince, InRange;
  }

  /** Booking an amount adds it to the creator's sums, and to nobody else's. */
  lemma BookedKeepsSums(volumes: map<Address, Volumes>, b: BoardSet, steps: seq<Step>, a: Address, amount: int)
    requires VolumesOk(volumes, b, steps)
    ensures VolumesOk(volumes[a := VolumesAfter(volumes, a, b, amount)], b, steps + [Booked(a, amount)])
  {
    SumBooked(steps, a, amount, a, Monthly);
    SumBooked(steps, a, amount, a, Weekly);
    var after, steps' := volumes[a := VolumesAfter(volumes, a, b, amount)], steps + [Booked(a, amount)];
    forall x
      ensures SumsOk(after, b, steps', x)
    {
      assert SumsOk(volumes, b, steps, x);
      BookedKeepsSum(volumes, b, steps, a, amount, x, Monthly);
      BookedKeepsSum(volumes, b, steps, a, amount, x, Weekly);
    }
  }

  /** A reset in a later second starts every sum of its period afresh, and leaves the other period alone. */
  lemma RestartedKeepsSums(volumes: map<Address, Volumes>, b: BoardSet, steps: seq<Step>, p: Period, at: nat)
    requires VolumesOk(volumes, b, steps) && !p.AllTime? && StartOf(steps, p) <= at
    ensures VolumesOk(volumes, if p.Monthly? then b.(monthly := [], monthlyResetAt := at)
                               else b.(weekly := [], weeklyResetAt := at), steps + [Restarted(p, at)])
  {
    var steps' := steps + [Restarted(p, at)];
    var b' := if p.Monthly? then b.(monthly := [], monthlyResetAt := at) else b.(weekly := [], weeklyResetAt := at);
    assert steps'[..|steps|] == steps;
    forall x
      ensures SumsOk(volumes, b', steps', x)
    {
      assert SumsOk(volumes, b, steps, x);
    }
  }

  /** Only the boards' entries change: the sums stay. */
  lemma EntriesKeepSums(volumes: map<Address, Volumes>, b: BoardSet, b': BoardSet, steps: seq<Step>)
    requires VolumesOk(volumes, b, steps)
    requires b'.monthlyResetAt == b.monthlyResetAt && b'.weeklyResetAt == b.weeklyResetAt
    ensures VolumesOk(volumes, b', steps)
  {
    forall x
      ensures SumsOk(volumes, b', steps, x)
    {
      assert SumsOk(volumes, b, steps, x);
    }
  }

  // ---- Deactivated creators ----

  predicate Shown(b: BoardSet, a: Address) {
    Listed(b.allTime, a) || Listed(b.monthly, a) || Listed(b.weekly, a)
  }

  /** What the boards are meant to guarantee: no deactivated creator occupies a slot. */
  ghost predicate NoneShown(b: BoardSet, deactivated: set<Address>) {
    forall a :: a in deactivated ==> !Shown(b, a)
  }

  /** An amount makes it onto a board. */
  predicate Room(board: seq<Entry>, amount: int) {
    |board| < MAX_SIZE || board[MAX_SIZE - 1].amount < amount
  }

  predicate RoomFor(b: BoardSet, p: Profile, v: Volumes) {
    Room(b.allTime, p.totalTipsReceived) || Room(b.monthly, v.monthly) || Room(b.weekly, v.weekly)
  }

  /** How many entries have at least the amount. */
  function Place(s: seq<Entry>, amount: int): (p: nat)
    ensures p <= |s| && (forall i :: 0 <= i < p ==> s[i].amount >= amount) && (p < |s| ==> s[p].amount < amount)
  {
    if s == [] || s[0].amount < amount then 0 else 1 + Place(s[1..], amount)
  }

  lemma ListedIffRoom(board: seq<Entry>, e: Entry)
    requires BoardOk(board) && !Listed(board, e.address)
    ensures Listed(Updated(board, e), e.address) <==> Room(board, e.amount)
  {
    var p := Place(board, e.amount);
    WithoutAbsent(board, e.address);
    InsertAt(board, e, p);
    if Room(board, e.amount) {
      assert Updated(board, e)[p] == e;
    } else {
      forall i | 0 <= i < MAX_SIZE
        ensures board[i].amount >= e.amount
      {
        assert i < MAX_SIZE - 1 ==> MayPrecede(board[i], board[MAX_SIZE - 1]);
      }
      assert Updated(board, e) == board;
    }
  }

  lemma OthersStay(board: seq<Entry>, e: Entry, a: Address)
    requires a != e.address && !Listed(board, a)
    ensures !Listed(Updated(board, e), a)
  {
    MovedMembers(Take(MAX_SIZE, board), e, MAX_SIZE);
  }

  /** Booking a creator's change shows no deactivated creator unless it is theirs and there is room. */
  lemma ComesBackIff(b: BoardSet, deactivated: set<Address>, p: Profile, v: Volumes)
    requires BoardOk(b.allTime) && BoardOk(b.monthly) && BoardOk(b.weekly) && NoneShown(b, deactivated)
    ensures NoneShown(SetAfter(b, p, v), deactivated) <==> p.owner !in deactivated || !RoomFor(b, p, v)
  {
    forall a | a in deactivated
      ensures Shown(SetAfter(b, p, v), a) <==> a == p.owner && RoomFor(b, p, v)
    {
      if a == p.owner {
        ListedIffRoom(b.allTime, Ranked(p, p.totalTipsReceived));
        ListedIffRoom(b.monthly, Ranked(p, v.monthly));
        ListedIffRoom(b.weekly, Ranked(p, v.weekly));
      } else {
        OthersStay(b.allTime, Ranked(p, p.totalTipsReceived), a);
        OthersStay(b.monthly, Ranked(p, v.monthly), a);
        OthersStay(b.weekly, Ranked(p, v.weekly), a);
      }
    }
  }

  /** One booking: boards, sums, and who is shown. */
  lemma BookingKeepsAll(b: BoardSet, volumes: map<Address, Volumes>, latest: map<Address, int>, steps: seq<Step>,
                        deactivated: set<Address>, p: Profile, amount: int)
    requires SetOk(b, volumes, latest) && VolumesOk(volumes, b, steps)
    ensures var v := VolumesAfter(volumes, p.owner, b, amount);
            && SetOk(SetAfter(b, p, v), volumes[p.owner := v], latest[p.owner := p.totalTipsReceived])
            && VolumesOk(volumes[p.owner := v], SetAfter(b, p, v), steps + [Booked(p.owner, amount)])
            && (NoneShown(b, deactivated) ==>
                  (NoneShown(SetAfter(b, p, v), deactivated) <==> p.owner !in deactivated || !RoomFor(b, p, v)))
  {
    var v := VolumesAfter(volumes, p.owner, b, amount);
    if NoneShown(b, deactivated) {
      ComesBackIff(b, deactivated, p, v);
    }
    SetAfterOk(b, volumes, latest, p, v);
    BookedKeepsSums(volumes, b, steps, p.owner, amount);
    hide SetOk, VolumesOk, NoneShown, RoomFor, Updated;
    EntriesKeepSums(volumes[p.owner := v], b, SetAfter(b, p, v), steps + [Booked(p.owner, amount)]);
  }

  /** The board without one creator's entry; all others are where they were. */
  ghost predicate OneLess(was: seq<Entry>, board: seq<Entry>, a: Address) {
    && !Listed(board, a)
    && (board == was || exists i :: 0 <= i < |was| && was[i].address == a && board == was[..i] + was[i + 1..])
  }

  lemma WithoutIsOneLess(board: seq<Entry>, a: Address)
    requires Sorted(board)
    ensures OneLess(board, Without(board, a), a)
  {
    WithoutMembers(board, a);
    if Listed(board, a) {
      var i :| 0 <= i < |board| && board[i].address == a;
      WithoutAt(board, i);
    } else {
      WithoutAbsent(board, a);
    }
  }

  lemma DelistedShows(b: BoardSet, deactivated: set<Address>, a: Address)
    requires NoneShown(b, deactivated)
    ensures NoneShown(Delisted(b, a), deactivated + {a})
  {
    WithoutMembers(b.allTime, a);
    WithoutMembers(b.monthly, a);
    WithoutMembers(b.weekly, a);
  }

  class Leaderboards {
    var boards: BoardSet
    var volumes: map<Address, Volumes>
    var deactivated: set<Address>
    ghost var latest: map<Address, int>   // the lifetime total each creator's last update brought
    ghost var steps: seq<Step>            // every amount booked and every reset

    ghost predicate Valid()
      reads this
    {
      SetOk(boards, volumes, latest) && VolumesOk(volumes, boards, steps)
    }

    constructor ()
      ensures Valid() && boards == BoardSet([], [], [], 0, 0) && deactivated == {} && NoneShown(boards, deactivated)
      ensures volumes == map[] && steps == []
    {
      boards := BoardSet([], [], [], 0, 0);
      volumes, deactivated, latest, steps := map[], {}, map[], [];
    }

    method FindInsertionIndex(entries: seq<Entry>, amount: int) returns (low: nat)
      requires Sorted(entries)
      ensures InsertionPoint(entries, amount, low)
    {
      low := 0;
      var high := |entries|;
      while low < high
        invariant 0 <= low <= high <= |entries|
        invariant forall i :: 0 <= i < low ==> entries[i].amount >= amount
        invariant forall i :: high <= i < |entries| ==> entries[i].amount < amount
      {
        var mid := low + (high - low) / 2;
        if entries[mid].amount >= amount {
          low := mid + 1;
        } else {
          high := mid;
        }
      }
    }

    /** Trims, drops the creator's stale entry, inserts by binary search and evicts the lowest. */
    method UpdateEntries(board: seq<Entry>, profile: Profile, amount: int) returns (entries: seq<Entry>)
      requires Sorted(board)
      ensures entries == Updated(board, Ranked(profile, amount))
    {
      entries := board;
      while |entries| > MAX_SIZE
        invariant entries <= board && Take(MAX_SIZE, entries) == Take(MAX_SIZE, board)
        decreases |entries|
      {
        entries := entries[..|entries| - 1];
      }
      ghost var kept := entries;
      var i := 0;
      ghost var found := false;
      while i < |entries|
        invariant 0 <= i <= |entries| && entries == kept
        invariant forall j :: 0 <= j < i ==> entries[j].address != profile.owner
      {
        if entries[i].address == profile.owner {
          found := true;
          WithoutAt(kept, i);
          entries := entries[..i] + entries[i + 1..];
          break;
        }
        i := i + 1;
      }
      if !found {
        WithoutAbsent(kept, profile.owner);
      }
      assert entries == Without(kept, profile.owner);
      WithoutMembers(kept, profile.owner);
      WithoutSorted(kept, profile.owner);
      var newEntry := Entry(profile.owner, profile.username, amount, profile.creditScore);
      var insertPos := FindInsertionIndex(entries, amount);
      InsertAt(entries, newEntry, insertPos);
      if insertPos < MAX_SIZE {
        entries := entries[..insertPos] + [newEntry] + entries[insertPos..];
        if |entries| > MAX_SIZE {
          entries := entries[..|entries| - 1];
        }
      }
    }

    method AddCreatorPeriodVolumes(creator: Address, amount: int) returns (month: i128, week: i128)
      modifies this`volumes
      ensures var v := VolumesAfter(old(volumes), creator, boards, amount);
              volumes == old(volumes)[creator := v] && month == v.monthly && week == v.weekly
      ensures month == SaturatingAdd(Current(old(volumes), boards, creator, Monthly), amount)
      ensures week == SaturatingAdd(Current(old(volumes), boards, creator, Weekly), amount)
    {
      var v := if creator in volumes then volumes[creator]
               else Volumes(boards.monthlyResetAt, 0, boards.weeklyResetAt, 0);
      if v.monthlyStartAt != boards.monthlyResetAt {
        v := v.(monthlyStartAt := boards.monthlyResetAt, monthly := 0);
      }
      if v.weeklyStartAt != boards.weeklyResetAt {
        v := v.(weeklyStartAt := boards.weeklyResetAt, weekly := 0);
      }
      v := v.(monthly := SaturatingAdd(v.monthly, amount), weekly := SaturatingAdd(v.weekly, amount));
      month, week := v.monthly, v.weekly;
      volumes := volumes[creator := v];
    }

    /**
     * Books a change of a creator's volume on all three boards.  Delivering a scheduled tip calls it for a
     * deactivated creator as well, who then comes back exactly when there is room on one of the boards.
     */
    method UpdateAllForActive(profile: Profile, amount: int)
      requires Valid()
      modifies this
      ensures Valid() && deactivated == old(deactivated) && steps == old(steps) + [Booked(profile.owner, amount)]
      ensures var v := VolumesAfter(old(volumes), profile.owner, old(boards), amount);
              volumes == old(volumes)[profile.owner := v] && boards == SetAfter(old(boards), profile, v)
      ensures old(NoneShown(boards, deactivated)) ==>
                (NoneShown(boards, deactivated) <==>
                   profile.owner !in deactivated
                   || !RoomFor(old(boards), profile, VolumesAfter(old(volumes), profile.owner, old(boards), amount)))
    {
      hide SetOk, VolumesOk, NoneShown, RoomFor, Sorted, Updated, VolumesAfter, Current, SaturatingAdd;
      ghost var next := SetAfter(boards, profile, VolumesAfter(volumes, profile.owner, boards, amount));
      BookingKeepsAll(boards, volumes, latest, steps, deactivated, profile, amount);
      SetIsSorted(boards, volumes, latest);
      var month, week := AddCreatorPeriodVolumes(profile.owner, amount);
      var all := UpdateEntries(boards.allTime, profile, profile.totalTipsReceived);
      var byMonth := UpdateEntries(boards.monthly, profile, month);
      var byWeek := UpdateEntries(boards.weekly, profile, week);
      boards := boards.(allTime := all, monthly := byMonth, weekly := byWeek);
      assert boards == next;
      latest := latest[profile.owner := profile.totalTipsReceived];
      steps := steps + [Booked(profile.owner, amount)];
    }

    /** The same, skipping a deactivated creator; a tip is refused before it gets this far. */
    method UpdateAll(profile: Profile, amount: int)
      requires Valid()
      modifies this
      ensures Valid() && deactivated == old(deactivated)
      ensures old(NoneShown(boards, deactivated)) ==> NoneShown(boards, deactivated)
      ensures profile.owner in deactivated ==>
                boards == old(boards) && volumes == old(volumes) && steps == old(steps)
      ensures profile.owner !in deactivated ==> steps == old(steps) + [Booked(profile.owner, amount)]
      ensures profile.owner !in deactivated ==>
                var v := VolumesAfter(old(volumes), profile.owner, old(boards), amount);
                volumes == old(volumes)[profile.owner := v] && boards == SetAfter(old(boards), profile, v)
    {
      hide SetOk, VolumesOk, RoomFor, VolumesAfter, SetAfter;
      if profile.owner in deactivated {
        return;
      }
      UpdateAllForActive(profile, amount);
    }

    /** A refund lowers the period volumes; a deactivated creator's ranking is left alone. */
    method UpdateAllForRefund(profile: Profile, refunded: int)
      requires Valid()
      modifies this
      ensures Valid() && deactivated == old(deactivated)
      ensures old(NoneShown(boards, deactivated)) ==> NoneShown(boards, deactivated)
      ensures profile.owner in deactivated ==>
                boards == old(boards) && volumes == old(volumes) && steps == old(steps)
      ensures profile.owner !in deactivated ==> steps == old(steps) + [Booked(profile.owner, -refunded)]
      ensures profile.owner !in deactivated ==>
                var v := VolumesAfter(old(volumes), profile.owner, old(boards), -refunded);
                volumes == old(volumes)[profile.owner := v] && boards == SetAfter(old(boards), profile, v)
    {
      hide SetOk, VolumesOk, RoomFor, VolumesAfter, SetAfter;
      if profile.owner in deactivated {
        return;
      }
      UpdateAllForActive(profile, -refunded);
    }

    method RemoveFromBoard(entries: seq<Entry>, address: Address) returns (kept: seq<Entry>)
      ensures kept == Without(entries, address)
    {
      kept := [];
      for i := 0 to |entries|
        invariant kept + Without(entries[i..], address) == Without(entries, address)
      {
        if entries[i].address != address {
          kept := kept + [entries[i]];
        }
        assert entries[i..][1..] == entries[i + 1..];
      }
    }

    /** Delists a creator from all boards; the freed slots are not back-filled. */
    method RemoveFromAll(address: Address)
      requires Valid()
      modifies this`boards
      ensures Valid()
      ensures boards == Delisted(old(boards), address)
      ensures OneLess(old(boards).allTime, boards.allTime, address)
      ensures OneLess(old(boards).monthly, boards.monthly, address)
      ensures OneLess(old(boards).weekly, boards.weekly, address)
    {
      WithoutIsOneLess(boards.allTime, address);
      WithoutIsOneLess(boards.monthly, address);
      WithoutIsOneLess(boards.weekly, address);
      WithoutOk(boards.allTime, address, latest);
      WithoutOk(boards.monthly, address, CurrentMonthly(volumes, boards.monthlyResetAt));
      WithoutOk(boards.weekly, address, CurrentWeekly(volumes, boards.weeklyResetAt));
      var all := RemoveFromBoard(boards.allTime, address);
      var byMonth := RemoveFromBoard(boards.monthly, address);
      var byWeek := RemoveFromBoard(boards.weekly, address);
      EntriesKeepSums(volumes, boards, boards.(allTime := all, monthly := byMonth, weekly := byWeek), steps);
      boards := boards.(allTime := all, monthly := byMonth, weekly := byWeek);
    }

    /** A creator who is deactivated leaves no entry behind. */
    method Deactivate(creator: Address) returns (done: bool)
      requires Valid()
      modifies this
      ensures Valid() && done == (creator !in old(deactivated)) && deactivated == old(deactivated) + {creator}
      ensures volumes == old(volumes) && steps == old(steps)
      ensures boards == if done then Delisted(old(boards), creator) else old(boards)
      ensures done ==> !Shown(boards, creator)
      ensures old(NoneShown(boards, deactivated)) ==> NoneShown(boards, deactivated)
    {
      done := creator !in deactivated;
      if done {
        if NoneShown(boards, deactivated) {
          DelistedShows(boards, deactivated, creator);
        }
        hide SetOk, VolumesOk, NoneShown, Delisted;
        deactivated := deactivated + {creator};
        RemoveFromAll(creator);
      }
    }

    /** A reactivated creator comes back with the amounts that are current now. */
    method Reactivate(profile: Profile) returns (done: bool)
      requires Valid()
      modifies this
      ensures Valid() && done == (profile.owner in old(deactivated))
      ensures deactivated == old(deactivated) - {profile.owner}
      ensures old(NoneShown(boards, deactivated)) ==> NoneShown(boards, deactivated)
      ensures var v := VolumesAfter(old(volumes), profile.owner, old(boards), 0);
              && boards == (if done then SetAfter(old(boards), profile, v) else old(boards))
              && volumes == (if done then old(volumes)[profile.owner := v] else old(volumes))
              && steps == if done then old(steps) + [Booked(profile.owner, 0)] else old(steps)
    {
      done := profile.owner in deactivated;
      if done {
        deactivated := deactivated - {profile.owner};
        UpdateAll(profile, 0);
      }
    }

    /** A profile that is removed leaves the boards, and its deactivation is forgotten. */
    method Deregister(creator: Address)
      requires Valid()
      modifies this`boards, this`deactivated
      ensures Valid() && deactivated == old(deactivated) - {creator} && boards == Delisted(old(boards), creator)
      ensures old(NoneShown(boards, deactivated)) ==> NoneShown(boards, deactivated)
    {
      if NoneShown(boards, deactivated) {
        DelistedShows(boards, deactivated, creator);
      }
      deactivated := deactivated - {creator};
      RemoveFromAll(creator);
    }

    /** The all-time board is never reset; clocks do not run backwards. */
    method ResetLeaderboard(period: Period, timestamp: nat)
      requires Valid() && boards.monthlyResetAt <= timestamp && boards.weeklyResetAt <= timestamp
      modifies this`boards, this`steps
      ensures Valid() && (old(NoneShown(boards, deactivated)) ==> NoneShown(boards, deactivated))
      ensures boards == match period
                        case AllTime => old(boards)
                        case Monthly => old(boards).(monthly := [], monthlyResetAt := timestamp)
                        case Weekly => old(boards).(weekly := [], weeklyResetAt := timestamp)
      ensures steps == if period.AllTime? then old(steps) else old(steps) + [Restarted(period, timestamp)]
    {
      if !period.AllTime? {
        RestartedKeepsSums(volumes, boards, steps, period, timestamp);
        steps := steps + [Restarted(period, timestamp)];
      }
      match period
      case AllTime =>
      case Monthly => boards := boards.(monthly := [], monthlyResetAt := timestamp);
      case Weekly => boards := boards.(weekly := [], weeklyResetAt := timestamp);
    }
  }

  /** A second reset in the second of the first empties the board but not the volumes: the old sum comes back. */
  method SameSecondReset(creator: Address, username: string, now: nat) returns (b: Leaderboards)
    requires 0 < now
    ensures fresh(b) && b.Valid() && Current(b.volumes, b.boards, creator, Weekly) == 150
    ensures b.steps == [Restarted(Weekly, now), Booked(creator, 100), Restarted(Weekly, now), Booked(creator, 50)]
  {
    hide SetOk, Updated, VolumesOk, NoneShown, RoomFor;
    b := new Leaderboards();
    b.ResetLeaderboard(Weekly, now);
    b.UpdateAllForActive(Profile(creator, username, 100, 0), 100);
    b.ResetLeaderboard(Weekly, now);
    b.UpdateAllForActive(Profile(creator, username, 150, 0), 50);
  }

  /** A deactivated creator is back on the boards as soon as a tip scheduled earlier is delivered. */
  method ComesBack(creator: Address, username: string) returns (b: Leaderboards)
    ensures fresh(b) && b.Valid() && creator in b.deactivated && Shown(b.boards, creator)
  {
    b := new Leaderboards();
    b.UpdateAllForActive(Profile(creator, username, 100, 0), 100);
    var done := b.Deactivate(creator);
    b.UpdateAllForActive(Profile(creator, username, 200, 0), 100);
    assert !NoneShown(b.boards, b.deactivated);
  }
}
