/** Recurring tips: due dates without drift, one charge per sweep, and a capped number of active records. */
module Subscriptions {
  import opened Prelude

  type Address = string
  type Pair = (Address, Address)

  const DAY := 86400

  datatype Subscription = Subscription(amount: i128, intervalDays: u32, nextDue: u64, active: bool)

  /** New terms agreed mid-period; they wait for the next charge. */
  datatype Change = Change(amount: i128, intervalDays: u32)

  /** `creators` lists, per subscriber, every creator that has a record, in the order of first subscription. */
  datatype Store = Store(subs: map<Pair, Subscription>, changes: map<Pair, Change>,
                         creators: map<Address, seq<Address>>, active: seq<Pair>, limit: nat)

  datatype Charge = Charge(due: nat, at: nat, terms: Change)

  /** One activation of a subscription: when it began, the terms agreed first and last, and every charge since. */
  datatype Activation = Activation(start: nat, first: Change, agreed: Change, charges: seq<Charge>)

  /** What the proofs remember; `peak` is the highest limit ever set. */
  datatype History = History(current: map<Pair, Activation>, closed: seq<Activation>, peak: nat)

  predicate ValidTerms(amount: int, intervalDays: int) {
    0 < amount && (intervalDays == 1 || intervalDays == 7 || intervalDays == 30)
  }

  // ---- Due dates ----

  function Days(charges: seq<Charge>): nat {
    if charges == [] then 0 else Days(charges[..|charges| - 1]) + charges[|charges| - 1].terms.intervalDays
  }

  /** The due date after `k` charges: the first due date plus the `k` intervals applied, up to the clock's end. */
  function DueAfter(a: Activation, k: nat): nat
    requires k <= |a.charges|
  {
    Min(a.start + DAY * a.first.intervalDays + DAY * Days(a.charges[..k]), U64_MAX)
  }

  predicate ChargeOk(a: Activation, k: nat)
    requires k < |a.charges|
  {
    var c := a.charges[k];
    c.due == DueAfter(a, k) && c.due <= c.at && ValidTerms(c.terms.amount, c.terms.intervalDays)
  }

  ghost predicate ActivationOk(a: Activation) {
    forall k :: 0 <= k < |a.charges| ==> ChargeOk(a, k)
  }

  lemma {:induction false} DaysGrow(charges: seq<Charge>, i: nat, j: nat)
    requires i <= j <= |charges|
    requires forall k :: 0 <= k < |charges| ==> 1 <= charges[k].terms.intervalDays
    ensures Days(charges[..i]) + (j - i) <= Days(charges[..j])
  {
    if i < j {
      DaysGrow(charges, i, j - 1);
      assert charges[..j][..j - 1] == charges[..j - 1];
    }
  }

  /** However late charges run, the `j`-th one never comes before `j - i` whole days after the `i`-th was due. */
  lemma ChargesAreSpaced(a: Activation, i: nat, j: nat)
    requires ActivationOk(a) && i <= j < |a.charges| && a.charges[j].at < U64_MAX
    ensures a.charges[i].due + DAY * (j - i) <= a.charges[j].due <= a.charges[j].at
  {
    forall k | 0 <= k < |a.charges|
      ensures 1 <= a.charges[k].terms.intervalDays
    {
      assert ChargeOk(a, k);
    }
    assert ChargeOk(a, i) && ChargeOk(a, j);
    DaysGrow(a.charges, i, j);
  }

  // ---- The invariant ----

  predicate SubOk(p: Pair, sub: Subscription) {
    p.0 != p.1 && ValidTerms(sub.amount, sub.intervalDays)
  }

  /** The terms of the running period: those of the last charge, or the first ones. */
  function LastTerms(a: Activation): Change {
    if a.charges == [] then a.first else a.charges[|a.charges| - 1].terms
  }

  ghost predicate OnSchedule(sub: Subscription, a: Activation) {
    && ActivationOk(a) && sub.nextDue == DueAfter(a, |a.charges|)
    && sub.amount == LastTerms(a).amount && sub.intervalDays == LastTerms(a).intervalDays
  }

  /** What was agreed last is either pending or already the running terms. */
  predicate AgreedOk(subs: map<Pair, Subscription>, changes: map<Pair, Change>, p: Pair, a: Activation)
    requires p in subs
  {
    subs[p].active ==> a.agreed == if p in changes then changes[p] else LastTerms(a)
  }

  ghost predicate RecordsOk(subs: map<Pair, Subscription>, changes: map<Pair, Change>,
                            current: map<Pair, Activation>, closed: seq<Activation>) {
    && current.Keys == subs.Keys
    && (forall p :: p in subs ==> SubOk(p, subs[p]) && OnSchedule(subs[p], current[p]))
    && (forall p :: p in subs ==> AgreedOk(subs, changes, p, current[p]))
    && (forall p :: p in changes ==>
          p in subs && subs[p].active && ValidTerms(changes[p].amount, changes[p].intervalDays))
    && (forall i :: 0 <= i < |closed| ==> ActivationOk(closed[i]))
  }

  /** The sweep list is duplicate-free and exactly the active records. */
  ghost predicate ListOk(active: seq<Pair>, subs: map<Pair, Subscription>) {
    && Distinct(active)
    && (forall p :: p in active <==> p in subs && subs[p].active)
  }

  function CreatorsOf(creators: map<Address, seq<Address>>, subscriber: Address): seq<Address> {
    if subscriber in creators then creators[subscriber] else []
  }

  ghost predicate IndexOk(creators: map<Address, seq<Address>>, subs: map<Pair, Subscription>) {
    && (forall a :: a in creators ==> Distinct(creators[a]))
    && (forall p :: p in subs <==> p.0 in creators && p.1 in creators[p.0])
  }

  function ActiveOf(subs: map<Pair, Subscription>, subscriber: Address): set<Address> {
    set p | p in subs && p.0 == subscriber && subs[p].active :: p.1
  }

  /** Those of the listed creators whose record is active. */
  function ActiveIn(subs: map<Pair, Subscription>, subscriber: Address, list: seq<Address>): set<Address> {
    set c | c in list && (subscriber, c) in subs && subs[(subscriber, c)].active
  }

  lemma ActiveInNext(subs: map<Pair, Subscription>, subscriber: Address, list: seq<Address>, i: nat)
    requires i < |list| && Distinct(list) && (subscriber, list[i]) in subs
    ensures |ActiveIn(subs, subscriber, list[..i + 1])|
            == |ActiveIn(subs, subscriber, list[..i])| + if subs[(subscriber, list[i])].active then 1 else 0
  {
    assert list[..i + 1] == list[..i] + [list[i]];
    assert list[i] !in list[..i];
    assert ActiveIn(subs, subscriber, list[..i + 1])
        == ActiveIn(subs, subscriber, list[..i]) + if subs[(subscriber, list[i])].active then {list[i]} else {};
  }

  /** A subscriber's index leaves out no active record. */
  lemma ListedAreAll(subs: map<Pair, Subscription>, creators: map<Address, seq<Address>>, subscriber: Address)
    requires IndexOk(creators, subs)
    ensures var list := CreatorsOf(creators, subscriber);
            && Distinct(list) && (forall i :: 0 <= i < |list| ==> (subscriber, list[i]) in subs)
            && ActiveIn(subs, subscriber, list) == ActiveOf(subs, subscriber)
  {
    var list := CreatorsOf(creators, subscriber);
    assert forall c :: c in list <==> (subscriber, c) in subs;
    forall c | c in ActiveOf(subs, subscriber)
      ensures c in ActiveIn(subs, subscriber, list)
    {
    }
  }

  ghost predicate WithinLimit(subs: map<Pair, Subscription>, peak: nat) {
    forall a :: CountOk(subs, a, peak)
  }

  ghost predicate CountOk(subs: map<Pair, Subscription>, subscriber: Address, peak: nat) {
    |ActiveOf(subs, subscriber)| <= peak
  }

  ghost predicate StoreOk(s: Store, h: History) {
    && RecordsOk(s.subs, s.changes, h.current, h.closed)
    && ListOk(s.active, s.subs)
    && IndexOk(s.creators, s.subs)
    && s.limit <= h.peak
    && WithinLimit(s.subs, h.peak)
  }

  // ---- What each call does to the store ----

  function Terms(s: Store, p: Pair): Change
    requires p in s.subs
  {
    if p in s.changes then s.changes[p] else Change(s.subs[p].amount, s.subs[p].intervalDays)
  }

  /** A sweep can charge the record: it is due, and its tip goes through. */
  predicate Payable(s: Store, p: Pair, now: nat, paused: bool, refused: map<Pair, ContractError>) {
    Due(s, p, now) && !paused && p !in refused
  }

  predicate Due(s: Store, p: Pair, now: nat) {
    p in s.subs && s.subs[p].active && s.subs[p].nextDue <= now
  }

  /** Pending terms take effect, and the due date advances from the old due date, not from the clock. */
  function Renewed(sub: Subscription, terms: Change): Subscription {
    Subscription(terms.amount, terms.intervalDays, Min(sub.nextDue + DAY * terms.intervalDays, U64_MAX), sub.active)
  }

  /** A renewed record has the agreed terms, and its date moves by their interval, up to the clock's end. */
  predicate RenewedAs(was: Subscription, sub: Subscription, agreed: Change) {
    && sub.amount == agreed.amount && sub.intervalDays == agreed.intervalDays && sub.active == was.active
    && (was.nextDue + 86_400 * agreed.intervalDays <= U64_MAX ==>
          sub.nextDue == was.nextDue + 86_400 * agreed.intervalDays)
    && (U64_MAX < was.nextDue + 86_400 * agreed.intervalDays ==> sub.nextDue == U64_MAX)
  }

  function Charged(s: Store, p: Pair): Store
    requires p in s.subs
  {
    s.(subs := s.subs[p := Renewed(s.subs[p], Terms(s, p))], changes := s.changes - {p})
  }

  function Cancelled(s: Store, p: Pair): Store
    requires p in s.subs
  {
    s.(subs := s.subs[p := s.subs[p].(active := false)], changes := s.changes - {p}, active := Without(s.active, p))
  }

  function Created(s: Store, p: Pair, amount: i128, intervalDays: u32, nextDue: u64): Store {
    s.(subs := s.subs[p := Subscription(amount, intervalDays, nextDue, true)],
       creators := if p in s.subs then s.creators else s.creators[p.0 := CreatorsOf(s.creators, p.0) + [p.1]],
       active := s.active + [p])
  }

  function Without(list: seq<Pair>, p: Pair): seq<Pair> {
    if list == [] then []
    else Without(list[..|list| - 1], p) + (if list[|list| - 1] == p then [] else [list[|list| - 1]])
  }

  ghost function ChargeLogged(s: Store, h: History, p: Pair, now: nat): History
    requires p in s.subs && p in h.current
  {
    var a := h.current[p];
    var c := Charge(s.subs[p].nextDue, now, a.agreed);
    h.(current := h.current[p := a.(charges := a.charges + [c])])
  }

  /** A new activation; one that it replaces is kept among the closed ones. */
  ghost function Activated(h: History, p: Pair, now: nat, terms: Change): History {
    h.(current := h.current[p := Activation(now, terms, terms, [])],
       closed := if p in h.current then h.closed + [h.current[p]] else h.closed)
  }

  /** New terms are agreed for the next charge; the running period is not touched. */
  ghost function Agreed(h: History, p: Pair, terms: Change): History
    requires p in h.current
  {
    h.(current := h.current[p := h.current[p].(agreed := terms)])
  }

  // ---- Why each call keeps the invariant ----

  lemma KnownRecords(s: Store, h: History)
    requires StoreOk(s, h)
    ensures h.current.Keys == s.subs.Keys
  {
  }

  /** Whatever is charged next is what was agreed last. */
  lemma TermsAreAgreed(s: Store, h: History, p: Pair)
    requires StoreOk(s, h) && p in s.subs && s.subs[p].active
    ensures Terms(s, p) == h.current[p].agreed
  {
    assert AgreedOk(s.subs, s.changes, p, h.current[p]) && OnSchedule(s.subs[p], h.current[p]);
  }

  lemma ChargeAppended(a: Activation, c: Charge)
    requires ActivationOk(a) && c.due == DueAfter(a, |a.charges|) && c.due <= c.at
    requires ValidTerms(c.terms.amount, c.terms.intervalDays)
    ensures var b := a.(charges := a.charges + [c]);
            ActivationOk(b) && DueAfter(b, |b.charges|) == Min(c.due + DAY * c.terms.intervalDays, U64_MAX)
  {
    var b := a.(charges := a.charges + [c]);
    forall k | 0 <= k < |b.charges|
      ensures ChargeOk(b, k)
    {
      assert b.charges[..k] == a.charges[..k];
      assert k < |a.charges| ==> ChargeOk(a, k);
    }
    assert b.charges[..|b.charges|] == b.charges && b.charges[..|a.charges|] == a.charges == a.charges[..|a.charges|];
  }

  lemma RecordUpdated(s: Store, h: History, p: Pair, sub: Subscription, a: Activation, closed: seq<Activation>)
    requires RecordsOk(s.subs, s.changes, h.current, h.closed)
    requires SubOk(p, sub) && OnSchedule(sub, a) && (sub.active ==> a.agreed == LastTerms(a))
    requires forall i :: 0 <= i < |closed| ==> ActivationOk(closed[i])
    ensures RecordsOk(s.subs[p := sub], s.changes - {p}, h.current[p := a], closed)
  {
  }

  lemma ActiveOfUpdated(subs: map<Pair, Subscription>, p: Pair, sub: Subscription, a: Address)
    ensures ActiveOf(subs[p := sub], a) ==
            if a != p.0 then ActiveOf(subs, a)
            else if sub.active then ActiveOf(subs, a) + {p.1} else ActiveOf(subs, a) - {p.1}
  {
  }

  /** Keeping a record active, or ending it, never raises a count; a new one needs room. */
  lemma LimitKept(subs: map<Pair, Subscription>, p: Pair, sub: Subscription, peak: nat)
    requires WithinLimit(subs, peak)
    requires sub.active ==> p.1 in ActiveOf(subs, p.0) || |ActiveOf(subs, p.0)| < peak
    ensures WithinLimit(subs[p := sub], peak)
  {
    var t := subs[p := sub];
    forall a
      ensures CountOk(t, a, peak)
    {
      assert CountOk(subs, a, peak);
      ActiveOfUpdated(subs, p, sub, a);
      var was := ActiveOf(subs, a);
      assert p.1 in was ==> was + {p.1} == was;
    }
  }

  /** The limit without the set: no duplicate-free list of a subscriber's active creators is longer. */
  lemma LimitMeansAtMost(subs: map<Pair, Subscription>, peak: nat, subscriber: Address, creators: seq<Address>)
    requires WithinLimit(subs, peak) && Distinct(creators)
    requires forall c :: c in creators ==> (subscriber, c) in subs && subs[(subscriber, c)].active
    ensures |creators| <= peak
  {
    assert CountOk(subs, subscriber, peak);
    DistinctFits(creators, ActiveOf(subs, subscriber));
  }

  lemma {:induction false} DistinctFits(list: seq<Address>, members: set<Address>)
    requires Distinct(list) && forall x :: x in list ==> x in members
    ensures |list| <= |members|
  {
    if list != [] {
      var front, last := list[..|list| - 1], list[|list| - 1];
      assert last !in front;
      DistinctFits(front, members - {last});
    }
  }

  lemma ListKept(active: seq<Pair>, subs: map<Pair, Subscription>, p: Pair, sub: Subscription)
    requires ListOk(active, subs) && p in subs && sub.active == subs[p].active
    ensures ListOk(active, subs[p := sub])
  {
  }

  lemma ChargeKeepsStore(s: Store, h: History, p: Pair, now: nat)
    requires StoreOk(s, h) && Due(s, p, now)
    ensures StoreOk(Charged(s, p), ChargeLogged(s, h, p, now))
  {
    var sub, a := Charged(s, p).subs[p], ChargeLogged(s, h, p, now).current[p];
    assert SubOk(p, s.subs[p]) && OnSchedule(s.subs[p], h.current[p]);
    TermsAreAgreed(s, h, p);
    ChargeAppended(h.current[p], a.charges[|h.current[p].charges|]);
    RecordUpdated(s, h, p, sub, a, h.closed);
    ListKept(s.active, s.subs, p, sub);
    LimitKept(s.subs, p, sub, h.peak);
  }

  lemma {:induction false} WithoutKeepsRest(list: seq<Pair>, p: Pair)
    requires Distinct(list)
    ensures Distinct(Without(list, p))
    ensures forall q :: q in Without(list, p) <==> q in list && q != p
  {
    if list != [] {
      var rest, last := list[..|list| - 1], list[|list| - 1];
      WithoutKeepsRest(rest, p);
      assert list == rest + [last];
      assert last !in rest;
    }
  }

  lemma CancelKeepsStore(s: Store, h: History, p: Pair)
    requires StoreOk(s, h) && p in s.subs && s.subs[p].active
    ensures StoreOk(Cancelled(s, p), h)
  {
    var sub := s.subs[p].(active := false);
    assert SubOk(p, s.subs[p]) && OnSchedule(s.subs[p], h.current[p]);
    assert h.current[p := h.current[p]] == h.current;
    RecordUpdated(s, h, p, sub, h.current[p], h.closed);
    WithoutKeepsRest(s.active, p);
    LimitKept(s.subs, p, sub, h.peak);
  }

  lemma IndexExtended(s: Store, p: Pair, sub: Subscription)
    requires IndexOk(s.creators, s.subs)
    ensures IndexOk(if p in s.subs then s.creators
                    else s.creators[p.0 := CreatorsOf(s.creators, p.0) + [p.1]], s.subs[p := sub])
  {
  }

  lemma CreateKeepsStore(s: Store, h: History, p: Pair, amount: i128, days: u32, now: nat)
    requires StoreOk(s, h) && p.0 != p.1 && ValidTerms(amount, days) && now + DAY * days <= U64_MAX
    requires p in s.subs ==> !s.subs[p].active
    requires |ActiveOf(s.subs, p.0)| < s.limit
    ensures StoreOk(Created(s, p, amount, days, now + DAY * days), Activated(h, p, now, Change(amount, days)))
  {
    var sub := Subscription(amount, days, now + DAY * days, true);
    assert p in s.subs ==> OnSchedule(s.subs[p], h.current[p]);
    assert s.changes - {p} == s.changes;
    var terms := Change(amount, days);
    RecordUpdated(s, h, p, sub, Activation(now, terms, terms, []), Activated(h, p, now, terms).closed);
    LimitKept(s.subs, p, sub, h.peak);
    IndexExtended(s, p, sub);
    ListExtended(s, p, sub);
  }

  lemma ListExtended(s: Store, p: Pair, sub: Subscription)
    requires ListOk(s.active, s.subs) && (p in s.subs ==> !s.subs[p].active) && sub.active
    ensures ListOk(s.active + [p], s.subs[p := sub])
  {
  }

  lemma ChangeKeepsStore(s: Store, h: History, p: Pair, change: Change)
    requires StoreOk(s, h) && p in s.subs && s.subs[p].active && ValidTerms(change.amount, change.intervalDays)
    ensures StoreOk(s.(changes := s.changes[p := change]), Agreed(h, p, change))
  {
    hide ListOk, IndexOk, WithinLimit;
    ChangeKeepsRecords(s, h, p, change);
  }

  lemma ChangeKeepsRecords(s: Store, h: History, p: Pair, change: Change)
    requires RecordsOk(s.subs, s.changes, h.current, h.closed)
    requires p in s.subs && s.subs[p].active && ValidTerms(change.amount, change.intervalDays)
    ensures RecordsOk(s.subs, s.changes[p := change], Agreed(h, p, change).current, h.closed)
  {
    assert OnSchedule(s.subs[p], h.current[p]);
    SameSchedule(s.subs[p], h.current[p], change);
    var current := Agreed(h, p, change).current;
    forall q | q in s.subs
      ensures AgreedOk(s.subs, s.changes[p := change], q, current[q])
    {
      assert AgreedOk(s.subs, s.changes, q, h.current[q]);
    }
    hide OnSchedule, AgreedOk;
  }

  lemma SameSchedule(sub: Subscription, a: Activation, terms: Change)
    requires OnSchedule(sub, a)
    ensures OnSchedule(sub, a.(agreed := terms))
  {
    forall k | 0 <= k < |a.charges|
      ensures ChargeOk(a.(agreed := terms), k)
    {
      assert ChargeOk(a, k);
    }
  }

  /** The records in `done` were renewed, and their charge logged, once; everything else is as it was. */
  ghost predicate Swept(s: Store, h: History, t: Store, g: History, done: set<Pair>, now: nat)
    requires h.current.Keys == s.subs.Keys
  {
    && t.subs.Keys == g.current.Keys == s.subs.Keys && done <= s.subs.Keys
    && (forall p :: p in s.subs && p !in done ==> t.subs[p] == s.subs[p] && g.current[p] == h.current[p])
    && (forall p :: p in done ==> t.subs[p] == Renewed(s.subs[p], Terms(s, p))
                                  && g.current[p] == ChargeLogged(s, h, p, now).current[p])
    && t == s.(subs := t.subs, changes := s.changes - done)
    && g == h.(current := g.current)
  }

  /**
   * The outcome of a sweep in the records' own fields: those charged were active, due, unpaused and not refused, and
   * are renewed on the terms agreed last; a sweep that stayed below its limit left no such record out.
   */
  ghost predicate ChargedExactly(s: Store, h: History, t: Store, done: set<Pair>, now: nat, paused: bool,
                                 refused: map<Pair, ContractError>, belowLimit: bool) {
    && (forall p :: p in done ==>
          && p in s.subs && s.subs[p].active && s.subs[p].nextDue <= now && !paused && p !in refused
          && p in t.subs && p in h.current && RenewedAs(s.subs[p], t.subs[p], h.current[p].agreed)
          && p !in t.changes)
    && (forall p :: p in s.subs && p !in done ==> p in t.subs && t.subs[p] == s.subs[p])
    && (forall p :: p in s.changes && p !in done ==> p in t.changes && t.changes[p] == s.changes[p])
    && (belowLimit && !paused ==>
          forall p :: p in s.subs && p !in refused && s.subs[p].active && s.subs[p].nextDue <= now ==> p in done)
  }

  lemma SweptInFields(s: Store, h: History, t: Store, g: History, done: set<Pair>, now: nat, paused: bool,
                      refused: map<Pair, ContractError>, belowLimit: bool)
    requires StoreOk(s, h) && h.current.Keys == s.subs.Keys && Swept(s, h, t, g, done, now)
    requires forall p :: p in done ==> Payable(s, p, now, paused, refused)
    requires belowLimit ==> forall p :: Payable(s, p, now, paused, refused) ==> p in done
    ensures ChargedExactly(s, h, t, done, now, paused, refused, belowLimit)
  {
    hide StoreOk;
    KnownRecords(s, h);
    forall p | p in done
      ensures p !in t.changes && RenewedAs(s.subs[p], t.subs[p], h.current[p].agreed)
    {
      TermsAreAgreed(s, h, p);
    }
    hide RenewedAs, Renewed;
  }

  /** Of the first `i` entries, `done` holds all that were due and payable, and nothing else. */
  ghost predicate SweepCovers(s: Store, list: seq<Pair>, i: nat, done: set<Pair>, now: nat,
                              paused: bool, refused: map<Pair, ContractError>)
    requires i <= |list|
  {
    && (forall j :: i <= j < |list| ==> list[j] !in done)
    && (forall p :: p in done ==> Payable(s, p, now, paused, refused))
    && (forall j :: 0 <= j < i && Payable(s, list[j], now, paused, refused) ==> list[j] in done)
  }

  lemma SweepCoversNext(s: Store, list: seq<Pair>, i: nat, done: set<Pair>, next: set<Pair>, now: nat,
                        paused: bool, refused: map<Pair, ContractError>)
    requires i < |list| && Distinct(list) && SweepCovers(s, list, i, done, now, paused, refused)
    requires next == if Payable(s, list[i], now, paused, refused) then done + {list[i]} else done
    ensures SweepCovers(s, list, i + 1, next, now, paused, refused)
    ensures |next| == |done| + if Payable(s, list[i], now, paused, refused) then 1 else 0
  {
  }

  lemma SweptOneMore(s: Store, h: History, t: Store, g: History, done: set<Pair>, p: Pair, now: nat)
    requires h.current.Keys == s.subs.Keys
    requires Swept(s, h, t, g, done, now) && p in s.subs && p !in done
    ensures Swept(s, h, Charged(t, p), ChargeLogged(t, g, p, now), done + {p}, now)
  {
    assert s.changes - (done + {p}) == s.changes - done - {p};
    assert Terms(t, p) == Terms(s, p);
  }

  lemma SweepStarts(s: Store, h: History, now: nat, paused: bool, refused: map<Pair, ContractError>)
    requires h.current.Keys == s.subs.Keys
    ensures Swept(s, h, s, h, {}, now) && SweepCovers(s, s.active, 0, {}, now, paused, refused)
  {
    assert s.changes - {} == s.changes;
  }

  /** One entry further: it is charged exactly if it is payable, which nothing before it in the sweep has changed. */
  lemma SweepNext(s: Store, h: History, t: Store, g: History, i: nat, done: set<Pair>, now: nat, paused: bool,
                  refused: map<Pair, ContractError>)
    requires StoreOk(s, h) && h.current.Keys == s.subs.Keys && i < |s.active|
    requires SweepCovers(s, s.active, i, done, now, paused, refused) && Swept(s, h, t, g, done, now)
    ensures var p := s.active[i];
            var next := if Payable(s, p, now, paused, refused) then done + {p} else done;
            && p in t.subs && p in g.current
            && Payable(t, p, now, paused, refused) == Payable(s, p, now, paused, refused)
            && SweepCovers(s, s.active, i + 1, next, now, paused, refused)
            && |next| == |done| + (if Payable(s, p, now, paused, refused) then 1 else 0)
            && (Payable(s, p, now, paused, refused) ==>
                  Swept(s, h, Charged(t, p), ChargeLogged(t, g, p, now), next, now))
  {
    var p := s.active[i];
    SweepCoversNext(s, s.active, i, done, if Payable(s, p, now, paused, refused) then done + {p} else done, now, paused,
                    refused);
    SweptOneMore(s, h, t, g, done, p, now);
  }

  lemma SweepEnds(s: Store, h: History, i: nat, done: set<Pair>, now: nat, paused: bool,
                  refused: map<Pair, ContractError>)
    requires StoreOk(s, h) && i <= |s.active| && SweepCovers(s, s.active, i, done, now, paused, refused)
    ensures forall p :: p in done ==> Payable(s, p, now, paused, refused)
    ensures i == |s.active| ==> forall p :: Payable(s, p, now, paused, refused) ==> p in done
  {
  }

  /** While tips are paused a sweep, which asks for no flag itself, still charges nothing: every tip is refused. */
  lemma PausedSweepDoesNothing(s: Store, h: History, t: Store, g: History, done: set<Pair>, now: nat,
                               refused: map<Pair, ContractError>)
    requires h.current.Keys == s.subs.Keys && Swept(s, h, t, g, done, now)
    requires forall p :: p in done ==> Payable(s, p, now, true, refused)
    ensures done == {} && t == s && g == h
  {
    assert done == {};
    assert s.changes - done == s.changes;
    assert t.subs == s.subs && g.current == h.current;
  }

  /**
   * `paused` is the answer of the contract's pause check, which is the same for every area.  A sweep does not ask
   * for it, but each tip does.
   */
  class Book {
    var s: Store
    ghost var h: History

    ghost predicate Valid()
      reads this
    {
      StoreOk(s, h)
    }

    constructor (limit: u32)
      ensures Valid() && s == Store(map[], map[], map[], [], limit) && h == History(map[], [], limit)
    {
      s, h := Store(map[], map[], map[], [], limit), History(map[], [], limit);
      new;
      forall a
        ensures CountOk(s.subs, a, limit)
      {
        assert ActiveOf(s.subs, a) == {};
      }
    }

    /** Lowering the limit leaves existing records alone; raising it raises the peak. */
    method SetLimit(limit: u32)
      requires Valid()
      modifies this
      ensures Valid() && s == old(s).(limit := limit) && h == old(h).(peak := Max(old(h).peak, limit))
    {
      forall a
        ensures CountOk(s.subs, a, Max(h.peak, limit))
      {
        assert CountOk(s.subs, a, h.peak);
      }
      s, h := s.(limit := limit), h.(peak := Max(h.peak, limit));
    }

    /** Counting through the subscriber's index finds every active record, each once. */
    method ActiveCount(subscriber: Address) returns (n: nat)
      requires Valid()
      ensures n == |ActiveOf(s.subs, subscriber)|
    {
      var list := CreatorsOf(s.creators, subscriber);
      ListedAreAll(s.subs, s.creators, subscriber);
      n := 0;
      for i := 0 to |list|
        invariant n == |ActiveIn(s.subs, subscriber, list[..i])|
      {
        ActiveInNext(s.subs, subscriber, list, i);
        if s.subs[(subscriber, list[i])].active {
          n := n + 1;
        }
      }
      assert list[..|list|] == list;
    }

    /** New subscription, re-activation, or a change of terms that leaves the running period untouched. */
    method CreateSubscription(subscriber: Address, creator: Address, amount: i128, intervalDays: u32, now: u64,
                              paused: bool, creatorRefused: Option<ContractError>)
      returns (r: Result<Subscription, ContractError>)
      requires Valid()
      modifies this
      ensures Valid()
      ensures var p, terms := (subscriber, creator), !paused && creatorRefused.None?
                                                     && subscriber != creator && 0 < amount
                                                     && (intervalDays == 1 || intervalDays == 7 || intervalDays == 30);
              if !terms then r.Err? && s == old(s) && h == old(h)
              else if p in old(s).subs && old(s).subs[p].active then
                && (r.Ok? <==> now < old(s).subs[p].nextDue)
                && s == (if r.Ok? then old(s).(changes := old(s).changes[p := Change(amount, intervalDays)])
                         else old(s))
                && h == (if r.Ok? then Agreed(old(h), p, Change(amount, intervalDays)) else old(h))
              else
                && (r.Ok? <==> |ActiveOf(old(s).subs, subscriber)| < old(s).limit
                               && now + DAY * intervalDays <= U64_MAX)
                && (r.Ok? ==> s.subs == old(s).subs[p := Subscription(amount, intervalDays,
                                                                      now + 86_400 * intervalDays, true)]
                              && s.active == old(s).active + [p])
                && (r.Ok? ==> s == Created(old(s), p, amount, intervalDays, now + DAY * intervalDays)
                              && h == Activated(old(h), p, now, Change(amount, intervalDays)))
                && (r.Err? ==> s == old(s) && h == old(h))
      ensures r.Ok? ==> (subscriber, creator) in s.subs && r.value == s.subs[(subscriber, creator)] && r.value.active
    {
      hide RecordsOk, ListOk, IndexOk, WithinLimit, ActiveOf;
      KnownRecords(s, h);
      var p := (subscriber, creator);
      var refused: Option<ContractError> :=
        if paused then Some(ContractPaused)
        else if amount <= 0 then Some(InvalidAmount)
        else if creatorRefused.Some? then creatorRefused
        else if subscriber == creator then Some(CannotTipSelf)
        else if intervalDays !in [1, 7, 30] then Some(InvalidInput)
        else None;
      if refused.Some? {
        r := Err(refused.value);
      } else if p in s.subs && s.subs[p].active {
        if now >= s.subs[p].nextDue {
          r := Err(InvalidInput);
        } else {
          ChangeKeepsStore(s, h, p, Change(amount, intervalDays));
          h := Agreed(h, p, Change(amount, intervalDays));
          s := s.(changes := s.changes[p := Change(amount, intervalDays)]);
          r := Ok(s.subs[p]);
        }
      } else {
        var count := ActiveCount(subscriber);
        if count >= s.limit {
          r := Err(SubscriptionLimitReached);
        } else if now + DAY * intervalDays > U64_MAX {
          r := Err(OverflowError);
        } else {
          CreateKeepsStore(s, h, p, amount, intervalDays, now);
          h := Activated(h, p, now, Change(amount, intervalDays));
          s := Created(s, p, amount, intervalDays, now + DAY * intervalDays);
          r := Ok(s.subs[p]);
        }
      }
    }

    /** Rebuilds the sweep list without one entry. */
    method RemoveActive(p: Pair) returns (rest: seq<Pair>)
      ensures rest == Without(s.active, p)
    {
      rest := [];
      for i := 0 to |s.active|
        invariant rest == Without(s.active[..i], p)
      {
        assert s.active[..i + 1][..i] == s.active[..i];
        if s.active[i] != p {
          rest := rest + [s.active[i]];
        }
      }
      assert s.active[..|s.active|] == s.active;
    }

    method CancelSubscription(subscriber: Address, creator: Address, paused: bool)
      returns (r: Result<(), ContractError>)
      requires Valid()
      modifies this
      ensures Valid() && h == old(h)
      ensures var p := (subscriber, creator);
              && (r.Ok? <==> !paused && p in old(s).subs && old(s).subs[p].active)
              && s == (if r.Ok? then Cancelled(old(s), p) else old(s))
              && (r.Ok? ==> s.subs == old(s).subs[p := old(s).subs[p].(active := false)] && p !in s.changes
                            && p !in s.active)
    {
      var p := (subscriber, creator);
      if paused {
        r := Err(ContractPaused);
      } else if p !in s.subs || !s.subs[p].active {
        r := Err(NotFound);
      } else {
        CancelKeepsStore(s, h, p);
        var rest := RemoveActive(p);
        s := s.(subs := s.subs[p := s.subs[p].(active := false)], changes := s.changes - {p}, active := rest);
        r := Ok(());
      }
    }

    /** Charges one due record.  `tip` is how the tip fares beyond its pause check; a refused tip changes nothing. */
    method ChargeDue(p: Pair, now: u64, paused: bool, tip: Option<ContractError>) returns (r: Result<(), ContractError>)
      requires Valid() && Due(s, p, now)
      modifies this
      ensures Valid()
      ensures r.Ok? <==> !paused && tip.None?
      ensures s == if r.Ok? then Charged(old(s), p) else old(s)
      ensures h == if r.Ok? then ChargeLogged(old(s), old(h), p, now) else old(h)
      ensures r.Ok? ==> p in old(s).subs && p in s.subs && p in old(h).current
                        && RenewedAs(old(s).subs[p], s.subs[p], old(h).current[p].agreed) && p !in s.changes
    {
      TermsAreAgreed(s, h, p);
      var terms := Terms(s, p);
      if paused {
        r := Err(ContractPaused);
      } else if tip.Some? {
        r := Err(tip.value);
      } else {
        ChargeKeepsStore(s, h, p, now);
        h := ChargeLogged(s, h, p, now);
        s := s.(subs := s.subs[p := Renewed(s.subs[p], terms)], changes := s.changes - {p});
        r := Ok(());
      }
    }

    /** An inactive record or one not yet due is left alone, and the call succeeds. */
    method ExecuteDueSubscription(subscriber: Address, creator: Address, now: u64, paused: bool,
                                  tip: Option<ContractError>)
      returns (r: Result<(), ContractError>)
      requires Valid()
      modifies this
      ensures Valid()
      ensures var p := (subscriber, creator);
              && (r.Ok? <==> !paused && p in old(s).subs
                             && (old(s).subs[p].active && old(s).subs[p].nextDue <= now ==> tip.None?))
              && (r.Ok? && old(s).subs[p].active && old(s).subs[p].nextDue <= now ==>
                    p in s.subs && p in old(h).current
                    && RenewedAs(old(s).subs[p], s.subs[p], old(h).current[p].agreed))
              && (r.Ok? && !(old(s).subs[p].active && old(s).subs[p].nextDue <= now) ==> s == old(s) && h == old(h))
              && s == (if r.Ok? && Due(old(s), p, now) then Charged(old(s), p) else old(s))
              && h == (if r.Ok? && Due(old(s), p, now) then ChargeLogged(old(s), old(h), p, now) else old(h))
    {
      var p := (subscriber, creator);
      if paused {
        r := Err(ContractPaused);
      } else if p !in s.subs {
        r := Err(NotFound);
      } else if s.subs[p].active && now >= s.subs[p].nextDue {
        r := ChargeDue(p, now, paused, tip);
      } else {
        r := Ok(());
      }
    }

    /** One entry of a sweep: charged if it is due and its tip goes through, else skipped. */
    method ChargeIfDue(p: Pair, now: u64, paused: bool, refused: map<Pair, ContractError>) returns (ok: bool)
      requires Valid()
      modifies this
      ensures Valid() && ok == Payable(old(s), p, now, paused, refused)
      ensures s == if ok then Charged(old(s), p) else old(s)
      ensures h == if ok then ChargeLogged(old(s), old(h), p, now) else old(h)
    {
      ok := false;
      if p in s.subs && s.subs[p].active && now >= s.subs[p].nextDue {
        var outcome := ChargeDue(p, now, paused, if p in refused then Some(refused[p]) else None);
        ok := outcome.Ok?;
      }
    }

    /**
     * One sweep over the list as it stood at the start.  `refused` holds the records whose tip fails.
     * The charged records are charged once each; the rest keep their record and any pending change.
     */
    method ExecuteSubscriptions(limit: u32, now: u64, paused: bool, refused: map<Pair, ContractError>)
      returns (charged: nat, ghost done: set<Pair>)
      requires Valid()
      modifies this
      ensures Valid()
      ensures charged == |done| <= limit
      ensures forall p :: p in done ==> Payable(old(s), p, now, paused, refused)
      ensures Swept(old(s), old(h), s, h, done, now)
      ensures charged < limit ==> forall p :: Payable(old(s), p, now, paused, refused) ==> p in done
      ensures ChargedExactly(old(s), old(h), s, done, now, paused, refused, charged < limit)
    {
      hide StoreOk, Swept, SweepCovers, Payable, Charged, ChargeLogged, ChargedExactly;
      KnownRecords(s, h);
      SweepStarts(s, h, now, paused, refused);
      var list, i := s.active, 0;
      charged, done := 0, {};
      while i < |list| && charged < limit
        invariant Valid() && i <= |list|
        invariant charged == |done| <= limit
        invariant SweepCovers(old(s), list, i, done, now, paused, refused)
        invariant Swept(old(s), old(h), s, h, done, now)
      {
        var p := list[i];
        ghost var next := if Payable(old(s), p, now, paused, refused) then done + {p} else done;
        SweepNext(old(s), old(h), s, h, i, done, now, paused, refused);
        var ok := ChargeIfDue(p, now, paused, refused);
        charged := charged + if ok then 1 else 0;
        i, done := i + 1, next;
      }
      SweepEnds(old(s), old(h), i, done, now, paused, refused);
      SweptInFields(old(s), old(h), s, h, done, now, paused, refused, charged < limit);
    }
  }
}
