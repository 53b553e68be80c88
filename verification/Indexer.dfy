/** The event indexer: first-wins projection, the finality gate, ledger-hash checkpoints and reorg recovery. */
module Indexer {
  import opened Prelude

  type Hash = string

  const EVENTS_PAGE_SIZE := 100
  const MAX_PAGES_PER_TICK := 50
  const TIP_TOPICS := {"tip", "tip_sent"}

  datatype Tip = Tip(sender: string, receiver: string, amount: int, message: string)

  /** A decoded event; `tip` is its payload read as a tip, when it can be. */
  datatype Event = Event(ledger: nat, txHash: string, topic: string, value: string, tip: Option<Tip>)

  /** The events of each ledger, by ledger number; the last one is the head. */
  type Chain = seq<seq<Event>>

  type EventKey = (string, string, nat)

  datatype TipRow = TipRow(ledger: nat, tip: Tip)

  datatype Rows = Rows(log: map<EventKey, string>, tips: map<string, TipRow>)

  const NO_ROWS := Rows(map[], map[])

  datatype Checkpoint = Checkpoint(ledger: nat, hash: Hash)

  /** The tables of one indexer; checkpoints are listed newest first, as they are queried. */
  datatype Store = Store(cursor: Option<nat>, checkpoints: seq<Checkpoint>, rows: Rows)

  datatype Settings = Settings(depth: nat, startLedger: nat, lookback: nat)

  /** Every event carries the number of the ledger it is in; the first ledger here is `base`. */
  predicate WellFormed(chain: Chain, base: nat) {
    forall l :: 0 <= l < |chain| ==> LedgerOk(chain[l], base + l)
  }

  predicate LedgerOk(events: seq<Event>, ledger: nat) {
    forall e :: e in events ==> e.ledger == ledger
  }

  /** The chain's events in order. */
  function Flat(chain: Chain): seq<Event> {
    if chain == [] then [] else Flat(chain[..|chain| - 1]) + chain[|chain| - 1]
  }

  lemma {:induction false} FlatSplit(a: Chain, b: Chain)
    ensures Flat(a + b) == Flat(a) + Flat(b)
  {
    if b == [] {
      assert a + b == a;
    } else {
      var front, last := b[..|b| - 1], b[|b| - 1];
      FlatSplit(a, front);
      assert (a + b)[..|a + b| - 1] == a + front && (a + b)[|a + b| - 1] == last;
      assert Flat(a) + (Flat(front) + last) == (Flat(a) + Flat(front)) + last;
    }
  }

  /** Each event of each ledger has its place, ledger after ledger, and no place is left over. */
  lemma FlatAt(chain: Chain, l: nat, i: nat)
    requires l < |chain| && i < |chain[l]|
    ensures |Flat(chain[..l])| + i < |Flat(chain[..l + 1])| <= |Flat(chain)|
    ensures Flat(chain)[|Flat(chain[..l])| + i] == chain[l][i]
    ensures |Flat(chain[..l + 1])| == |Flat(chain[..l])| + |chain[l]|
  {
    assert chain[..l + 1][..l] == chain[..l];
    assert chain == chain[..l + 1] + chain[l + 1..];
    FlatSplit(chain[..l + 1], chain[l + 1..]);
  }

  lemma {:induction false} FlatRange(chain: Chain, base: nat)
    requires WellFormed(chain, base)
    ensures forall e :: e in Flat(chain) ==> base <= e.ledger < base + |chain|
  {
    if chain != [] {
      FlatRange(chain[..|chain| - 1], base);
      assert LedgerOk(chain[|chain| - 1], base + |chain| - 1);
    }
  }

  // ---- Projection: idempotent, the first event of a key wins ----

  function KeyOf(e: Event): EventKey {
    (e.txHash, e.topic, e.ledger)
  }

  predicate IsTip(e: Event) {
    e.topic in TIP_TOPICS && e.tip.Some?
  }

  function Recorded(rows: Rows, e: Event): Rows {
    Rows(if KeyOf(e) in rows.log then rows.log else rows.log[KeyOf(e) := e.value],
         if !IsTip(e) || e.txHash in rows.tips then rows.tips
         else rows.tips[e.txHash := TipRow(e.ledger, e.tip.value)])
  }

  function Projected(rows: Rows, events: seq<Event>): Rows {
    if events == [] then rows
    else Recorded(Projected(rows, events[..|events| - 1]), events[|events| - 1])
  }

  /** Projecting this event again changes nothing. */
  predicate Stored(rows: Rows, e: Event) {
    KeyOf(e) in rows.log && (IsTip(e) ==> e.txHash in rows.tips)
  }

  lemma {:induction false} ProjectedSplit(rows: Rows, a: seq<Event>, b: seq<Event>)
    ensures Projected(rows, a + b) == Projected(Projected(rows, a), b)
  {
    if b == [] {
      assert a + b == a;
    } else {
      ProjectedSplit(rows, a, b[..|b| - 1]);
      assert (a + b)[..|a + b| - 1] == a + b[..|b| - 1];
    }
  }

  /** No row is ever overwritten or lost by projecting more events. */
  lemma {:induction false} ProjectedGrows(rows: Rows, events: seq<Event>)
    ensures var after := Projected(rows, events);
            && (forall k :: k in rows.log ==> k in after.log && after.log[k] == rows.log[k])
            && (forall t :: t in rows.tips ==> t in after.tips && after.tips[t] == rows.tips[t])
            && (forall e :: e in events ==> Stored(after, e))
  {
    if events != [] {
      ProjectedGrows(rows, events[..|events| - 1]);
      assert events == events[..|events| - 1] + [events[|events| - 1]];
    }
  }

  /** Projecting events changes nothing exactly when every one of them is stored already. */
  lemma {:induction false} ReplayIsNoop(rows: Rows, events: seq<Event>)
    ensures Projected(rows, events) == rows <==> forall e :: e in events ==> Stored(rows, e)
  {
    if forall e :: e in events ==> Stored(rows, e) {
      if events != [] {
        assert forall e :: e in events[..|events| - 1] ==> e in events;
        ReplayIsNoop(rows, events[..|events| - 1]);
        assert Stored(rows, events[|events| - 1]);
      }
    } else {
      var e :| e in events && !Stored(rows, e);
      ProjectedGrows(rows, events);
      assert Stored(Projected(rows, events), e);
    }
  }

  /** A tick that died after its first `k` events and is run again ends as if it had never died. */
  lemma ReplayAfterCrash(rows: Rows, events: seq<Event>, k: nat)
    requires k <= |events|
    ensures Projected(Projected(rows, events[..k]), events) == Projected(rows, events)
  {
    var partial := Projected(rows, events[..k]);
    ProjectedGrows(rows, events[..k]);
    ReplayIsNoop(partial, events[..k]);
    assert events == events[..k] + events[k..];
    ProjectedSplit(partial, events[..k], events[k..]);
    ProjectedSplit(rows, events[..k], events[k..]);
  }

  // ---- What is stored, event by event ----

  predicate SameKey(a: Event, b: Event) {
    a.txHash == b.txHash && a.topic == b.topic && a.ledger == b.ledger
  }

  /** No earlier event has the key of event `i`. */
  predicate FirstOfKey(events: seq<Event>, i: nat)
    requires i < |events|
  {
    forall j :: 0 <= j < i ==> !SameKey(events[j], events[i])
  }

  predicate TipEvent(e: Event) {
    (e.topic == "tip" || e.topic == "tip_sent") && e.tip.Some?
  }

  /** Event `i` is the first tip of its transaction. */
  predicate FirstTip(events: seq<Event>, i: nat)
    requires i < |events|
  {
    TipEvent(events[i]) && forall j :: 0 <= j < i ==> !(TipEvent(events[j]) && events[j].txHash == events[i].txHash)
  }

  predicate LoggedAs(log: map<EventKey, string>, e: Event) {
    var key := (e.txHash, e.topic, e.ledger);
    key in log && log[key] == e.value
  }

  predicate TippedAs(tips: map<string, TipRow>, e: Event)
    requires e.tip.Some?
  {
    && e.txHash in tips && tips[e.txHash].ledger == e.ledger
    && tips[e.txHash].tip.sender == e.tip.value.sender && tips[e.txHash].tip.receiver == e.tip.value.receiver
    && tips[e.txHash].tip.amount == e.tip.value.amount && tips[e.txHash].tip.message == e.tip.value.message
  }

  predicate KeyIs(e: Event, k: EventKey) {
    k == (e.txHash, e.topic, e.ledger)
  }

  predicate LogHolds(was: map<EventKey, string>, log: map<EventKey, string>, events: seq<Event>, i: nat)
    requires i < |events|
  {
    FirstOfKey(events, i) && (events[i].txHash, events[i].topic, events[i].ledger) !in was ==> LoggedAs(log, events[i])
  }

  ghost predicate KeyComesFrom(events: seq<Event>, k: EventKey) {
    exists i :: 0 <= i < |events| && FirstOfKey(events, i) && KeyIs(events[i], k)
  }

  /** The log keeps its rows, gains the first event of each new key as it came, and nothing else. */
  ghost predicate LogFirstWins(was: map<EventKey, string>, log: map<EventKey, string>, events: seq<Event>) {
    && (forall k :: k in was ==> k in log && log[k] == was[k])
    && (forall i :: 0 <= i < |events| ==> LogHolds(was, log, events, i))
    && (forall k :: k in log ==> k in was || KeyComesFrom(events, k))
  }

  predicate TipsHold(was: map<string, TipRow>, tips: map<string, TipRow>, events: seq<Event>, i: nat)
    requires i < |events|
  {
    FirstTip(events, i) && events[i].txHash !in was ==> TippedAs(tips, events[i])
  }

  ghost predicate TipComesFrom(events: seq<Event>, t: string) {
    exists i :: 0 <= i < |events| && FirstTip(events, i) && events[i].txHash == t
  }

  /** The tip table keeps its rows, gains the first tip of each new transaction as it came, and nothing else. */
  ghost predicate TipsFirstWin(was: map<string, TipRow>, tips: map<string, TipRow>, events: seq<Event>) {
    && (forall t :: t in was ==> t in tips && tips[t] == was[t])
    && (forall i :: 0 <= i < |events| ==> TipsHold(was, tips, events, i))
    && (forall t :: t in tips ==> t in was || TipComesFrom(events, t))
  }

  ghost predicate FirstWins(was: Rows, rows: Rows, events: seq<Event>) {
    LogFirstWins(was.log, rows.log, events) && TipsFirstWin(was.tips, rows.tips, events)
  }

  lemma FirstsOfPrefix(front: seq<Event>, last: Event, i: nat)
    requires i < |front|
    ensures FirstOfKey(front + [last], i) == FirstOfKey(front, i) && FirstTip(front + [last], i) == FirstTip(front, i)
  {
    assert forall j :: 0 <= j <= i ==> (front + [last])[j] == front[j];
  }

  /** One more event: its row is there now, whether it is the first of its kind or not. */
  lemma LogOneMore(was: map<EventKey, string>, before: map<EventKey, string>, front: seq<Event>, last: Event)
    requires LogFirstWins(was, before, front)
    ensures var key := (last.txHash, last.topic, last.ledger);
            LogFirstWins(was, if key in before then before else before[key := last.value], front + [last])
  {
    var key, events := (last.txHash, last.topic, last.ledger), front + [last];
    var log := if key in before then before else before[key := last.value];
    forall i | 0 <= i < |events|
      ensures LogHolds(was, log, events, i)
    {
      if i < |front| {
        FirstsOfPrefix(front, last, i);
        assert LogHolds(was, before, front, i);
      } else if key in before && key !in was {
        KeyIsTaken(front, last, key);
      }
    }
    forall k | k in log && k !in was
      ensures KeyComesFrom(events, k)
    {
      if k in before {
        var i :| 0 <= i < |front| && FirstOfKey(front, i) && KeyIs(front[i], k);
        FirstsOfPrefix(front, last, i);
        assert KeyIs(events[i], k);
      } else {
        KeyIsNew(was, before, front, last);
        assert KeyIs(events[|front|], k);
      }
    }
  }

  lemma KeyIsTaken(front: seq<Event>, last: Event, key: EventKey)
    requires KeyComesFrom(front, key) && KeyIs(last, key)
    ensures !FirstOfKey(front + [last], |front|)
  {
    var i :| 0 <= i < |front| && FirstOfKey(front, i) && KeyIs(front[i], key);
    assert SameKey((front + [last])[i], last);
  }

  lemma {:induction false} KeyIsNew(was: map<EventKey, string>, before: map<EventKey, string>, front: seq<Event>,
                                    last: Event)
    requires LogFirstWins(was, before, front) && (last.txHash, last.topic, last.ledger) !in before
    ensures FirstOfKey(front + [last], |front|)
  {
    forall j | 0 <= j < |front|
      ensures !SameKey((front + [last])[j], last)
    {
      var i := FirstLike(front, j);
      assert LogHolds(was, before, front, i);
    }
  }

  function FirstLike(events: seq<Event>, j: nat): (i: nat)
    requires j < |events|
    ensures i <= j && SameKey(events[i], events[j]) && FirstOfKey(events, i)
  {
    if i :| 0 <= i < j && SameKey(events[i], events[j]) then FirstLike(events, i) else j
  }

  lemma TipsOneMore(was: map<string, TipRow>, before: map<string, TipRow>, front: seq<Event>, last: Event)
    requires TipsFirstWin(was, before, front)
    ensures TipsFirstWin(was, if !TipEvent(last) || last.txHash in before then before
                              else before[last.txHash := TipRow(last.ledger, last.tip.value)], front + [last])
  {
    var events := front + [last];
    var tips := if !TipEvent(last) || last.txHash in before then before
                else before[last.txHash := TipRow(last.ledger, last.tip.value)];
    forall i | 0 <= i < |events|
      ensures TipsHold(was, tips, events, i)
    {
      if i < |front| {
        FirstsOfPrefix(front, last, i);
        assert TipsHold(was, before, front, i);
      } else if last.txHash in before && last.txHash !in was {
        TipIsTaken(front, last);
      }
    }
    forall t | t in tips && t !in was
      ensures TipComesFrom(events, t)
    {
      if t in before {
        var i :| 0 <= i < |front| && FirstTip(front, i) && front[i].txHash == t;
        FirstsOfPrefix(front, last, i);
        assert events[i].txHash == t;
      } else {
        TipIsNew(was, before, front, last);
        assert events[|front|].txHash == t;
      }
    }
  }

  lemma TipIsTaken(front: seq<Event>, last: Event)
    requires TipComesFrom(front, last.txHash)
    ensures !FirstTip(front + [last], |front|)
  {
    var i :| 0 <= i < |front| && FirstTip(front, i) && front[i].txHash == last.txHash;
    assert TipEvent((front + [last])[i]);
  }

  lemma TipIsNew(was: map<string, TipRow>, before: map<string, TipRow>, front: seq<Event>, last: Event)
    requires TipsFirstWin(was, before, front) && TipEvent(last) && last.txHash !in before
    ensures FirstTip(front + [last], |front|)
  {
    forall j | 0 <= j < |front| && TipEvent((front + [last])[j])
      ensures front[j].txHash in before
    {
      assert TipsHold(was, before, front, FirstTipLike(front, j));
    }
  }

  function FirstTipLike(events: seq<Event>, j: nat): (i: nat)
    requires j < |events| && TipEvent(events[j])
    ensures i <= j && events[i].txHash == events[j].txHash && FirstTip(events, i)
  {
    if i :| 0 <= i < j && TipEvent(events[i]) && events[i].txHash == events[j].txHash then FirstTipLike(events, i)
    else j
  }

  lemma {:induction false} ProjectedIsFirstWins(rows: Rows, events: seq<Event>)
    ensures FirstWins(rows, Projected(rows, events), events)
  {
    if events != [] {
      var front, last := events[..|events| - 1], events[|events| - 1];
      ProjectedIsFirstWins(rows, front);
      hide LogFirstWins, TipsFirstWin;
      LogOneMore(rows.log, Projected(rows, front).log, front, last);
      TipsOneMore(rows.tips, Projected(rows, front).tips, front, last);
      assert front + [last] == events;
    }
  }

  /** Keeping what was there and storing the first of everything new, as it came, is what projecting does: no more. */
  lemma ProjectedIffFirstWins(was: Rows, rows: Rows, events: seq<Event>)
    ensures rows == Projected(was, events) <==> FirstWins(was, rows, events)
  {
    ProjectedIsFirstWins(was, events);
    if FirstWins(was, rows, events) {
      SameLog(was.log, rows.log, Projected(was, events).log, events);
      SameTips(was.tips, rows.tips, Projected(was, events).tips, events);
    }
  }

  lemma SameLog(was: map<EventKey, string>, a: map<EventKey, string>, b: map<EventKey, string>, events: seq<Event>)
    requires LogFirstWins(was, a, events) && LogFirstWins(was, b, events)
    ensures a == b
  {
    forall k | k in a || k in b
      ensures k in a && k in b && a[k] == b[k]
    {
      if k !in was {
        var i :| 0 <= i < |events| && FirstOfKey(events, i) && KeyIs(events[i], k);
        assert LogHolds(was, a, events, i) && LogHolds(was, b, events, i);
      }
    }
  }

  lemma SameTips(was: map<string, TipRow>, a: map<string, TipRow>, b: map<string, TipRow>, events: seq<Event>)
    requires TipsFirstWin(was, a, events) && TipsFirstWin(was, b, events)
    ensures a == b
  {
    forall t | t in a || t in b
      ensures t in a && t in b && a[t] == b[t]
    {
      if t !in was {
        var i :| 0 <= i < |events| && FirstTip(events, i) && events[i].txHash == t;
        assert TipsHold(was, a, events, i) && TipsHold(was, b, events, i);
      }
    }
  }

  // ---- Rollback: deleting rows above a fork undoes exactly the projection above it ----

  function Truncated(rows: Rows, fork: nat): Rows {
    Rows(map k | k in rows.log && k.2 <= fork :: rows.log[k],
         map t | t in rows.tips && rows.tips[t].ledger <= fork :: rows.tips[t])
  }

  lemma TruncatedRecorded(rows: Rows, e: Event, fork: nat)
    ensures fork < e.ledger ==> Truncated(Recorded(rows, e), fork) == Truncated(rows, fork)
    ensures e.ledger <= fork && Truncated(rows, fork) == rows ==>
              Truncated(Recorded(rows, e), fork) == Recorded(rows, e)
  {
  }

  lemma {:induction false} TruncatedIgnoresLater(rows: Rows, events: seq<Event>, fork: nat)
    requires forall e :: e in events ==> fork < e.ledger
    ensures Truncated(Projected(rows, events), fork) == Truncated(rows, fork)
  {
    if events != [] {
      TruncatedIgnoresLater(rows, events[..|events| - 1], fork);
      TruncatedRecorded(Projected(rows, events[..|events| - 1]), events[|events| - 1], fork);
    }
  }

  lemma {:induction false} TruncatedKeepsEarlier(events: seq<Event>, fork: nat)
    requires forall e :: e in events ==> e.ledger <= fork
    ensures Truncated(Projected(NO_ROWS, events), fork) == Projected(NO_ROWS, events)
  {
    if events != [] {
      TruncatedKeepsEarlier(events[..|events| - 1], fork);
      TruncatedRecorded(Projected(NO_ROWS, events[..|events| - 1]), events[|events| - 1], fork);
    }
  }

  lemma RollbackUndoes(kept: Chain, dropped: Chain, origin: nat, fork: nat)
    requires WellFormed(kept, origin) && WellFormed(dropped, fork + 1) && origin + |kept| == fork + 1
    ensures Truncated(Projected(NO_ROWS, Flat(kept + dropped)), fork) == Projected(NO_ROWS, Flat(kept))
  {
    FlatSplit(kept, dropped);
    ProjectedSplit(NO_ROWS, Flat(kept), Flat(dropped));
    FlatRange(kept, origin);
    FlatRange(dropped, fork + 1);
    TruncatedIgnoresLater(Projected(NO_ROWS, Flat(kept)), Flat(dropped), fork);
    TruncatedKeepsEarlier(Flat(kept), fork);
  }

  // ---- Paging ----

  /** One page of the events that follow the first `token` ones. */
  function Page(stream: seq<Event>, token: nat): (page: seq<Event>)
    requires token <= |stream|
    ensures |page| == Min(EVENTS_PAGE_SIZE, |stream| - token)
  {
    stream[token..token + Min(EVENTS_PAGE_SIZE, |stream| - token)]
  }

  /** The stream is in ledger order, so the finalized events are its first ones. */
  ghost predicate GatedAt(stream: seq<Event>, finalized: nat, ceiling: int)
    requires finalized <= |stream|
  {
    forall i :: 0 <= i < |stream| ==> (stream[i].ledger <= ceiling <==> i < finalized)
  }

  lemma StreamIsGated(early: Chain, late: Chain, start: nat, ceiling: nat)
    requires WellFormed(early, start) && WellFormed(late, ceiling + 1) && start + |early| == ceiling + 1
    ensures Flat(early) <= Flat(early + late) && GatedAt(Flat(early + late), |Flat(early)|, ceiling)
  {
    FlatSplit(early, late);
    FlatRange(early, start);
    FlatRange(late, ceiling + 1);
    var stream := Flat(early) + Flat(late);
    forall i | 0 <= i < |stream|
      ensures stream[i].ledger <= ceiling <==> i < |Flat(early)|
    {
      assert if i < |Flat(early)| then stream[i] in Flat(early) else stream[i] in Flat(late);
    }
  }

  predicate NoneUpTo(events: seq<Event>, ceiling: int) {
    forall e :: e in events ==> e.ledger > ceiling
  }

  lemma PageIsGated(stream: seq<Event>, finalized: nat, ceiling: int, token: nat)
    requires finalized <= |stream| && GatedAt(stream, finalized, ceiling) && token <= finalized
    ensures GatedAt(Page(stream, token), Min(finalized - token, |Page(stream, token)|), ceiling)
  {
  }

  /** One more page takes all that is left or a whole page, and one with nothing finalized in it is the last. */
  lemma PageAdvances(stream: seq<Event>, finalized: nat, ceiling: int, token: nat, page: nat)
    requires finalized <= |stream| && GatedAt(stream, finalized, ceiling)
    requires token == Min(finalized, EVENTS_PAGE_SIZE * page)
    ensures var events := Page(stream, token);
            var here := Min(finalized - token, |events|);
            && here <= |events| && token + here == Min(finalized, EVENTS_PAGE_SIZE * (page + 1))
            && (NoneUpTo(events, ceiling) ==> here == 0 && token == finalized)
  {
    var events := Page(stream, token);
    if token < finalized {
      assert events[0] == stream[token] && events[0] in events;
    }
  }

  lemma PageProjected(rows: Rows, stream: seq<Event>, token: nat, here: nat)
    requires token <= |stream| && here <= |Page(stream, token)|
    ensures Projected(Projected(rows, stream[..token]), Page(stream, token)[..here])
            == Projected(rows, stream[..token + here])
  {
    var page := Page(stream, token)[..here];
    ProjectedSplit(rows, stream[..token], page);
    assert page == stream[token..token + here];
    assert stream[..token] + page == stream[..token + here];
  }

  /** All that a tick needs to know of its next page: what of it is finalized and what it projects. */
  lemma PageTaken(rows: Rows, stream: seq<Event>, finalized: nat, ceiling: int, token: nat, page: nat)
    returns (here: nat)
    requires finalized <= |stream| && GatedAt(stream, finalized, ceiling)
    requires token == Min(finalized, EVENTS_PAGE_SIZE * page)
    ensures here <= |Page(stream, token)| && GatedAt(Page(stream, token), here, ceiling)
    ensures token + here == Min(finalized, EVENTS_PAGE_SIZE * (page + 1))
    ensures NoneUpTo(Page(stream, token), ceiling) ==> here == 0 && token == finalized
    ensures Projected(Projected(rows, stream[..token]), Page(stream, token)[..here])
            == Projected(rows, stream[..token + here])
  {
    hide Projected, GatedAt, Page;
    here := Min(finalized - token, |Page(stream, token)|);
    PageAdvances(stream, finalized, ceiling, token, page);
    PageIsGated(stream, finalized, ceiling, token);
    PageProjected(rows, stream, token, here);
  }

  // ---- Checkpoints ----

  function LedgerHash(hash: Chain -> Hash, chain: Chain, ledger: nat): Option<Hash> {
    if ledger < |chain| then Some(hash(chain[..ledger + 1])) else None
  }

  /** Equal ledger hashes mean equal history. */
  ghost predicate CollisionFree(hash: Chain -> Hash) {
    forall a, b :: hash(a) == hash(b) ==> a == b
  }

  predicate Matches(hash: Chain -> Hash, chain: Chain, cp: Checkpoint) {
    LedgerHash(hash, chain, cp.ledger) == Some(cp.hash)
  }

  predicate Diverges(hash: Chain -> Hash, chain: Chain, cp: Checkpoint) {
    cp.ledger < |chain| && !Matches(hash, chain, cp)
  }

  predicate Descending(cps: seq<Checkpoint>) {
    forall i, j :: 0 <= i < j < |cps| ==> cps[j].ledger < cps[i].ledger
  }

  predicate Holds(hash: Chain -> Hash, hist: Chain, origin: nat, cp: Checkpoint) {
    origin <= cp.ledger && Matches(hash, hist, cp)
  }

  /** Every checkpoint is of the indexed history, and the newest one is of its last ledger. */
  ghost predicate CheckpointsOk(hash: Chain -> Hash, cps: seq<Checkpoint>, hist: Chain, origin: nat) {
    && Descending(cps)
    && (forall i :: 0 <= i < |cps| ==> Holds(hash, hist, origin, cps[i]))
    && (cps != [] ==> cps[0].ledger == |hist| - 1)
  }

  function DeletedAbove(cps: seq<Checkpoint>, ledger: nat): seq<Checkpoint> {
    if cps == [] then []
    else if cps[0].ledger > ledger then DeletedAbove(cps[1..], ledger)
    else [cps[0]] + DeletedAbove(cps[1..], ledger)
  }

  function Upserted(cps: seq<Checkpoint>, cp: Checkpoint): seq<Checkpoint> {
    if cps == [] || cps[0].ledger < cp.ledger then [cp] + cps
    else if cps[0].ledger == cp.ledger then [cp] + cps[1..]
    else [cps[0]] + Upserted(cps[1..], cp)
  }

  function Pruned(cps: seq<Checkpoint>, keep: nat): seq<Checkpoint> {
    cps[..Min(keep, |cps|)]
  }

  /** In a newest-first list, what is at or below a ledger is a suffix. */
  lemma {:induction false} DeletedAboveIsSuffix(cps: seq<Checkpoint>, ledger: nat, k: nat)
    requires Descending(cps) && k <= |cps|
    requires forall i :: 0 <= i < k ==> cps[i].ledger > ledger
    requires k < |cps| ==> cps[k].ledger <= ledger
    ensures DeletedAbove(cps, ledger) == cps[k..]
  {
    if cps != [] {
      if k > 0 {
        DeletedAboveIsSuffix(cps[1..], ledger, k - 1);
      } else {
        DeletedAboveIsSuffix(cps[1..], ledger, 0);
      }
    }
  }

  /** Upserting puts the checkpoint in its place, instead of one of the same ledger, and moves no other. */
  lemma {:induction false} UpsertedMembers(cps: seq<Checkpoint>, cp: Checkpoint, x: Checkpoint)
    requires Descending(cps)
    ensures x in Upserted(cps, cp) <==> x == cp || (x in cps && x.ledger != cp.ledger)
    ensures Descending(Upserted(cps, cp))
  {
    UpsertedDescends(cps, cp);
    if cps != [] {
      assert x in cps <==> x == cps[0] || x in cps[1..];
      if cp.ledger < cps[0].ledger {
        UpsertedMembers(cps[1..], cp, x);
      }
    }
  }

  lemma {:induction false} UpsertedDescends(cps: seq<Checkpoint>, cp: Checkpoint)
    requires Descending(cps)
    ensures var up := Upserted(cps, cp);
            && up != [] && Descending(up)
            && up[0].ledger == if cps == [] then cp.ledger else Max(cp.ledger, cps[0].ledger)
  {
    if cps != [] && cp.ledger < cps[0].ledger {
      UpsertedDescends(cps[1..], cp);
    }
  }

  // ---- The indexer's invariant ----

  /** What the proofs remember: the ledgers the checkpoints are of, and the first one indexed. */
  datatype Past = Past(hist: Chain, origin: nat)

  const FRESH := Store(None, [], NO_ROWS)

  /** Cursor and checkpoints follow one history; whether the rows do as well is a separate matter. */
  ghost predicate Traced(hash: Chain -> Hash, keep: nat, s: Store, past: Past) {
    && WellFormed(past.hist, 0) && 0 < past.origin && |s.checkpoints| <= keep
    && (if s.cursor.None? then past.hist == []
        else |past.hist| == s.cursor.value + 1 && past.origin <= |past.hist|)
    && CheckpointsOk(hash, s.checkpoints, past.hist, past.origin)
  }

  /** The first-wins projection of a history, from the first indexed ledger on. */
  function RowsOf(hist: Chain, origin: nat): Rows {
    if origin <= |hist| then Projected(NO_ROWS, Flat(hist[origin..])) else NO_ROWS
  }

  ghost predicate Exact(s: Store, past: Past) {
    s.rows == RowsOf(past.hist, past.origin)
  }

  /** Exact rows, event by event: the first of everything since the first indexed ledger, as it came, and no more. */
  lemma ExactIffFirstWins(s: Store, past: Past)
    requires past.origin <= |past.hist|
    ensures Exact(s, past) <==> FirstWins(NO_ROWS, s.rows, Flat(past.hist[past.origin..]))
  {
    ProjectedIffFirstWins(NO_ROWS, s.rows, Flat(past.hist[past.origin..]));
  }

  lemma SliceWellFormed(chain: Chain, from: nat, to: nat)
    requires WellFormed(chain, 0) && from <= to <= |chain|
    ensures WellFormed(chain[from..to], from)
  {
    forall l | 0 <= l < to - from
      ensures LedgerOk(chain[from..to][l], from + l)
    {
      assert LedgerOk(chain[from + l], from + l);
    }
  }

  lemma FlatSlices(chain: Chain, from: nat, mid: nat, to: nat)
    requires from <= mid <= to <= |chain|
    ensures Flat(chain[from..to]) == Flat(chain[from..mid]) + Flat(chain[mid..to])
  {
    FlatSplit(chain[from..mid], chain[mid..to]);
    assert chain[from..to] == chain[from..mid] + chain[mid..to];
  }

  lemma RowsOfPrefix(chain: Chain, to: nat, origin: nat)
    requires origin <= to <= |chain|
    ensures RowsOf(chain[..to], origin) == Projected(NO_ROWS, Flat(chain[origin..to]))
  {
    assert chain[..to][origin..] == chain[origin..to];
  }

  // ---- Rolling back ----

  lemma CheckpointsCut(hash: Chain -> Hash, cps: seq<Checkpoint>, hist: Chain, origin: nat, fork: nat, k: nat)
    requires CheckpointsOk(hash, cps, hist, origin) && k <= |cps| && fork < |hist|
    requires forall i :: 0 <= i < k ==> cps[i].ledger > fork
    requires k < |cps| ==> cps[k].ledger == fork
    ensures CheckpointsOk(hash, DeletedAbove(cps, fork), hist[..fork + 1], origin)
    ensures |DeletedAbove(cps, fork)| <= |cps|
  {
    DeletedAboveIsSuffix(cps, fork, k);
    forall i | k <= i < |cps|
      ensures Holds(hash, hist[..fork + 1], origin, cps[i])
    {
      assert Holds(hash, hist, origin, cps[i]);
      assert hist[..fork + 1][..cps[i].ledger + 1] == hist[..cps[i].ledger + 1];
    }
  }

  /** The ledger a detected reorg rolls back to: the newest match, or just before the oldest checkpoint. */
  function ForkOf(cps: seq<Checkpoint>, k: nat): nat
    requires k <= |cps| && cps != []
  {
    Max(0, if k < |cps| then cps[k].ledger else cps[|cps| - 1].ledger - 1)
  }

  lemma ForkIsIndexed(hash: Chain -> Hash, cps: seq<Checkpoint>, past: Past, k: nat)
    requires CheckpointsOk(hash, cps, past.hist, past.origin) && 0 < past.origin && k <= |cps| && cps != []
    ensures past.origin <= ForkOf(cps, k) + 1 <= |past.hist|
    ensures forall i :: 0 <= i < k ==> cps[i].ledger > ForkOf(cps, k)
    ensures k < |cps| ==> cps[k].ledger == ForkOf(cps, k)
  {
  }

  function Reverted(s: Store, fork: nat): Store {
    Store(Some(fork), DeletedAbove(s.checkpoints, fork), Truncated(s.rows, fork))
  }

  /** A rollback leaves a traced store traced, and exact rows exact for the shorter history. */
  lemma RolledBack(hash: Chain -> Hash, keep: nat, s: Store, past: Past, k: nat)
    requires Traced(hash, keep, s, past) && k <= |s.checkpoints| && s.checkpoints != []
    ensures var fork := ForkOf(s.checkpoints, k);
            && fork < |past.hist|
            && Traced(hash, keep, Reverted(s, fork), past.(hist := past.hist[..fork + 1]))
            && (Exact(s, past) ==> Exact(Reverted(s, fork), past.(hist := past.hist[..fork + 1])))
  {
    var fork := ForkOf(s.checkpoints, k);
    ForkIsIndexed(hash, s.checkpoints, past, k);
    CheckpointsCut(hash, s.checkpoints, past.hist, past.origin, fork, k);
    SliceWellFormed(past.hist, 0, fork + 1);
    assert past.hist[0..fork + 1] == past.hist[..fork + 1];
    RowsCut(past.hist, past.origin, fork);
    hide CheckpointsOk, WellFormed, RowsOf, Truncated, DeletedAbove;
  }

  lemma RowsCut(hist: Chain, origin: nat, fork: nat)
    requires WellFormed(hist, 0) && origin <= fork + 1 <= |hist|
    ensures Truncated(RowsOf(hist, origin), fork) == RowsOf(hist[..fork + 1], origin)
  {
    SliceWellFormed(hist, origin, fork + 1);
    SliceWellFormed(hist, fork + 1, |hist|);
    RollbackUndoes(hist[origin..fork + 1], hist[fork + 1..|hist|], origin, fork);
    SplitAt(hist, origin, fork + 1);
    RowsOfPrefix(hist, fork + 1, origin);
  }

  lemma SplitAt(hist: Chain, from: nat, mid: nat)
    requires from <= mid <= |hist|
    ensures hist[from..] == hist[from..mid] + hist[mid..|hist|]
  {
  }

  // ---- Detecting a reorg ----

  datatype Detection = Detection(reorged: bool, forkLedger: Option<nat>, divergedAt: Option<nat>)

  predicate DivergesBefore(hash: Chain -> Hash, chain: Chain, cps: seq<Checkpoint>, k: nat)
    requires k <= |cps|
  {
    exists i :: 0 <= i < k && Diverges(hash, chain, cps[i])
  }

  /** Before position `k`, the newest checkpoint that the chain contradicts is at `ledger`. */
  ghost predicate FirstDivergence(hash: Chain -> Hash, chain: Chain, cps: seq<Checkpoint>, k: nat, ledger: nat)
    requires k <= |cps|
  {
    exists i :: 0 <= i < k && Diverges(hash, chain, cps[i]) && cps[i].ledger == ledger
                && forall j :: 0 <= j < i ==> |chain| <= cps[j].ledger
  }

  /** The newest checkpoint that still matches, or the end of the list when none does. */
  function NewestMatch(hash: Chain -> Hash, chain: Chain, cps: seq<Checkpoint>): (k: nat)
    ensures k <= |cps|
    ensures forall i :: 0 <= i < k ==> !Matches(hash, chain, cps[i])
    ensures k < |cps| ==> Matches(hash, chain, cps[k])
  {
    if cps == [] || Matches(hash, chain, cps[0]) then 0 else 1 + NewestMatch(hash, chain, cps[1..])
  }

  /** A tick rolls back when a checkpoint newer than the newest match contradicts the chain. */
  predicate SeesReorg(hash: Chain -> Hash, chain: Chain, cps: seq<Checkpoint>) {
    DivergesBefore(hash, chain, cps, NewestMatch(hash, chain, cps))
  }

  /**
   * In the checkpoints' own terms: some checkpoint's ledger is on the chain with another hash, and of the newer ones
   * each has another hash as well or no counterpart.
   */
  lemma SeesReorgIff(hash: Chain -> Hash, chain: Chain, cps: seq<Checkpoint>)
    ensures SeesReorg(hash, chain, cps) <==>
            exists i :: 0 <= i < |cps| && cps[i].ledger < |chain| && hash(chain[..cps[i].ledger + 1]) != cps[i].hash
                        && forall j :: 0 <= j < i && cps[j].ledger < |chain| ==>
                                         hash(chain[..cps[j].ledger + 1]) != cps[j].hash
  {
    var k := NewestMatch(hash, chain, cps);
    if SeesReorg(hash, chain, cps) {
      var i :| 0 <= i < k && Diverges(hash, chain, cps[i]);
      assert forall j :: 0 <= j < i ==> !Matches(hash, chain, cps[j]);
    }
    forall i | 0 <= i < |cps| && Diverges(hash, chain, cps[i])
               && forall j :: 0 <= j < i ==> !Matches(hash, chain, cps[j])
      ensures i < k
    {
      assert k < |cps| ==> Matches(hash, chain, cps[k]);
    }
  }

  /** Walks the checkpoints newest first; a ledger the chain does not have is skipped. */
  method DetectReorg(hash: Chain -> Hash, chain: Chain, cps: seq<Checkpoint>) returns (d: Detection)
    ensures d.reorged <==> SeesReorg(hash, chain, cps)
    ensures d.reorged <==> d.divergedAt.Some?
    ensures d.reorged ==>
              cps != [] && FirstDivergence(hash, chain, cps, NewestMatch(hash, chain, cps), d.divergedAt.value)
    ensures d.forkLedger == if NewestMatch(hash, chain, cps) < |cps| || d.reorged
                            then Some(ForkOf(cps, NewestMatch(hash, chain, cps))) else None
  {
    var divergedAt: Option<nat> := None;
    for i := 0 to |cps|
      invariant forall j :: 0 <= j < i ==> !Matches(hash, chain, cps[j])
      invariant divergedAt.None? ==> forall j :: 0 <= j < i ==> |chain| <= cps[j].ledger
      invariant divergedAt.Some? ==> FirstDivergence(hash, chain, cps, i, divergedAt.value)
    {
      var chainHash := LedgerHash(hash, chain, cps[i].ledger);
      if chainHash.Some? {
        if chainHash.value == cps[i].hash {
          assert NewestMatch(hash, chain, cps) == i;
          return Detection(divergedAt.Some?, Some(cps[i].ledger), divergedAt);
        }
        if divergedAt.None? {
          assert Diverges(hash, chain, cps[i]);
          divergedAt := Some(cps[i].ledger);
        }
      }
    }
    assert NewestMatch(hash, chain, cps) == |cps|;
    d := if divergedAt.Some? then Detection(true, Some(Max(0, cps[|cps| - 1].ledger - 1)), divergedAt)
    else Detection(false, None, None);
  }

  /** When the newest checkpoint has a counterpart on the chain and no divergence is seen, nothing was lost. */
  lemma NewestMatchIsOnChain(hash: Chain -> Hash, cps: seq<Checkpoint>, past: Past, chain: Chain)
    requires CollisionFree(hash) && CheckpointsOk(hash, cps, past.hist, past.origin)
    ensures var k := NewestMatch(hash, chain, cps);
            k < |cps| ==> past.hist[..cps[k].ledger + 1] <= chain
    ensures cps != [] && |past.hist| <= |chain| && !SeesReorg(hash, chain, cps) ==> past.hist <= chain
  {
    var k := NewestMatch(hash, chain, cps);
    assert past.hist[..|past.hist|] == past.hist;
    assert k < |cps| ==> Holds(hash, past.hist, past.origin, cps[k]);
    assert cps != [] ==> Holds(hash, past.hist, past.origin, cps[0]);
    assert cps != [] && |past.hist| <= |chain| && 0 < k ==> Diverges(hash, chain, cps[0]);
  }

  // ---- One tick ----

  datatype Outcome = RolledBackTo(fork: nat) | Waiting | Advanced(from: nat, to: nat, processed: nat)

  function StartLedger(cursor: Option<nat>, settings: Settings, head: int): (start: nat)
    ensures cursor.None? ==> 0 < start
  {
    if cursor.Some? then cursor.value + 1
    else if settings.startLedger != 0 then settings.startLedger
    else Max(1, head - settings.depth)
  }

  function Ceiling(settings: Settings, chain: Chain): int {
    |chain| - 1 - settings.depth
  }

  const TICK_CAP := MAX_PAGES_PER_TICK * EVENTS_PAGE_SIZE

  /** The events a tick should project. */
  function Finalized(chain: Chain, start: nat, ceiling: nat): seq<Event>
    requires start <= ceiling < |chain|
  {
    Flat(chain[start..ceiling + 1])
  }

  lemma StreamOfTick(chain: Chain, start: nat, ceiling: nat)
    requires WellFormed(chain, 0) && start <= ceiling < |chain|
    ensures Finalized(chain, start, ceiling) <= Flat(chain[start..])
    ensures GatedAt(Flat(chain[start..]), |Finalized(chain, start, ceiling)|, ceiling)
  {
    var early, late := chain[start..ceiling + 1], chain[ceiling + 1..|chain|];
    assert chain[start..] == early + late;
    SliceWellFormed(chain, start, ceiling + 1);
    SliceWellFormed(chain, ceiling + 1, |chain|);
    StreamIsGated(early, late, start, ceiling);
  }

  /** The tables after a tick that read the ledgers from `start` through `ceiling`. */
  function Ticked(hash: Chain -> Hash, s: Store, chain: Chain, start: nat, ceiling: nat, keep: nat): Store
    requires start <= ceiling < |chain|
  {
    var events := Finalized(chain, start, ceiling);
    Store(Some(ceiling), Pruned(Upserted(s.checkpoints, Checkpoint(ceiling, hash(chain[..ceiling + 1]))), keep),
          Projected(s.rows, events[..Min(|events|, TICK_CAP)]))
  }

  /** From now on the history is this chain's; the first tick also fixes where indexing began. */
  function PastAfter(s: Store, past: Past, chain: Chain, start: nat, ceiling: nat): Past
    requires start <= ceiling < |chain|
  {
    Past(chain[..ceiling + 1], if s.cursor.None? then start else past.origin)
  }

  lemma CheckpointRecorded(hash: Chain -> Hash, cps: seq<Checkpoint>, hist: Chain, origin: nat, after: Chain, keep: nat)
    requires CheckpointsOk(hash, cps, hist, origin) && origin < |after|
    requires (cps == [] || hist <= after) && |hist| < |after|
    ensures CheckpointsOk(hash, Pruned(Upserted(cps, Checkpoint(|after| - 1, hash(after))), keep), after, origin)
  {
    var cp := Checkpoint(|after| - 1, hash(after));
    assert after[..|after|] == after;
    forall i | 0 <= i < |cps|
      ensures Holds(hash, after, origin, cps[i]) && cps[i].ledger < cp.ledger
    {
      assert Holds(hash, hist, origin, cps[i]);
      assert after[..cps[i].ledger + 1] == hist[..cps[i].ledger + 1];
    }
    assert Upserted(cps, cp) == [cp] + cps;
  }

  /** Retention: the newest checkpoint joins the others, of which the newest stay, as many as the lookback. */
  lemma CheckpointsKept(hash: Chain -> Hash, keep: nat, s: Store, past: Past, cp: Checkpoint)
    requires Traced(hash, keep, s, past) && |past.hist| <= cp.ledger
    ensures Pruned(Upserted(s.checkpoints, cp), keep) == ([cp] + s.checkpoints)[..Min(keep, |s.checkpoints| + 1)]
  {
    assert s.checkpoints != [] ==> Holds(hash, past.hist, past.origin, s.checkpoints[0]);
  }

  /**
   * A tick that advances, in the tables' own terms: it begins after the cursor (or at the configured ledger, or at
   * the finalized head), ends `depth` ledgers below the head, and stores the first of everything new among the
   * events in between, at most 50 pages of 100.
   */
  ghost predicate ReadOn(hash: Chain -> Hash, settings: Settings, was: Store, s: Store, chain: Chain, tick: Outcome) {
    && tick.Advanced? && tick.from <= tick.to == |chain| - 1 - settings.depth
    && tick.from == (if was.cursor.Some? then was.cursor.value + 1
                     else if settings.startLedger != 0 then settings.startLedger
                     else Max(1, |chain| - 1 - settings.depth))
    && s.cursor == Some(tick.to)
    && s.checkpoints == ([Checkpoint(tick.to, hash(chain[..tick.to + 1]))]
                         + was.checkpoints)[..Min(settings.lookback, |was.checkpoints| + 1)]
    && var events := Flat(chain[tick.from..tick.to + 1]);
    && tick.processed == Min(|events|, 50 * 100) && FirstWins(was.rows, s.rows, events[..tick.processed])
  }

  lemma TickReadsOn(hash: Chain -> Hash, settings: Settings, s: Store, past: Past, chain: Chain, start: nat,
                    ceiling: nat)
    requires Traced(hash, settings.lookback, s, past)
    requires StartLedger(s.cursor, settings, |chain| - 1) == start <= ceiling == Ceiling(settings, chain)
    ensures ReadOn(hash, settings, s, Ticked(hash, s, chain, start, ceiling, settings.lookback), chain,
                   Advanced(start, ceiling, Min(|Finalized(chain, start, ceiling)|, TICK_CAP)))
  {
    var events := Finalized(chain, start, ceiling);
    CheckpointsKept(hash, settings.lookback, s, past, Checkpoint(ceiling, hash(chain[..ceiling + 1])));
    ProjectedIsFirstWins(s.rows, events[..Min(|events|, TICK_CAP)]);
  }

  /** Every tick that advances, capped or not, keeps cursor and checkpoints on one history: this chain's. */
  lemma TickKeepsTrace(hash: Chain -> Hash, keep: nat, s: Store, past: Past, chain: Chain, start: nat, ceiling: nat)
    requires Traced(hash, keep, s, past) && WellFormed(chain, 0) && (s.checkpoints == [] || past.hist <= chain)
    requires start <= ceiling < |chain| && (if s.cursor.None? then 0 < start else start == s.cursor.value + 1)
    ensures Traced(hash, keep, Ticked(hash, s, chain, start, ceiling, keep), PastAfter(s, past, chain, start, ceiling))
  {
    var after := PastAfter(s, past, chain, start, ceiling);
    SliceWellFormed(chain, 0, ceiling + 1);
    assert chain[0..ceiling + 1] == after.hist;
    assert s.checkpoints != [] ==> Holds(hash, past.hist, past.origin, s.checkpoints[0]);
    CheckpointRecorded(hash, s.checkpoints, past.hist, after.origin, after.hist, keep);
  }

  /**
   * The rows after a tick within its page cap are this chain's exactly when the rows it began with were this
   * chain's below its first ledger: a tick neither repairs a wrong row nor spoils a right one.
   */
  lemma TickIsExactIff(rows: Rows, hist: Chain, origin: nat, chain: Chain, start: nat, ceiling: nat)
    requires WellFormed(hist, 0) && WellFormed(chain, 0) && |hist| <= start && 0 < origin <= start <= ceiling < |chain|
    requires rows == RowsOf(hist, origin)
    ensures Projected(rows, Finalized(chain, start, ceiling)) == RowsOf(chain[..ceiling + 1], origin)
            <==> rows == RowsOf(chain[..start], origin)
  {
    RowsExtended(chain, origin, start, ceiling);
    SliceWellFormed(chain, start, ceiling + 1);
    FlatRange(chain[start..ceiling + 1], start);
    SliceWellFormed(chain, 0, start);
    assert chain[0..start] == chain[..start];
    RowsEndBelow(hist, origin, start - 1);
    RowsEndBelow(chain[..start], origin, start - 1);
    SameAfterIffSameBefore(rows, RowsOf(chain[..start], origin), Finalized(chain, start, ceiling), start - 1);
  }

  lemma RowsExtended(chain: Chain, origin: nat, start: nat, ceiling: nat)
    requires origin <= start <= ceiling < |chain|
    ensures RowsOf(chain[..ceiling + 1], origin)
            == Projected(RowsOf(chain[..start], origin), Finalized(chain, start, ceiling))
  {
    RowsOfPrefix(chain, start, origin);
    RowsOfPrefix(chain, ceiling + 1, origin);
    FlatSlices(chain, origin, start, ceiling + 1);
    ProjectedSplit(NO_ROWS, Flat(chain[origin..start]), Finalized(chain, start, ceiling));
  }

  /** Later events cannot make two different sets of earlier rows equal. */
  lemma SameAfterIffSameBefore(a: Rows, b: Rows, later: seq<Event>, end: nat)
    requires Truncated(a, end) == a && Truncated(b, end) == b && forall e :: e in later ==> end < e.ledger
    ensures Projected(a, later) == Projected(b, later) <==> a == b
  {
    TruncatedIgnoresLater(a, later, end);
    TruncatedIgnoresLater(b, later, end);
  }

  /** A history's rows carry no ledger number beyond its end. */
  lemma RowsEndBelow(hist: Chain, origin: nat, end: nat)
    requires WellFormed(hist, 0) && |hist| <= end + 1
    ensures Truncated(RowsOf(hist, origin), end) == RowsOf(hist, origin)
  {
    if origin <= |hist| {
      SliceWellFormed(hist, origin, |hist|);
      assert hist[origin..|hist|] == hist[origin..];
      FlatRange(hist[origin..], origin);
      TruncatedKeepsEarlier(Flat(hist[origin..]), end);
    } else {
      TruncatedKeepsEarlier([], end);
    }
  }

  lemma TickExactIff(s: Store, past: Past, chain: Chain, start: nat, ceiling: nat)
    requires WellFormed(past.hist, 0) && WellFormed(chain, 0) && 0 < past.origin && Exact(s, past)
    requires if s.cursor.None? then past.hist == [] && 0 < start else past.origin <= |past.hist| == start
    requires start <= ceiling < |chain|
    ensures var after := PastAfter(s, past, chain, start, ceiling);
            && after.origin <= start
            && (Projected(s.rows, Finalized(chain, start, ceiling)) == RowsOf(after.hist, after.origin)
                <==> s.rows == RowsOf(chain[..start], after.origin))
            && (past.hist <= chain ==> s.rows == RowsOf(chain[..start], after.origin))
  {
    var origin := PastAfter(s, past, chain, start, ceiling).origin;
    TickIsExactIff(s.rows, past.hist, origin, chain, start, ceiling);
    if s.cursor.None? {
      assert chain[..start][start..] == [];
    } else if past.hist <= chain {
      assert past.hist == chain[..start];
    }
  }

  // ---- The page cap ----

  predicate DistinctKeys(events: seq<Event>) {
    forall i, j :: 0 <= i < j < |events| ==> KeyOf(events[i]) != KeyOf(events[j])
  }

  predicate NewTo(rows: Rows, events: seq<Event>) {
    forall i :: 0 <= i < |events| ==> KeyOf(events[i]) !in rows.log
  }

  lemma {:induction false} NotLogged(rows: Rows, events: seq<Event>, key: EventKey)
    requires key !in rows.log && forall i :: 0 <= i < |events| ==> KeyOf(events[i]) != key
    ensures key !in Projected(rows, events).log
  {
    if events != [] {
      NotLogged(rows, events[..|events| - 1], key);
    }
  }

  /** Of new events with distinct keys a tick stores all exactly when they fit its pages. */
  lemma CapLosesIff(rows: Rows, finalized: seq<Event>)
    requires DistinctKeys(finalized) && NewTo(rows, finalized)
    ensures Projected(rows, finalized[..Min(|finalized|, TICK_CAP)]) == Projected(rows, finalized)
            <==> |finalized| <= TICK_CAP
  {
    if |finalized| <= TICK_CAP {
      assert finalized[..|finalized|] == finalized;
    } else {
      var lost := finalized[TICK_CAP];
      NotLogged(rows, finalized[..TICK_CAP], KeyOf(lost));
      ProjectedGrows(rows, finalized);
      assert Stored(Projected(rows, finalized), lost);
    }
  }

  /** With repeated keys: a capped tick is complete exactly when all it left out was stored by then. */
  lemma CapLosesIffUnstored(rows: Rows, finalized: seq<Event>, processed: nat)
    requires processed == Min(|finalized|, TICK_CAP)
    ensures Projected(rows, finalized[..processed]) == Projected(rows, finalized) <==>
            forall e :: e in finalized[processed..] ==> Stored(Projected(rows, finalized[..processed]), e)
  {
    assert finalized == finalized[..processed] + finalized[processed..];
    ProjectedSplit(rows, finalized[..processed], finalized[processed..]);
    ReplayIsNoop(Projected(rows, finalized[..processed]), finalized[processed..]);
  }

  /** An event of its own transaction. */
  function EventOf(ledger: nat, i: nat): Event {
    Event(ledger, seq(i, _ => 'x'), "profile", "", None)
  }

  function ManyEvents(ledger: nat, n: nat): (events: seq<Event>)
    ensures |events| == n && DistinctKeys(events)
  {
    var events := seq(n, i requires 0 <= i < n => EventOf(ledger, i));
    assert forall i :: 0 <= i < n ==> events[i] == EventOf(ledger, i) && |KeyOf(events[i]).0| == i;
    events
  }

  /** A chain whose first ledger holds these events, then as many ledgers as finality needs. */
  function OneFullLedger(events: seq<Event>, depth: nat): Chain {
    [[], events] + seq(depth, _ => [])
  }

  lemma OneFullLedgerFinalized(events: seq<Event>, settings: Settings)
    requires settings.startLedger <= 1
    ensures var chain := OneFullLedger(events, settings.depth);
            && StartLedger(None, settings, |chain| - 1) == 1 == Ceiling(settings, chain)
            && Finalized(chain, 1, 1) == events && RowsOf(chain[..2], 1) == Projected(NO_ROWS, events)
  {
    var chain := OneFullLedger(events, settings.depth);
    assert chain[1..2] == [events] && [events][..0] == [];
    RowsOfPrefix(chain, 2, 1);
  }

  /** The first tick over a ledger with one event more than it can read loses one, and moves the cursor past it. */
  lemma OverfullTickLosesAnEvent(hash: Chain -> Hash, settings: Settings)
    requires settings.startLedger <= 1
    ensures var chain := OneFullLedger(ManyEvents(1, TICK_CAP + 1), settings.depth);
            var after := AfterTick(hash, settings, Track(FRESH, Past([], 1)), chain);
            after.s.cursor == Some(1) && !Exact(after.s, after.past)
  {
    var events := ManyEvents(1, TICK_CAP + 1);
    OneFullLedgerFinalized(events, settings);
    CapLosesIff(NO_ROWS, events);
  }

  // ---- Runs ----

  /** The tables, and what the proofs remember. */
  datatype Track = Track(s: Store, past: Past)

  /** What one tick does when the chain does not change under it. */
  function AfterTick(hash: Chain -> Hash, settings: Settings, t: Track, chain: Chain): Track {
    var start, ceiling := StartLedger(t.s.cursor, settings, |chain| - 1), Ceiling(settings, chain);
    if SeesReorg(hash, chain, t.s.checkpoints) then
      var fork := ForkOf(t.s.checkpoints, NewestMatch(hash, chain, t.s.checkpoints));
      Track(Reverted(t.s, fork), t.past.(hist := t.past.hist[..Min(fork + 1, |t.past.hist|)]))
    else if ceiling < start then t
    else
      Track(Ticked(hash, t.s, chain, start, ceiling, settings.lookback),
            PastAfter(t.s, t.past, chain, start, ceiling))
  }

  function Run(hash: Chain -> Hash, settings: Settings, t: Track, chains: seq<Chain>): Track {
    if chains == [] then t
    else AfterTick(hash, settings, Run(hash, settings, t, chains[..|chains| - 1]), chains[|chains| - 1])
  }

  /** The tick has no more events to project than its pages hold. */
  predicate Fits(settings: Settings, s: Store, chain: Chain) {
    var start, ceiling := StartLedger(s.cursor, settings, |chain| - 1), Ceiling(settings, chain);
    start <= ceiling ==> |Finalized(chain, start, ceiling)| <= TICK_CAP
  }

  /** Where both have ledgers they have the same ones; either may be the longer. */
  ghost predicate Compatible(a: Chain, b: Chain) {
    forall l :: 0 <= l < |a| && l < |b| ==> a[l] == b[l]
  }

  /** As far as it reaches, a later chain repeats all but the last `depth` ledgers of an earlier one. */
  ghost predicate AgreesBelow(before: Chain, after: Chain, depth: nat) {
    forall l :: 0 <= l < |before| - depth && l < |after| ==> after[l] == before[l]
  }

  /** No chain of the run reorganises an earlier one deeper than `depth`; heads may fall as well as rise. */
  ghost predicate ShallowReorgs(chains: seq<Chain>, depth: nat) {
    && (forall i :: 0 <= i < |chains| ==> WellFormed(chains[i], 0))
    && (forall i, j :: 0 <= i < j < |chains| ==> AgreesBelow(chains[i], chains[j], depth))
  }

  /** The history is all of the chain but its last `depth` ledgers. */
  ghost predicate FinalPart(hist: Chain, chain: Chain, depth: nat) {
    depth <= |chain| && hist == chain[..|chain| - depth]
  }

  /** Nothing was indexed since, or all that was is the final part of one chain of the run. */
  ghost predicate Indexed(was: Chain, hist: Chain, chains: seq<Chain>, depth: nat) {
    hist == was || exists i :: 0 <= i < |chains| && FinalPart(hist, chains[i], depth)
  }

  /** No tick of the run rolls back. */
  predicate NeverSeesReorg(hash: Chain -> Hash, settings: Settings, t: Track, chains: seq<Chain>) {
    chains == []
    || var front, last := chains[..|chains| - 1], chains[|chains| - 1];
       NeverSeesReorg(hash, settings, t, front)
       && !SeesReorg(hash, last, Run(hash, settings, t, front).s.checkpoints)
  }

  /** Every tick of the run fits its pages. */
  predicate AllFit(hash: Chain -> Hash, settings: Settings, t: Track, chains: seq<Chain>) {
    chains == []
    || var front, last := chains[..|chains| - 1], chains[|chains| - 1];
       AllFit(hash, settings, t, front) && Fits(settings, Run(hash, settings, t, front).s, last)
  }

  /** A tick on a chain that contradicts nothing indexed, shorter or longer, does not roll back. */
  lemma SettledTick(hash: Chain -> Hash, settings: Settings, t: Track, chain: Chain)
    requires Traced(hash, settings.lookback, t.s, t.past) && WellFormed(chain, 0) && Compatible(t.past.hist, chain)
    ensures !SeesReorg(hash, chain, t.s.checkpoints)
    ensures var after := AfterTick(hash, settings, t, chain);
            && Traced(hash, settings.lookback, after.s, after.past) && t.past.hist <= after.past.hist
            && Indexed(t.past.hist, after.past.hist, [chain], settings.depth)
            && (Exact(t.s, t.past) && Fits(settings, t.s, chain) ==> Exact(after.s, after.past))
  {
    forall i | 0 <= i < |t.s.checkpoints| && t.s.checkpoints[i].ledger < |chain|
      ensures Matches(hash, chain, t.s.checkpoints[i])
    {
      assert Holds(hash, t.past.hist, t.past.origin, t.s.checkpoints[i]);
      CompatiblePrefix(t.past.hist, chain, t.s.checkpoints[i].ledger + 1);
    }
    var start, ceiling := StartLedger(t.s.cursor, settings, |chain| - 1), Ceiling(settings, chain);
    if start <= ceiling {
      CompatiblePrefix(t.past.hist, chain, |t.past.hist|);
      assert t.past.hist[..|t.past.hist|] == t.past.hist;
      TickKeepsTrace(hash, settings.lookback, t.s, t.past, chain, start, ceiling);
      assert FinalPart(chain[..ceiling + 1], [chain][0], settings.depth);
      if Exact(t.s, t.past) && Fits(settings, t.s, chain) {
        AdvanceExactIff(hash, settings, t, chain);
      }
    }
  }

  lemma CompatiblePrefix(a: Chain, b: Chain, n: nat)
    requires Compatible(a, b) && n <= |a| && n <= |b|
    ensures a[..n] == b[..n]
  {
  }

  /** The rows after an advance within its pages, exactly, and for certain when nothing indexed was lost. */
  lemma AdvanceExactIff(hash: Chain -> Hash, settings: Settings, t: Track, chain: Chain)
    requires Traced(hash, settings.lookback, t.s, t.past) && Exact(t.s, t.past) && WellFormed(chain, 0)
    requires !SeesReorg(hash, chain, t.s.checkpoints) && Fits(settings, t.s, chain)
    requires StartLedger(t.s.cursor, settings, |chain| - 1) <= Ceiling(settings, chain)
    ensures var start, after := StartLedger(t.s.cursor, settings, |chain| - 1), AfterTick(hash, settings, t, chain);
            && (Exact(after.s, after.past) <==> t.s.rows == RowsOf(chain[..start], after.past.origin))
            && (t.past.hist <= chain ==> Exact(after.s, after.past))
  {
    var start, ceiling := StartLedger(t.s.cursor, settings, |chain| - 1), Ceiling(settings, chain);
    TickExactIff(t.s, t.past, chain, start, ceiling);
    var events := Finalized(chain, start, ceiling);
    assert events[..Min(|events|, TICK_CAP)] == events;
  }

  /**
   * However long the run, and whether heads rise or fall: while no chain reorganises an earlier one deeper than the
   * finality depth, no tick rolls back, capped or not.  What is indexed only grows, and is the final part of one of
   * the chains polled; if every tick fits its pages the rows stay exact.
   */
  lemma {:induction false} ShallowReorgsNeverRollBack(hash: Chain -> Hash, settings: Settings, t: Track,
                                                      chains: seq<Chain>)
    requires Traced(hash, settings.lookback, t.s, t.past) && ShallowReorgs(chains, settings.depth)
    requires forall i :: 0 <= i < |chains| ==> Compatible(t.past.hist, chains[i])
    ensures NeverSeesReorg(hash, settings, t, chains)
    ensures var end := Run(hash, settings, t, chains);
            && Traced(hash, settings.lookback, end.s, end.past) && t.past.hist <= end.past.hist
            && Indexed(t.past.hist, end.past.hist, chains, settings.depth)
            && (Exact(t.s, t.past) && AllFit(hash, settings, t, chains) ==> Exact(end.s, end.past))
  {
    if chains != [] {
      var front, last := chains[..|chains| - 1], chains[|chains| - 1];
      ShallowReorgsNeverRollBack(hash, settings, t, front);
      var mid := Run(hash, settings, t, front);
      IndexedIsCompatible(t.past.hist, mid.past.hist, front, last, settings.depth);
      SettledTick(hash, settings, mid, last);
      IndexedNext(t.past.hist, mid.past.hist, AfterTick(hash, settings, mid, last).past.hist, chains, settings.depth);
    }
  }

  lemma IndexedIsCompatible(was: Chain, hist: Chain, chains: seq<Chain>, next: Chain, depth: nat)
    requires Indexed(was, hist, chains, depth) && Compatible(was, next)
    requires forall i :: 0 <= i < |chains| ==> AgreesBelow(chains[i], next, depth)
    ensures Compatible(hist, next)
  {
  }

  lemma IndexedNext(was: Chain, hist: Chain, hist': Chain, chains: seq<Chain>, depth: nat)
    requires chains != [] && Indexed(was, hist, chains[..|chains| - 1], depth)
    requires Indexed(hist, hist', [chains[|chains| - 1]], depth)
    ensures Indexed(was, hist', chains, depth)
  {
    var front := chains[..|chains| - 1];
    if hist' == hist && hist != was {
      var i :| 0 <= i < |front| && FinalPart(hist, front[i], depth);
      assert FinalPart(hist', chains[i], depth);
    }
  }

  /** In particular from the first start on. */
  lemma FreshIndexerNeverRollsBack(hash: Chain -> Hash, settings: Settings, chains: seq<Chain>)
    requires ShallowReorgs(chains, settings.depth)
    ensures var start := Track(FRESH, Past([], 1));
            var end := Run(hash, settings, start, chains);
            && NeverSeesReorg(hash, settings, start, chains)
            && Indexed([], end.past.hist, chains, settings.depth)
            && (AllFit(hash, settings, start, chains) ==> Exact(end.s, end.past))
  {
    ShallowReorgsNeverRollBack(hash, settings, Track(FRESH, Past([], 1)), chains);
  }

  /** While heads do not fall it is enough that each chain agrees with the one before. */
  lemma {:induction false} StepwiseIsShallow(chains: seq<Chain>, depth: nat)
    requires forall i :: 0 <= i < |chains| ==> WellFormed(chains[i], 0)
    requires forall j :: 0 < j < |chains| ==>
               |chains[j - 1]| <= |chains[j]| && AgreesBelow(chains[j - 1], chains[j], depth)
    ensures ShallowReorgs(chains, depth)
    ensures forall i :: 0 <= i < |chains| ==> |chains[i]| <= |chains[|chains| - 1]|
  {
    if |chains| > 1 {
      var front, j := chains[..|chains| - 1], |chains| - 1;
      StepwiseIsShallow(front, depth);
      forall i | 0 <= i < j
        ensures AgreesBelow(chains[i], chains[j], depth) && |chains[i]| <= |chains[j]|
      {
        assert |front[i]| <= |front[j - 1]| && AgreesBelow(chains[j - 1], chains[j], depth);
        assert i < j - 1 ==> AgreesBelow(front[i], front[j - 1], depth);
      }
    }
  }

  // ---- Recovery ----

  /** After a rollback the next tick on the same chain reads on: one rollback is enough. */
  lemma OneRollbackIsEnough(hash: Chain -> Hash, settings: Settings, t: Track, chain: Chain)
    requires Traced(hash, settings.lookback, t.s, t.past) && SeesReorg(hash, chain, t.s.checkpoints)
    ensures !SeesReorg(hash, chain, AfterTick(hash, settings, t, chain).s.checkpoints)
  {
    var cps := t.s.checkpoints;
    var k := NewestMatch(hash, chain, cps);
    ForkIsIndexed(hash, cps, t.past, k);
    DeletedAboveIsSuffix(cps, ForkOf(cps, k), k);
  }

  /** Every tick on any chain keeps cursor and checkpoints in agreement, and exact rows exact if they are anchored. */
  lemma AnyTick(hash: Chain -> Hash, settings: Settings, t: Track, chain: Chain)
    requires CollisionFree(hash) && Traced(hash, settings.lookback, t.s, t.past) && WellFormed(chain, 0)
    ensures var after := AfterTick(hash, settings, t, chain);
            && Traced(hash, settings.lookback, after.s, after.past)
            && (Exact(t.s, t.past) && Fits(settings, t.s, chain) && Anchored(t, chain) ==> Exact(after.s, after.past))
  {
    hide CollisionFree, Exact, Fits, Flat, RowsOf, WellFormed, CheckpointsOk, Upserted, Truncated, DeletedAbove;
    var start, ceiling := StartLedger(t.s.cursor, settings, |chain| - 1), Ceiling(settings, chain);
    if SeesReorg(hash, chain, t.s.checkpoints) {
      RolledBack(hash, settings.lookback, t.s, t.past, NewestMatch(hash, chain, t.s.checkpoints));
    } else if start <= ceiling {
      NewestMatchIsOnChain(hash, t.s.checkpoints, t.past, chain);
      TickKeepsTrace(hash, settings.lookback, t.s, t.past, chain, start, ceiling);
      if Exact(t.s, t.past) && Fits(settings, t.s, chain) {
        AdvanceExactIff(hash, settings, t, chain);
      }
    }
  }

  /** A checkpoint is left to compare with the chain, or nothing indexed was lost from it. */
  ghost predicate Anchored(t: Track, chain: Chain) {
    t.s.checkpoints != [] || t.past.hist <= chain
  }

  ghost predicate AllAnchored(hash: Chain -> Hash, settings: Settings, t: Track, chains: seq<Chain>) {
    chains == []
    || var front, last := chains[..|chains| - 1], chains[|chains| - 1];
       AllAnchored(hash, settings, t, front) && Anchored(Run(hash, settings, t, front), last)
  }

  /** Over any chains whatever, deep reorgs and rollbacks included, anchored ticks within their pages stay exact. */
  lemma {:induction false} AnchoredRunIsExact(hash: Chain -> Hash, settings: Settings, t: Track, chains: seq<Chain>)
    requires CollisionFree(hash) && Traced(hash, settings.lookback, t.s, t.past)
    requires forall i :: 0 <= i < |chains| ==> WellFormed(chains[i], 0)
    ensures var end := Run(hash, settings, t, chains);
            && Traced(hash, settings.lookback, end.s, end.past)
            && (Exact(t.s, t.past) && AllFit(hash, settings, t, chains) && AllAnchored(hash, settings, t, chains) ==>
                  Exact(end.s, end.past))
  {
    if chains != [] {
      AnchoredRunIsExact(hash, settings, t, chains[..|chains| - 1]);
      AnyTick(hash, settings, Run(hash, settings, t, chains[..|chains| - 1]), chains[|chains| - 1]);
    }
  }

  lemma ForkOnChain(hash: Chain -> Hash, keep: nat, t: Track, chain: Chain, k: nat)
    requires CollisionFree(hash) && Traced(hash, keep, t.s, t.past)
    requires k == NewestMatch(hash, chain, t.s.checkpoints) < |t.s.checkpoints|
    ensures var fork := ForkOf(t.s.checkpoints, k);
            && fork == t.s.checkpoints[k].ledger < |chain| && fork < |t.past.hist|
            && t.past.hist[..fork + 1] == chain[..fork + 1]
  {
    NewestMatchIsOnChain(hash, t.s.checkpoints, t.past, chain);
    assert Holds(hash, t.past.hist, t.past.origin, t.s.checkpoints[k]);
    assert Matches(hash, chain, t.s.checkpoints[k]);
  }

  lemma ReorgTick(hash: Chain -> Hash, settings: Settings, t: Track, chain: Chain, fork: nat)
    requires SeesReorg(hash, chain, t.s.checkpoints) && fork < |t.past.hist|
    requires fork == ForkOf(t.s.checkpoints, NewestMatch(hash, chain, t.s.checkpoints))
    ensures AfterTick(hash, settings, t, chain) == Track(Reverted(t.s, fork), t.past.(hist := t.past.hist[..fork + 1]))
  {
  }

  /** A tick that rolls back keeps cursor and checkpoints in agreement, and exact rows exact. */
  lemma ReorgTickKeeps(hash: Chain -> Hash, settings: Settings, t: Track, chain: Chain)
    requires Traced(hash, settings.lookback, t.s, t.past) && SeesReorg(hash, chain, t.s.checkpoints)
    ensures var after := AfterTick(hash, settings, t, chain);
            && Traced(hash, settings.lookback, after.s, after.past)
            && (Exact(t.s, t.past) ==> Exact(after.s, after.past))
  {
    hide Traced, Exact, NewestMatch, Truncated, DeletedAbove;
    var k := NewestMatch(hash, chain, t.s.checkpoints);
    RolledBack(hash, settings.lookback, t.s, t.past, k);
    ReorgTick(hash, settings, t, chain, ForkOf(t.s.checkpoints, k));
  }

  /** A rollback to a matching checkpoint leaves what was indexed a part of the chain. */
  lemma RolledBackOnto(hash: Chain -> Hash, settings: Settings, t: Track, chain: Chain)
    requires CollisionFree(hash) && Traced(hash, settings.lookback, t.s, t.past)
    requires SeesReorg(hash, chain, t.s.checkpoints) && NewestMatch(hash, chain, t.s.checkpoints) < |t.s.checkpoints|
    ensures var fork := t.s.checkpoints[NewestMatch(hash, chain, t.s.checkpoints)].ledger;
            var after := AfterTick(hash, settings, t, chain);
            && fork < |chain| && after.past.hist == chain[..fork + 1] && after.s.cursor == Some(fork)
            && Traced(hash, settings.lookback, after.s, after.past)
            && (Exact(t.s, t.past) ==> Exact(after.s, after.past))
  {
    hide CollisionFree, Traced, Exact, SeesReorg, Truncated, DeletedAbove, AfterTick, ForkOf;
    var k := NewestMatch(hash, chain, t.s.checkpoints);
    ReorgTickKeeps(hash, settings, t, chain);
    ForkOnChain(hash, settings.lookback, t, chain, k);
    ReorgTick(hash, settings, t, chain, ForkOf(t.s.checkpoints, k));
  }

  /**
   * Recovery takes two ticks: however deep the reorg, if one checkpoint still matches, the tick after the rollback
   * leaves exactly this chain's rows, up to the finality ceiling unless the fork is above it.
   */
  lemma TwoTicksRecover(hash: Chain -> Hash, settings: Settings, t: Track, chain: Chain)
    requires CollisionFree(hash) && Traced(hash, settings.lookback, t.s, t.past) && WellFormed(chain, 0)
    requires Exact(t.s, t.past) && SeesReorg(hash, chain, t.s.checkpoints)
    requires NewestMatch(hash, chain, t.s.checkpoints) < |t.s.checkpoints|
    requires Fits(settings, AfterTick(hash, settings, t, chain).s, chain)
    ensures var fork := t.s.checkpoints[NewestMatch(hash, chain, t.s.checkpoints)].ledger;
            var end := AfterTick(hash, settings, AfterTick(hash, settings, t, chain), chain);
            && fork < |chain| && Exact(end.s, end.past)
            && end.past.hist == chain[..Max(fork, Ceiling(settings, chain)) + 1]
  {
    hide CollisionFree, WellFormed, Traced, Exact, NewestMatch, SeesReorg, Fits;
    RolledBackOnto(hash, settings, t, chain);
    OneRollbackIsEnough(hash, settings, t, chain);
    AnyTick(hash, settings, AfterTick(hash, settings, t, chain), chain);
  }

  class Poller {
    const hash: Chain -> Hash
    const settings: Settings
    var s: Store
    ghost var past: Past

    /** Cursor and checkpoints follow one history. */
    ghost predicate Valid()
      reads this
    {
      CollisionFree(hash) && Traced(hash, settings.lookback, s, past)
    }

    constructor (hash: Chain -> Hash, settings: Settings)
      requires CollisionFree(hash)
      ensures Valid() && this.hash == hash && this.settings == settings
      ensures s == FRESH && past == Past([], 1) && Exact(s, past)
    {
      this.hash, this.settings := hash, settings;
      s, past := FRESH, Past([], 1);
    }

    /** One transaction: rows above the fork, stale checkpoints, and the cursor. */
    method RollbackToLedger(fork: nat, ghost k: nat)
      requires Valid() && k <= |s.checkpoints| && s.checkpoints != [] && fork == ForkOf(s.checkpoints, k)
      modifies this
      ensures Valid() && fork < |old(past).hist| && past == old(past).(hist := old(past).hist[..fork + 1])
      ensures s == Reverted(old(s), fork) && (Exact(old(s), old(past)) ==> Exact(s, past))
    {
      hide CollisionFree, Traced, Exact, Truncated, DeletedAbove;
      RolledBack(hash, settings.lookback, s, past, k);
      s, past := Reverted(s, fork), past.(hist := past.hist[..fork + 1]);
    }

    /** Rolls back to the highest ledger that still matches; below every checkpoint when none does. */
    method CheckAndHandleReorg(chain: Chain) returns (handled: bool)
      requires Valid()
      modifies this
      ensures Valid() && handled == SeesReorg(hash, chain, old(s).checkpoints)
      ensures !handled ==> s == old(s) && past == old(past)
      ensures !handled && s.checkpoints != [] && |past.hist| <= |chain| ==> past.hist <= chain
      ensures handled ==> Track(s, past) == AfterTick(hash, settings, Track(old(s), old(past)), chain)
      ensures handled && NewestMatch(hash, chain, old(s).checkpoints) < |old(s).checkpoints| ==> past.hist <= chain
      ensures Exact(old(s), old(past)) ==> Exact(s, past)
    {
      handled := false;
      if settings.lookback > 0 && |s.checkpoints| > 0 {
        var d := DetectReorg(hash, chain, s.checkpoints);
        hide CollisionFree, Exact, Truncated, DeletedAbove;
        NewestMatchIsOnChain(hash, s.checkpoints, past, chain);
        if d.reorged {
          hide Traced;
          RollbackToLedger(d.forkLedger.value, NewestMatch(hash, chain, s.checkpoints));
          handled := true;
        }
      }
    }

    /** Projects the finalized events of one page. */
    method ProjectPage(page: seq<Event>, ceiling: int, ghost finalized: nat) returns (taken: nat, maxSeen: int)
      requires -1 <= ceiling && finalized <= |page| && GatedAt(page, finalized, ceiling)
      modifies this
      ensures past == old(past) && taken == finalized
      ensures s == old(s).(rows := Projected(old(s).rows, page[..taken]))
      ensures FirstWins(old(s).rows, s.rows, page[..taken])
      ensures maxSeen <= ceiling
    {
      ProjectedIsFirstWins(s.rows, page[..finalized]);
      taken, maxSeen := 0, -1;
      for i := 0 to |page|
        invariant taken == Min(finalized, i)
        invariant past == old(past) && s == old(s).(rows := Projected(old(s).rows, page[..taken]))
        invariant maxSeen <= ceiling
      {
        if page[i].ledger <= ceiling {
          assert page[..taken + 1][..taken] == page[..taken];
          s := s.(rows := Recorded(s.rows, page[i]));
          taken, maxSeen := taken + 1, Max(maxSeen, page[i].ledger);
        }
      }
    }

    /** Projects the finalized part of the stream page by page, as far as one tick may go. */
    method ProjectPages(stream: seq<Event>, start: nat, ceiling: int, ghost finalized: nat)
      returns (processed: nat, maxSeen: int)
      requires start <= ceiling + 1 && finalized <= |stream| && GatedAt(stream, finalized, ceiling)
      modifies this
      ensures past == old(past) && processed == Min(finalized, TICK_CAP) && maxSeen <= ceiling
      ensures s == old(s).(rows := Projected(old(s).rows, stream[..processed]))
      ensures FirstWins(old(s).rows, s.rows, stream[..processed])
    {
      ProjectedIsFirstWins(s.rows, stream[..Min(finalized, TICK_CAP)]);
      assert stream[..0] == [] && Projected(s.rows, []) == s.rows;
      hide Projected, FirstWins, Recorded, GatedAt, Page, NoneUpTo;
      ghost var store := s;
      var page, skipped, stop := 0, 0, false;
      processed, maxSeen := 0, start - 1;
      while page < MAX_PAGES_PER_TICK && !stop
        invariant processed == Min(finalized, EVENTS_PAGE_SIZE * page) && page <= MAX_PAGES_PER_TICK
        invariant stop ==> processed == finalized
        invariant past == old(past) && s == store.(rows := Projected(store.rows, stream[..processed]))
        invariant maxSeen <= ceiling
      {
        // the paging token is the position after the last projected event
        var events := Page(stream, processed);
        ghost var here := PageTaken(store.rows, stream, finalized, ceiling, processed, page);
        var taken, last := ProjectPage(events, ceiling, here);
        skipped := skipped + |events| - taken;
        processed, maxSeen := processed + taken, Max(maxSeen, last);
        stop := |events| == 0 || (0 < skipped && processed == 0 && NoneUpTo(events, ceiling));
        page := page + 1;
      }
    }

    /** The second half of a tick: reads the finalized ledgers, moves the cursor and stores a checkpoint. */
    method Advance(chain: Chain, start: nat, ceiling: nat) returns (processed: nat)
      requires Valid() && WellFormed(chain, 0) && (s.checkpoints == [] || past.hist <= chain)
      requires !SeesReorg(hash, chain, s.checkpoints)
      requires StartLedger(s.cursor, settings, |chain| - 1) == start <= ceiling == Ceiling(settings, chain)
      modifies this
      ensures Valid() && processed == Min(|Finalized(chain, start, ceiling)|, TICK_CAP)
      ensures ReadOn(hash, settings, old(s), s, chain, Advanced(start, ceiling, processed))
      ensures s == Ticked(hash, old(s), chain, start, ceiling, settings.lookback)
      ensures past == PastAfter(old(s), old(past), chain, start, ceiling)
      ensures Track(s, past) == AfterTick(hash, settings, Track(old(s), old(past)), chain)
      ensures Exact(old(s), old(past)) && Fits(settings, old(s), chain) ==>
                && (Exact(s, past) <==> old(s).rows == RowsOf(chain[..start], past.origin))
                && (old(past).hist <= chain ==> Exact(s, past))
    {
      hide Traced, Exact, Fits, Flat, FirstWins, ReadOn, SeesReorg, GatedAt, WellFormed, RowsOf, Upserted,
           CollisionFree;
      TickKeepsTrace(hash, settings.lookback, s, past, chain, start, ceiling);
      TickReadsOn(hash, settings, s, past, chain, start, ceiling);
      if Exact(s, past) && Fits(settings, s, chain) {
        AdvanceExactIff(hash, settings, Track(s, past), chain);
      }
      StreamOfTick(chain, start, ceiling);
      var maxSeen;
      processed, maxSeen := ProjectPages(Flat(chain[start..]), start, ceiling, |Finalized(chain, start, ceiling)|);
      assert Flat(chain[start..])[..processed] == Finalized(chain, start, ceiling)[..processed];
      var next := Max(maxSeen, ceiling);
      var nextHash := LedgerHash(hash, chain, next);
      s := s.(cursor := Some(next),
              checkpoints := Pruned(Upserted(s.checkpoints, Checkpoint(next, nextHash.value)), settings.lookback));
      past := PastAfter(old(s), past, chain, start, ceiling);
    }

    /**
     * One tick on an unchanging chain.  It rolls back, waits for finality, or advances the cursor to exactly
     * `depth` ledgers behind the head.  Capped or not, the next tick can trust the checkpoints.  A tick within
     * its pages leaves this chain's rows exactly when the rows below its first ledger were this chain's before,
     * which is certain when a checkpoint was there to compare.
     */
    method PollOnce(chain: Chain) returns (outcome: Outcome)
      requires Valid() && WellFormed(chain, 0)
      modifies this
      ensures Valid() && Track(s, past) == AfterTick(hash, settings, Track(old(s), old(past)), chain)
      ensures outcome.RolledBackTo? <==> SeesReorg(hash, chain, old(s).checkpoints)
      ensures outcome.RolledBackTo? ==> s.cursor == Some(outcome.fork) && (Exact(old(s), old(past)) ==> Exact(s, past))
      ensures outcome.RolledBackTo? ==>
                var k := NewestMatch(hash, chain, old(s).checkpoints);
                && old(s).checkpoints != []
                && outcome.fork == if k < |old(s).checkpoints| then old(s).checkpoints[k].ledger
                                   else Max(0, old(s).checkpoints[|old(s).checkpoints| - 1].ledger - 1)
      ensures outcome.Waiting? ==> s == old(s) && past == old(past)
      ensures outcome.Advanced? ==>
                && outcome.from == StartLedger(old(s).cursor, settings, |chain| - 1) <= outcome.to
                && ReadOn(hash, settings, old(s), s, chain, outcome) && past.hist == chain[..outcome.to + 1]
      ensures outcome.Advanced? && Exact(old(s), old(past)) && Fits(settings, old(s), chain) ==>
                && (Exact(s, past) <==> old(s).rows == RowsOf(chain[..outcome.from], past.origin))
                && (old(s).checkpoints != [] || old(past).hist <= chain ==> Exact(s, past))
      ensures Exact(s, past) && past.origin <= |past.hist| ==>
                FirstWins(NO_ROWS, s.rows, Flat(past.hist[past.origin..]))
    {
      hide Exact, Flat, FirstWins, ReadOn, WellFormed, RowsOf, CollisionFree, Upserted, NewestMatch;
      var handled := CheckAndHandleReorg(chain);
      if handled {
        outcome := RolledBackTo(s.cursor.value);
      } else {
        var head := |chain| - 1;
        var start, ceiling := StartLedger(s.cursor, settings, head), head - settings.depth;
        if ceiling < start {
          outcome := Waiting;
        } else {
          var processed := Advance(chain, start, ceiling);
          outcome := Advanced(start, ceiling, processed);
        }
      }
      if past.origin <= |past.hist| {
        ExactIffFirstWins(s, past);
      }
    }
  }
}
