/** Concurrent runs of the subscription-charge worker on one subscription row: claims, dunning, and resets. */
module ChargeWorker {
  import opened Prelude

  /** Milliseconds. */
  type Time = int

  const DAY_MS := 24 * 60 * 60 * 1000
  const CHARGE_CLAIM_TTL_MS := 15 * 60 * 1000
  const DUNNING_RETRY_DAYS := [1, 3, 7]

  datatype Status = Active | PastDue | Failed | Cancelled

  datatype Row = Row(status: Status, nextChargeAt: Time, failures: nat, dunningStart: Option<Time>,
                     retryAt: Option<Time>, claim: Option<Time>)

  /** One, three or seven days after dunning began; nothing after the third failure. */
  function NextDunningRetryAt(start: Time, failures: nat): Option<Time> {
    if 1 <= failures <= |DUNNING_RETRY_DAYS| then Some(start + DUNNING_RETRY_DAYS[failures - 1] * DAY_MS) else None
  }

  /** What the query for due subscriptions selects: due, and unclaimed or claimed at least 15 minutes ago. */
  predicate Due(row: Row, now: Time) {
    && match row.status {
         case Active => row.nextChargeAt <= now
         case PastDue => row.retryAt.Some? && row.retryAt.value <= now
         case _ => false
       }
    && (row.claim.None? || row.claim.value <= now - CHARGE_CLAIM_TTL_MS)
  }

  /** The compare-and-set of a claim against the row as it was found. */
  predicate SameAsFound(row: Row, found: Row) {
    && row.status == found.status && row.failures == found.failures && row.claim == found.claim
    && if found.status.Active? then row.nextChargeAt == found.nextChargeAt else row.retryAt == found.retryAt
  }

  /** The compare-and-set of a failure: the status as found, and the claim this run's clock wrote. */
  predicate ClaimStands(row: Row, found: Row, now: Time) {
    row.status == found.status && row.claim == Some(now)
  }

  function FailedRow(row: Row, found: Row, now: Time, retryable: bool): Row {
    var failures := found.failures + 1;
    var start := if found.dunningStart.Some? then found.dunningStart.value else now;
    var retryAt := if retryable then NextDunningRetryAt(start, failures) else None;
    row.(status := if retryAt.None? then Failed else PastDue, failures := failures, dunningStart := Some(start),
         retryAt := retryAt, claim := None)
  }

  /** A confirmed charge or a new subscription clears every trace of dunning. */
  function Reset(row: Row, nextChargeAt: Time): Row {
    Row(Active, nextChargeAt, 0, None, None, None)
  }

  function CancelledRow(row: Row): Row {
    row.(status := Cancelled, retryAt := None, claim := None)
  }

  // ---- Runs and their interleavings ----

  /** How far one run is with this row. */
  datatype Run = Idle | Found(row: Row) | Charging(row: Row) | Done

  datatype Event =
    | Find(run: nat)
    | Claim(run: nat)
    | Fail(run: nat, retryable: bool)
    | Finish(run: nat)              // the charge went through, or the run died
    | Activate(nextChargeAt: Time)
    | Cancel

  /** One counted failure: whose it is, and who held the claim when it was counted. */
  datatype Count = Count(run: nat, holder: Option<nat>)

  /** `holder` is the run whose claim the row carries; `sinceReset` counts failures since the last reset. */
  datatype State = State(row: Row, runs: map<nat, Run>, holder: Option<nat>, sinceReset: nat, log: seq<Count>)

  function RunOf(st: State, run: nat): Run {
    if run in st.runs then st.runs[run] else Idle
  }

  /** One atomic database step, or an outside event.  A step that does not apply changes nothing. */
  function Step(clock: nat -> Time, st: State, e: Event): State {
    match e
    case Find(r) =>
      if RunOf(st, r).Idle? && Due(st.row, clock(r)) then st.(runs := st.runs[r := Found(st.row)]) else st
    case Claim(r) =>
      if !RunOf(st, r).Found? then st
      else if SameAsFound(st.row, RunOf(st, r).row)
      then st.(row := st.row.(claim := Some(clock(r))), runs := st.runs[r := Charging(RunOf(st, r).row)],
               holder := Some(r))
      else st.(runs := st.runs[r := Done])
    case Fail(r, retryable) =>
      if !RunOf(st, r).Charging? then st
      else if ClaimStands(st.row, RunOf(st, r).row, clock(r))
      then State(FailedRow(st.row, RunOf(st, r).row, clock(r), retryable), st.runs[r := Done], None,
                 st.sinceReset + 1, st.log + [Count(r, st.holder)])
      else st.(runs := st.runs[r := Done])
    case Finish(r) =>
      st.(runs := st.runs[r := Done])
    case Activate(nextChargeAt) =>
      st.(row := Reset(st.row, nextChargeAt), holder := None, sinceReset := 0)
    case Cancel =>
      st.(row := CancelledRow(st.row), holder := None)
  }

  function Steps(clock: nat -> Time, st: State, events: seq<Event>): State {
    if events == [] then st
    else Step(clock, Steps(clock, st, events[..|events| - 1]), events[|events| - 1])
  }

  function Start(nextChargeAt: Time): State {
    State(Row(Active, nextChargeAt, 0, None, None, None), map[], None, 0, [])
  }

  // ---- What holds under any clocks ----

  /** PAST_DUE means one to three failures and a retry 1, 3 or 7 days after dunning began. */
  predicate RowOk(row: Row) {
    match row.status
    case Active => row.failures == 0 && row.dunningStart.None? && row.retryAt.None?
    case PastDue => 1 <= row.failures <= 3 && row.dunningStart.Some? && row.retryAt.Some?
                    && row.retryAt.value - row.dunningStart.value
                       == (if row.failures == 1 then 1 else if row.failures == 2 then 3 else 7) * 86_400_000
    case Failed => 1 <= row.failures <= 4 && row.retryAt.None? && row.claim.None?
    case Cancelled => row.retryAt.None? && row.claim.None?
  }

  /** A run only ever took a row that was due by its own clock. */
  predicate PhaseOk(run: Run, now: Time) {
    (run.Found? || run.Charging?) ==> RowOk(run.row) && Due(run.row, now)
  }

  /** The claim on the row is the holder's clock. */
  predicate HolderOk(clock: nat -> Time, st: State) {
    st.row.claim == if st.holder.None? then None else Some(clock(st.holder.value))
  }

  ghost predicate StateOk(clock: nat -> Time, st: State) {
    && RowOk(st.row)
    && HolderOk(clock, st)
    && forall r :: r in st.runs ==> PhaseOk(st.runs[r], clock(r))
  }

  lemma StepKeepsState(clock: nat -> Time, st: State, e: Event)
    requires StateOk(clock, st)
    ensures StateOk(clock, Step(clock, st, e))
  {
  }

  lemma {:induction false} StateOkAlways(clock: nat -> Time, nextChargeAt: Time, events: seq<Event>)
    ensures StateOk(clock, Steps(clock, Start(nextChargeAt), events))
  {
    if events != [] {
      StateOkAlways(clock, nextChargeAt, events[..|events| - 1]);
      StepKeepsState(clock, Steps(clock, Start(nextChargeAt), events[..|events| - 1]), events[|events| - 1]);
    }
  }

  /** An idle run finds the row exactly when its date has come and no claim of the last 15 minutes is on it. */
  lemma FindsIffDue(clock: nat -> Time, st: State, r: nat)
    requires RunOf(st, r).Idle?
    ensures RunOf(Step(clock, st, Find(r)), r) == Found(st.row) <==>
              && (st.row.claim.None? || st.row.claim.value + 15 * 60_000 <= clock(r))
              && ((st.row.status.Active? && st.row.nextChargeAt <= clock(r))
                  || (st.row.status.PastDue? && st.row.retryAt.Some? && st.row.retryAt.value <= clock(r)))
  {
  }

  /** Neither a failed nor a cancelled row is ever moved again, except by a new activation or a cancellation. */
  lemma OverIsOver(clock: nat -> Time, nextChargeAt: Time, events: seq<Event>, e: Event)
    ensures var st := Steps(clock, Start(nextChargeAt), events);
            && Step(clock, st, Cancel).row.status.Cancelled?
            && (st.row.status.Failed? || st.row.status.Cancelled? ==>
                  e.Activate? || e.Cancel? || Step(clock, st, e).row == st.row)
  {
    StateOkAlways(clock, nextChargeAt, events);
    var st := Steps(clock, Start(nextChargeAt), events);
    assert e.Claim? && e.run in st.runs ==> PhaseOk(st.runs[e.run], clock(e.run));
  }

  /** In any run: a claim is overwritten only 15 minutes after it, and only on a row whose date has come. */
  lemma TakeoverIsLate(clock: nat -> Time, nextChargeAt: Time, events: seq<Event>, r: nat)
    ensures var st := Steps(clock, Start(nextChargeAt), events);
            var after := Step(clock, st, Claim(r));
            after.row != st.row || after.holder != st.holder ==>
              && (st.row.claim.Some? ==> st.row.claim.value + 15 * 60_000 <= clock(r))
              && match st.row.status
                 case Active => st.row.nextChargeAt <= clock(r)
                 case PastDue => st.row.retryAt.Some? && st.row.retryAt.value <= clock(r)
                 case _ => false
  {
    StateOkAlways(clock, nextChargeAt, events);
    var st := Steps(clock, Start(nextChargeAt), events);
    assert r in st.runs ==> PhaseOk(st.runs[r], clock(r));
  }

  // ---- What needs clocks that differ from run to run ----

  predicate Own(c: Count) {
    c.holder == Some(c.run)
  }

  ghost predicate OwnFailures(st: State) {
    forall i :: 0 <= i < |st.log| ==> Own(st.log[i])
  }

  ghost predicate DistinctClocks(clock: nat -> Time) {
    forall a, b :: clock(a) == clock(b) ==> a == b
  }

  /** While a run holds the claim nobody else moves the dunning state, so its failure is the next one. */
  ghost predicate Exclusive(st: State) {
    && OwnFailures(st)
    && (!st.row.status.Cancelled? ==> st.sinceReset == st.row.failures <= 4)
    && (st.holder.Some? && RunOf(st, st.holder.value).Charging? ==>
          var found := RunOf(st, st.holder.value).row;
          && st.row.status == found.status && st.row.failures == found.failures
          && st.row.dunningStart == found.dunningStart)
  }

  lemma StepKeepsExclusive(clock: nat -> Time, st: State, e: Event)
    requires DistinctClocks(clock) && StateOk(clock, st) && Exclusive(st)
    ensures Exclusive(Step(clock, st, e))
  {
    if e.Fail? && RunOf(st, e.run).Charging? && ClaimStands(st.row, RunOf(st, e.run).row, clock(e.run)) {
      assert clock(st.holder.value) == clock(e.run);
    }
  }

  /** With distinct clocks the row counts every failure since the reset, and the fourth one is terminal. */
  lemma {:induction false} FailuresAreCounted(clock: nat -> Time, nextChargeAt: Time, events: seq<Event>)
    requires DistinctClocks(clock)
    ensures var st := Steps(clock, Start(nextChargeAt), events);
            Exclusive(st) && (!st.row.status.Cancelled? && 4 <= st.sinceReset ==> st.row.status.Failed?)
  {
    StateOkAlways(clock, nextChargeAt, events);
    if events != [] {
      FailuresAreCounted(clock, nextChargeAt, events[..|events| - 1]);
      StateOkAlways(clock, nextChargeAt, events[..|events| - 1]);
      StepKeepsExclusive(clock, Steps(clock, Start(nextChargeAt), events[..|events| - 1]), events[|events| - 1]);
    }
  }

  /** Two runs with one clock value: the first one's failure is counted against the second one's claim. */
  function SharedClockRun(a: nat, b: nat, now: Time): seq<Event> {
    [Activate(now), Find(a), Claim(a), Activate(now), Find(b), Claim(b), Fail(a, true)]
  }

  lemma SharedClockBreaks(clock: nat -> Time, nextChargeAt: Time, a: nat, b: nat)
    requires a != b && clock(a) == clock(b)
    ensures var st := Steps(clock, Start(nextChargeAt), SharedClockRun(a, b, clock(a)));
            st.log == [Count(a, Some(b))] && !OwnFailures(st)
  {
    var es := SharedClockRun(a, b, clock(a));
    var s6 := Steps(clock, Start(nextChargeAt), es[..6]);
    BothClaimed(clock, nextChargeAt, a, b);
    StepsPrefix(clock, Start(nextChargeAt), es, 6);
    assert es[..7] == es;
    assert !Own(Step(clock, s6, es[6]).log[0]);
  }

  lemma FirstClaimed(clock: nat -> Time, nextChargeAt: Time, a: nat, b: nat)
    ensures var es := SharedClockRun(a, b, clock(a));
            Steps(clock, Start(nextChargeAt), es[..3]) == State(
              Row(Active, clock(a), 0, None, None, Some(clock(a))),
              map[a := Charging(Row(Active, clock(a), 0, None, None, None))], Some(a), 0, [])
  {
    var es, s0 := SharedClockRun(a, b, clock(a)), Start(nextChargeAt);
    StepsPrefix(clock, s0, es, 0);
    StepsPrefix(clock, s0, es, 1);
    StepsPrefix(clock, s0, es, 2);
    var due := Row(Active, clock(a), 0, None, None, None);
    assert map[a := Found(due)][a := Charging(due)] == map[a := Charging(due)];
  }

  lemma BothClaimed(clock: nat -> Time, nextChargeAt: Time, a: nat, b: nat)
    requires a != b && clock(a) == clock(b)
    ensures var s := Steps(clock, Start(nextChargeAt), SharedClockRun(a, b, clock(a))[..6]);
            && s.row == Row(Active, clock(a), 0, None, None, Some(clock(a))) && s.log == [] && s.holder == Some(b)
            && RunOf(s, a) == Charging(Row(Active, clock(a), 0, None, None, None))
  {
    var es, s0 := SharedClockRun(a, b, clock(a)), Start(nextChargeAt);
    FirstClaimed(clock, nextChargeAt, a, b);
    StepsPrefix(clock, s0, es, 3);
    StepsPrefix(clock, s0, es, 4);
    StepsPrefix(clock, s0, es, 5);
  }

  lemma StepsPrefix(clock: nat -> Time, st: State, events: seq<Event>, k: nat)
    requires k < |events|
    ensures Steps(clock, st, events[..k + 1]) == Step(clock, Steps(clock, st, events[..k]), events[k])
  {
    assert events[..k + 1][..k] == events[..k];
  }

  /** Every counted failure belongs to the claim still held, in all interleavings, exactly when clocks differ. */
  lemma OwnFailuresIffDistinctClocks(clock: nat -> Time, nextChargeAt: Time)
    ensures DistinctClocks(clock) <==>
            forall events :: OwnFailures(Steps(clock, Start(nextChargeAt), events))
  {
    if DistinctClocks(clock) {
      forall events
        ensures OwnFailures(Steps(clock, Start(nextChargeAt), events))
      {
        FailuresAreCounted(clock, nextChargeAt, events);
      }
    } else {
      var a, b :| clock(a) == clock(b) && a != b;
      SharedClockBreaks(clock, nextChargeAt, a, b);
    }
  }

  // ---- One run over the table ----

  /** What one undisturbed run does to a row; `failure` says whether a failed charge may be retried. */
  function AfterRun(row: Row, now: Time, failure: Option<bool>): Row {
    if !Due(row, now) then row
    else if failure.None? then row.(claim := Some(now))
    else FailedRow(row.(claim := Some(now)), row, now, failure.value)
  }

  function FailureOf(failures: map<string, bool>, id: string): Option<bool> {
    if id in failures then Some(failures[id]) else None
  }

  /** The same in the row's own dates: who is charged, and what becomes of a row that is not. */
  lemma AfterRunIs(row: Row, now: Time, failure: Option<bool>)
    ensures AfterRun(row, now, failure) ==
            if (row.claim.None? || row.claim.value + 15 * 60_000 <= now)
               && ((row.status.Active? && row.nextChargeAt <= now)
                   || (row.status.PastDue? && row.retryAt.Some? && row.retryAt.value <= now))
            then if failure.None? then row.(claim := Some(now))
                 else FailedRow(row.(claim := Some(now)), row, now, failure.value)
            else row
  {
  }

  function FailedOf(ids: seq<string>, failures: map<string, bool>): set<string> {
    set id | id in ids && id in failures
  }

  lemma FailedOneMore(ids: seq<string>, failures: map<string, bool>, i: nat)
    requires i < |ids| && ids[i] !in ids[..i]
    ensures |FailedOf(ids[..i + 1], failures)| == |FailedOf(ids[..i], failures)| + if ids[i] in failures then 1 else 0
  {
    assert FailedOf(ids[..i + 1], failures)
        == FailedOf(ids[..i], failures) + if ids[i] in failures then {ids[i]} else {};
  }

  class ChargeTable {
    var rows: map<string, Row>

    constructor (rows: map<string, Row>)
      ensures this.rows == rows
    {
      this.rows := rows;
    }

    method ClaimSubscription(id: string, found: Row, now: Time) returns (won: bool)
      modifies this
      ensures won <==> id in old(rows) && SameAsFound(old(rows)[id], found)
      ensures rows == if won then old(rows)[id := old(rows)[id].(claim := Some(now))] else old(rows)
    {
      won := id in rows && SameAsFound(rows[id], found);
      if won {
        rows := rows[id := rows[id].(claim := Some(now))];
      }
    }

    method PersistFailure(id: string, found: Row, now: Time, retryable: bool) returns (persisted: bool, terminal: bool)
      modifies this
      ensures persisted <==> id in old(rows) && ClaimStands(old(rows)[id], found, now)
      ensures rows == if persisted then old(rows)[id := FailedRow(old(rows)[id], found, now, retryable)] else old(rows)
      ensures persisted ==>
                && id in rows && rows[id].failures == found.failures + 1 && rows[id].claim.None?
                && rows[id].dunningStart == Some(if found.dunningStart.Some? then found.dunningStart.value else now)
                && rows[id].nextChargeAt == old(rows)[id].nextChargeAt
                && if !retryable || found.failures >= 3 then rows[id].status.Failed? && rows[id].retryAt.None?
                   else rows[id].status.PastDue?
                        && rows[id].retryAt == Some(rows[id].dunningStart.value
                             + (if found.failures == 0 then 1 else if found.failures == 1 then 3 else 7) * 86_400_000)
      ensures persisted ==> (terminal <==> rows[id].status.Failed?)
      ensures RowOk(found) && found.status.Active? ==> (terminal <==> !retryable)
      ensures RowOk(found) && found.status.PastDue? ==> (terminal <==> !retryable || found.failures == 3)
    {
      var failures := found.failures + 1;
      var start := if found.dunningStart.Some? then found.dunningStart.value else now;
      var retryAt := if retryable then NextDunningRetryAt(start, failures) else None;
      terminal := !retryable || retryAt.None?;
      persisted := id in rows && ClaimStands(rows[id], found, now);
      if persisted {
        rows := rows[id := rows[id].(status := if terminal then Failed else PastDue, failures := failures,
                                     dunningStart := Some(start), retryAt := retryAt, claim := None)];
      }
    }

    /**
     * A run nobody interferes with: every due row is charged exactly once, in the order `due` they were found,
     * and no other row changes.
     */
    method ProcessDueSubscriptions(now: Time, due: seq<string>, failures: map<string, bool>)
      returns (processed: nat, failed: nat)
      requires forall i, j :: 0 <= i < j < |due| ==> due[i] != due[j]
      requires forall id :: id in due <==> id in rows && Due(rows[id], now)
      modifies this
      ensures rows == map id | id in old(rows) :: AfterRun(old(rows)[id], now, FailureOf(failures, id))
      ensures forall id :: id in old(rows) ==>
                var was := old(rows)[id];
                if (was.claim.None? || was.claim.value + 15 * 60_000 <= now)
                   && ((was.status.Active? && was.nextChargeAt <= now)
                       || (was.status.PastDue? && was.retryAt.Some? && was.retryAt.value <= now))
                then rows[id] == (if id !in failures then was.(claim := Some(now))
                                  else FailedRow(was.(claim := Some(now)), was, now, failures[id]))
                else rows[id] == was
      ensures processed + failed == |due| && failed == |FailedOf(due, failures)|
    {
      var found := rows;
      processed, failed := 0, 0;
      assert due[..|due|] == due;
      for i := 0 to |due|
        invariant processed + failed == i && failed == |FailedOf(due[..i], failures)|
        invariant rows.Keys == found.Keys
        invariant forall id :: id in found && id !in due[..i] ==> rows[id] == found[id]
        invariant forall id :: id in due[..i] ==> rows[id] == AfterRun(found[id], now, FailureOf(failures, id))
      {
        var id := due[i];
        assert id !in due[..i] && id in found;
        FailedOneMore(due, failures, i);
        var won := ClaimSubscription(id, found[id], now);
        if won {
          if id in failures {
            failed := failed + 1;
            var persisted, terminal := PersistFailure(id, found[id], now, failures[id]);
          } else {
            processed := processed + 1;
          }
        }
      }
      forall id | id in found {
        AfterRunIs(found[id], now, FailureOf(failures, id));
      }
    }
  }
}
