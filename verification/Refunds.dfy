/** Refund requests: expiring records, the dense index of pending requests, and the sweeps over it. */
module Refunds {
  import opened Prelude
  import opened Ledger
  import opened Sums

  const TIP_TTL_LEDGERS := 120_960
  const MAX_BATCH := 50

  /** Ledger time and ledger number of one call. */
  datatype Env = Env(timestamp: u64, sequence: u32)

  datatype Config = Config(requestWindowSecs: u64, responseWindowSecs: u64, feeBps: u32, requestTtlLedgers: u32)

  datatype Status = Pending | Approved | Rejected | AutoApproved

  /** A stored tip; the host forgets it after ledger `liveUntil`. */
  datatype TipRecord = TipRecord(sender: Address, creator: Address, amount: int, timestamp: nat, liveUntil: nat)

  datatype Request = Request(tipper: Address, creator: Address, amount: int, requestedAt: nat, status: Status,
                             processedAt: Option<nat>, refundAmount: int, keptFee: int, liveUntil: nat)

  predicate Stored(requests: map<nat, Request>, id: nat, sequence: nat) {
    id in requests && sequence <= requests[id].liveUntil
  }

  function Elapsed(now: nat, since: nat): nat {
    if now < since then 0 else now - since
  }

  predicate Due(requests: map<nat, Request>, id: nat, env: Env, c: Config) {
    && Stored(requests, id, env.sequence) && requests[id].status == Pending
    && c.responseWindowSecs <= Elapsed(env.timestamp, requests[id].requestedAt)
  }

  /** The age of a request as the code takes it: the ledger number less the truncated request time. */
  predicate Expirable(requests: map<nat, Request>, id: nat, env: Env, c: Config) {
    && Stored(requests, id, env.sequence) && requests[id].status == Pending
    && c.requestTtlLedgers <= Elapsed(env.sequence, requests[id].requestedAt % (U32_MAX + 1))
  }

  /**
   * A request expires when the ledger number has overtaken the time of the request by the lifetime, and so never
   * while ledger numbers are smaller than timestamps in seconds.
   */
  lemma ExpirableIff(requests: map<nat, Request>, id: nat, env: Env, c: Config)
    requires 0 < c.requestTtlLedgers
    ensures Expirable(requests, id, env, c) <==>
              && id in requests && env.sequence <= requests[id].liveUntil && requests[id].status == Pending
              && requests[id].requestedAt % 0x1_0000_0000 + c.requestTtlLedgers <= env.sequence
    ensures Expirable(requests, id, env, c) ==> requests[id].requestedAt % (U32_MAX + 1) < env.sequence
  {
  }

  /** The response window is over: when a stored pending request is due, in its own fields. */
  lemma DueIff(requests: map<nat, Request>, id: nat, env: Env, c: Config)
    ensures Due(requests, id, env, c) <==>
              && id in requests && env.sequence <= requests[id].liveUntil && requests[id].status == Pending
              && (c.responseWindowSecs == 0 || requests[id].requestedAt + c.responseWindowSecs <= env.timestamp)
  {
  }

  /** The fee kept from a refund, rounded down. */
  function KeptFee(amount: int, feeBps: u32): (r: Result<int, ContractError>)
    requires 0 <= amount
    ensures r.Ok? <==> amount * feeBps <= I128_MAX
    ensures r.Ok? ==> 0 <= r.value && 10_000 * r.value <= amount * feeBps < 10_000 * (r.value + 1)
  {
    if amount * feeBps > I128_MAX then Err(OverflowError) else Ok(amount * feeBps / 10_000)
  }

  /** The payout of a decided request goes through. */
  predicate CanPay(book: Book, self: Address, q: Request) {
    q.creator in book.profiles && 0 < q.refundAmount <= Wallet(book.wallets, self)
  }

  /** What a payout does to the book, seen from the other requests. */
  predicate Paid(was: Book, book: Book, self: Address, q: Request) {
    book.profiles.Keys == was.profiles.Keys
    && Wallet(book.wallets, self) == Wallet(was.wallets, self) - q.refundAmount
  }

  /** The book after a payout: the tip's amount taken from its creator, the payout with the tipper. */
  function PaidBook(book: Book, self: Address, q: Request): Book
    requires q.creator in book.profiles
  {
    TakenBack(book, q.creator, q.amount).(wallets := Moved(book.wallets, self, q.tipper, q.refundAmount))
  }

  function NewRequest(t: TipRecord, fee: int, env: Env): Request {
    Request(t.sender, t.creator, t.amount, env.timestamp, Pending, None, t.amount - fee, fee,
            env.sequence + TIP_TTL_LEDGERS)
  }

  function Decided(r: Request, status: Status, env: Env): Request {
    r.(status := status, processedAt := Some(env.timestamp), liveUntil := env.sequence + TIP_TTL_LEDGERS)
  }

  /** All that a sweep may do to the requests: approve some of the candidates that are due. */
  ghost predicate OnlyDueApproved(was: map<nat, Request>, requests: map<nat, Request>, among: seq<nat>, env: Env,
                                  c: Config) {
    && requests.Keys == was.Keys
    && (forall id :: id in was ==>
          requests[id] == was[id] || (id in among && ApprovedAsDue(was, requests[id], id, env, c)))
  }

  predicate ApprovedAsDue(was: map<nat, Request>, r: Request, id: nat, env: Env, c: Config) {
    Due(was, id, env, c) && r == Decided(was[id], AutoApproved, env)
  }

  /** What a sweep changed was overdue, and is approved now and nothing else. */
  lemma ApprovedWasOverdue(was: map<nat, Request>, requests: map<nat, Request>, among: seq<nat>, env: Env, c: Config)
    requires OnlyDueApproved(was, requests, among, env, c)
    ensures forall id :: id in was && requests[id] != was[id] ==>
              && id in among && was[id].status == Pending && env.sequence <= was[id].liveUntil
              && (c.responseWindowSecs == 0 || was[id].requestedAt + c.responseWindowSecs <= env.timestamp)
              && requests[id] == was[id].(status := AutoApproved, processedAt := Some(env.timestamp),
                                          liveUntil := env.sequence + 120_960)
  {
  }

  /** What is not due at these positions still waits for its creator's answer, or for none. */
  lemma OthersAreInTime(requests: map<nat, Request>, ids: seq<nat>, lo: nat, hi: nat, env: Env, c: Config)
    requires NoneDue(requests, ids, lo, hi, env, c)
    ensures forall i :: lo <= i < hi && i < |ids| && ids[i] in requests && requests[ids[i]].status == Pending
                        && env.sequence <= requests[ids[i]].liveUntil ==>
              0 < c.responseWindowSecs && env.timestamp < requests[ids[i]].requestedAt + c.responseWindowSecs
  {
    forall i | lo <= i < hi && i < |ids|
      ensures !Due(requests, ids[i], env, c)
    {
    }
  }

  /** Approving one more due candidate; nothing else becomes due. */
  lemma ApproveOneMore(was: map<nat, Request>, requests: map<nat, Request>, among: seq<nat>, id: nat, env: Env,
                       c: Config)
    requires OnlyDueApproved(was, requests, among, env, c) && Due(requests, id, env, c) && id in among
    ensures OnlyDueApproved(was, requests[id := Decided(requests[id], AutoApproved, env)], among, env, c)
  {
  }

  /** No position of `ids` from `lo` up to `hi` is due. */
  ghost predicate NoneDue(requests: map<nat, Request>, ids: seq<nat>, lo: nat, hi: nat, env: Env, c: Config) {
    forall i :: lo <= i < hi && i < |ids| ==> !Due(requests, ids[i], env, c)
  }

  /** Approving `id` makes nothing due, and the positions before a removed entry keep theirs. */
  lemma NoneDueKept(was: map<nat, Request>, requests: map<nat, Request>, id: nat, ids: seq<nat>, ids': seq<nat>,
                    lo: nat, hi: nat, env: Env, c: Config)
    requires NoneDue(was, ids, lo, hi, env, c)
    requires requests == was || (id in was && requests == was[id := Decided(was[id], AutoApproved, env)])
    requires |ids'| <= |ids| && forall i :: lo <= i < hi && i < |ids'| ==> ids'[i] == ids[i]
    ensures NoneDue(requests, ids', lo, hi, env, c)
  {
    forall i | lo <= i < hi && i < |ids'|
      ensures !Due(requests, ids'[i], env, c)
    {
      assert !Due(was, ids[i], env, c);
    }
  }

  lemma NoneDueOneMore(requests: map<nat, Request>, ids: seq<nat>, lo: nat, hi: nat, env: Env, c: Config)
    requires NoneDue(requests, ids, lo, hi, env, c)
    requires hi < |ids| ==> !Due(requests, ids[hi], env, c)
    ensures NoneDue(requests, ids, lo, hi + 1, env, c)
  {
  }

  // ---- When requests can be paid ----

  /** The due requests among some ids. */
  function DueAmong(requests: map<nat, Request>, ids: seq<nat>, env: Env, c: Config): map<nat, Request> {
    map id | id in ids && Due(requests, id, env, c) :: requests[id]
  }

  function PayoutOf(q: Request): int { q.refundAmount }

  /** What the contract would be left with if it paid every due request among the ids. */
  ghost function Margin(book: Book, self: Address, requests: map<nat, Request>, ids: seq<nat>, env: Env, c: Config)
    : int
  {
    Wallet(book.wallets, self) - Total(DueAmong(requests, ids, env, c), PayoutOf)
  }

  predicate Admissible(book: Book, q: Request) {
    q.creator in book.profiles && 0 < q.refundAmount
  }

  ghost predicate AllAdmissible(book: Book, requests: map<nat, Request>, ids: seq<nat>, env: Env, c: Config) {
    forall id :: id in ids && Due(requests, id, env, c) ==> Admissible(book, requests[id])
  }

  /** Every due request among the ids has a payout and a registered creator, and the contract can pay them all. */
  ghost predicate Payable(book: Book, self: Address, requests: map<nat, Request>, ids: seq<nat>, env: Env, c: Config) {
    && AllAdmissible(book, requests, ids, env, c)
    && (DueAmong(requests, ids, env, c) == map[] || 0 <= Margin(book, self, requests, ids, env, c))
  }

  /** Some due requests among the ids have been paid since `before`, and nothing else has left the wallet. */
  ghost predicate PaidSome(was: map<nat, Request>, requests: map<nat, Request>, before: Book, book: Book, self: Address,
                           ids: seq<nat>, env: Env, c: Config) {
    && OnlyDueApproved(was, requests, ids, env, c) && book.profiles.Keys == before.profiles.Keys
    && Margin(book, self, requests, ids, env, c) == Margin(before, self, was, ids, env, c)
    && (forall id :: id in ids && Due(was, id, env, c) ==>
          Due(requests, id, env, c) || Admissible(before, was[id]))
    && (requests == was || 0 <= Wallet(book.wallets, self))
  }

  lemma NoLongerDue(requests: map<nat, Request>, ids: seq<nat>, id: nat, env: Env, c: Config)
    requires id in ids && Due(requests, id, env, c)
    ensures DueAmong(requests[id := Decided(requests[id], AutoApproved, env)], ids, env, c)
            == DueAmong(requests, ids, env, c) - {id}
  {
  }

  /** Paying one leaves the margin as it is: the wallet loses what is no longer due. */
  lemma MarginKept(requests: map<nat, Request>, book: Book, after: Book, self: Address, ids: seq<nat>, id: nat,
                   env: Env, c: Config)
    requires id in ids && Due(requests, id, env, c) && Paid(book, after, self, requests[id])
    ensures Margin(after, self, requests[id := Decided(requests[id], AutoApproved, env)], ids, env, c)
            == Margin(book, self, requests, ids, env, c)
  {
    NoLongerDue(requests, ids, id, env, c);
    TotalRemove(DueAmong(requests, ids, env, c), PayoutOf, id);
  }

  lemma PaidOneMore(was: map<nat, Request>, requests: map<nat, Request>, before: Book, book: Book, after: Book,
                    self: Address, ids: seq<nat>, id: nat, env: Env, c: Config)
    requires PaidSome(was, requests, before, book, self, ids, env, c)
    requires id in ids && Due(requests, id, env, c) && CanPay(book, self, requests[id])
    requires Paid(book, after, self, requests[id])
    ensures PaidSome(was, requests[id := Decided(requests[id], AutoApproved, env)], before, after, self, ids, env, c)
  {
    hide Margin;
    ApproveOneMore(was, requests, ids, id, env, c);
    MarginKept(requests, book, after, self, ids, id, env, c);
  }

  lemma PaidIsApproved(was: map<nat, Request>, requests: map<nat, Request>, before: Book, book: Book, self: Address,
                       ids: seq<nat>, env: Env, c: Config)
    requires PaidSome(was, requests, before, book, self, ids, env, c)
    ensures OnlyDueApproved(was, requests, ids, env, c)
  {
  }

  lemma PartOfDue(due: map<nat, Request>, id: nat)
    requires id in due && forall k :: k in due ==> 0 < due[k].refundAmount
    ensures due[id].refundAmount <= Total(due, PayoutOf)
  {
    TotalRemove(due, PayoutOf, id);
    TotalNonNegative(due - {id}, PayoutOf);
  }

  /** A payout that cannot be made at its turn could not be made as part of the whole either. */
  lemma CannotPayAll(was: map<nat, Request>, requests: map<nat, Request>, before: Book, book: Book, self: Address,
                     ids: seq<nat>, id: nat, env: Env, c: Config)
    requires PaidSome(was, requests, before, book, self, ids, env, c)
    requires id in ids && Due(requests, id, env, c) && !CanPay(book, self, requests[id])
    ensures !Payable(before, self, was, ids, env, c)
  {
    assert id in DueAmong(was, ids, env, c) && requests[id] == was[id];
    if AllAdmissible(before, was, ids, env, c) {
      PartOfDue(DueAmong(requests, ids, env, c), id);
    }
  }

  /** When nothing among the ids is left due, all of them could be paid, and exactly that has left the wallet. */
  lemma AllPaid(was: map<nat, Request>, requests: map<nat, Request>, before: Book, book: Book, self: Address,
                ids: seq<nat>, env: Env, c: Config)
    requires PaidSome(was, requests, before, book, self, ids, env, c) && NoneDue(requests, ids, 0, |ids|, env, c)
    ensures Payable(before, self, was, ids, env, c)
    ensures Wallet(book.wallets, self) == Margin(before, self, was, ids, env, c)
  {
    assert DueAmong(requests, ids, env, c) == map[];
  }

  // ---- What holds between tips, requests and index in every reachable state ----

  /** A recorded tip is still refundable, or its decided request lives at least as long as the tip does. */
  predicate TipFine(id: nat, t: TipRecord, requests: map<nat, Request>, open: map<nat, Tip>, tipCount: nat,
                    sequence: nat) {
    && id < tipCount && t.liveUntil <= sequence + TIP_TTL_LEDGERS
    && ((id in open && open[id] == Tip(t.sender, t.creator, t.amount))
        || (id in requests && requests[id].status != Pending && t.liveUntil <= requests[id].liveUntil))
  }

  /** A request repeats its tip, splits the amount exactly, and outlives the tip. */
  predicate RequestFine(id: nat, r: Request, tips: map<nat, TipRecord>, open: map<nat, Tip>, sequence: nat) {
    && id in tips && tips[id].liveUntil <= r.liveUntil <= sequence + TIP_TTL_LEDGERS
    && tips[id].sender == r.tipper && tips[id].creator == r.creator && tips[id].amount == r.amount
    && 0 <= r.keptFee && r.refundAmount + r.keptFee == r.amount
    && (r.status == Pending ==> id in open)
  }

  ghost predicate DeskOk(tips: map<nat, TipRecord>, requests: map<nat, Request>, ids: seq<nat>,
                         open: map<nat, Tip>, tipCount: nat, sequence: nat) {
    && (forall id :: id in tips ==> TipFine(id, tips[id], requests, open, tipCount, sequence))
    && (forall id :: id in requests ==> RequestFine(id, requests[id], tips, open, sequence))
    // the index lists every stored pending request, and nothing that is decided
    && (forall id :: Stored(requests, id, sequence) && requests[id].status == Pending ==> id in ids)
    && (forall id :: id in ids ==> id in requests && requests[id].status == Pending)
  }

  /** The slots 0 .. count-1 are all filled, with distinct ids, and no slot beyond them is. */
  ghost predicate IndexOk(slots: map<nat, nat>, count: nat, ids: seq<nat>) {
    && count == |ids|
    && (forall i: nat :: i in slots <==> i < count)
    && (forall i: nat :: i < count ==> slots[i] == ids[i])
    && Distinct(ids)
  }

  // ---- Swap-remove ----

  function SwapRemove(ids: seq<nat>, p: nat): seq<nat>
    requires p < |ids|
  {
    ids[p := ids[|ids| - 1]][..|ids| - 1]
  }

  function Position(ids: seq<nat>, id: nat): (p: nat)
    ensures p <= |ids| && id !in ids[..p] && (p < |ids| ==> ids[p] == id)
  {
    if ids == [] || ids[0] == id then 0 else 1 + Position(ids[1..], id)
  }

  /** The index without one id, whose place the last entry takes. */
  function Dropped(ids: seq<nat>, id: nat): seq<nat> {
    if Position(ids, id) < |ids| then SwapRemove(ids, Position(ids, id)) else ids
  }

  lemma SwapRemoveMembers(ids: seq<nat>, p: nat)
    requires p < |ids| && Distinct(ids)
    ensures var s := SwapRemove(ids, p);
            Distinct(s) && (forall x :: x in s <==> x in ids && x != ids[p])
  {
    var s, last := SwapRemove(ids, p), ids[|ids| - 1];
    forall x | x in ids && x != ids[p]
      ensures x in s
    {
      var i :| 0 <= i < |ids| && ids[i] == x;
      if i == |ids| - 1 {
        assert s[p] == last;
      } else {
        assert s[i] == x;
      }
    }
  }

  lemma DroppedMembers(ids: seq<nat>, id: nat)
    requires Distinct(ids)
    ensures Distinct(Dropped(ids, id)) && (forall x :: x in Dropped(ids, id) <==> x in ids && x != id)
  {
    if Position(ids, id) < |ids| {
      SwapRemoveMembers(ids, Position(ids, id));
    } else {
      assert ids[..|ids|] == ids;
    }
  }

  lemma {:induction false} PositionIs(ids: seq<nat>, id: nat, p: nat)
    requires p <= |ids| && (forall i :: 0 <= i < p ==> ids[i] != id) && (p < |ids| ==> ids[p] == id)
    ensures Position(ids, id) == p
  {
    if p > 0 {
      PositionIs(ids[1..], id, p - 1);
    }
  }

  lemma {:induction false} PositionAt(ids: seq<nat>, p: nat)
    requires p < |ids| && Distinct(ids)
    ensures Position(ids, ids[p]) == p
  {
    if p > 0 {
      PositionAt(ids[1..], p - 1);
    }
  }

  /** Dropping the entry at `p` shortens the index, leaves what is before `p`, and fills `p` from behind. */
  lemma DroppedAt(ids: seq<nat>, p: nat)
    requires p < |ids| && Distinct(ids)
    ensures var s := Dropped(ids, ids[p]);
            && |s| == |ids| - 1 && s[..Min(p, |s|)] == ids[..Min(p, |s|)]
            && (forall i :: p <= i < |s| ==> s[i] in ids[p..])
  {
    var s := Dropped(ids, ids[p]);
    PositionAt(ids, p);
    forall i | p <= i < |s|
      ensures s[i] in ids[p..]
    {
      var j := if i == p then |ids| - 1 else i;
      assert s[i] == ids[j] == ids[p..][j - p];
    }
  }

  /** The last slot moves to the freed one; without a gap when the freed one is the last. */
  lemma SlotRemoved(slots: map<nat, nat>, count: nat, ids: seq<nat>, index: nat)
    requires IndexOk(slots, count, ids) && index < count
    ensures var last := count - 1;
            && last in slots
            && IndexOk((if index != last then slots[index := slots[last]] else slots) - {last}, last,
                       SwapRemove(ids, index))
  {
    SwapRemoveMembers(ids, index);
  }

  // ---- Why each step keeps the agreement ----

  lemma TipRecorded(tips: map<nat, TipRecord>, requests: map<nat, Request>, ids: seq<nat>, open: map<nat, Tip>,
                    tipCount: nat, n: nat, sequence: nat, t: TipRecord)
    requires DeskOk(tips, requests, ids, open, tipCount, sequence) && n == tipCount
    requires t.liveUntil <= sequence + TIP_TTL_LEDGERS
    ensures DeskOk(tips[n := t], requests, ids, open[n := Tip(t.sender, t.creator, t.amount)], tipCount + 1, sequence)
  {
  }

  lemma LaterIsFine(tips: map<nat, TipRecord>, requests: map<nat, Request>, ids: seq<nat>, open: map<nat, Tip>,
                    tipCount: nat, sequence: nat, later: nat)
    requires DeskOk(tips, requests, ids, open, tipCount, sequence) && sequence <= later
    ensures DeskOk(tips, requests, ids, open, tipCount, later)
  {
  }

  /**
   * A tip that is still live and has no stored request was never refunded, is not in the index, and may be
   * requested: a request always outlives its tip.
   */
  lemma Requestable(tips: map<nat, TipRecord>, requests: map<nat, Request>, ids: seq<nat>, open: map<nat, Tip>,
                    tipCount: nat, sequence: nat, id: nat)
    requires DeskOk(tips, requests, ids, open, tipCount, sequence)
    requires id in tips && sequence <= tips[id].liveUntil && !Stored(requests, id, sequence)
    ensures id !in requests && id !in ids && id in open
    ensures open[id] == Tip(tips[id].sender, tips[id].creator, tips[id].amount)
  {
  }

  /** A pending request is of an open tip, and splits its amount. */
  lemma PendingIsOpen(tips: map<nat, TipRecord>, requests: map<nat, Request>, ids: seq<nat>, open: map<nat, Tip>,
                      tipCount: nat, sequence: nat, id: nat)
    requires DeskOk(tips, requests, ids, open, tipCount, sequence) && id in requests && requests[id].status == Pending
    ensures var q := requests[id];
            && id in open && open[id] == Tip(q.tipper, q.creator, q.amount)
            && q.refundAmount + q.keptFee == q.amount && 0 <= q.keptFee
  {
    assert RequestFine(id, requests[id], tips, open, sequence);
    assert TipFine(id, tips[id], requests, open, tipCount, sequence);
  }

  lemma RequestAdded(tips: map<nat, TipRecord>, requests: map<nat, Request>, ids: seq<nat>, open: map<nat, Tip>,
                     tipCount: nat, sequence: nat, id: nat, r: Request)
    requires DeskOk(tips, requests, ids, open, tipCount, sequence)
    requires id !in requests && id in open && r.status == Pending && RequestFine(id, r, tips, open, sequence)
    ensures DeskOk(tips, requests[id := r], ids + [id], open, tipCount, sequence)
  {
  }

  /** Deciding a pending request, with or without paying it, takes it off the index. */
  lemma RequestDecided(tips: map<nat, TipRecord>, requests: map<nat, Request>, ids: seq<nat>, ids': seq<nat>,
                       open: map<nat, Tip>, open': map<nat, Tip>, tipCount: nat, sequence: nat, id: nat, r: Request)
    requires DeskOk(tips, requests, ids, open, tipCount, sequence)
    requires id in requests && r.status != Pending && open' in {open, open - {id}}
    requires r == requests[id].(status := r.status, processedAt := r.processedAt, liveUntil := r.liveUntil)
    requires r.liveUntil == sequence + TIP_TTL_LEDGERS
    requires forall x :: x in ids' <==> x in ids && x != id
    ensures DeskOk(tips, requests[id := r], ids', open', tipCount, sequence)
  {
  }

  /** Dropping from the index an id that has no stored request, or whose request is deleted at the same time. */
  lemma RequestDropped(tips: map<nat, TipRecord>, requests: map<nat, Request>, requests': map<nat, Request>,
                       ids: seq<nat>, ids': seq<nat>, open: map<nat, Tip>, tipCount: nat, sequence: nat, id: nat)
    requires DeskOk(tips, requests, ids, open, tipCount, sequence)
    requires requests' == requests - {id} || (requests' == requests && !Stored(requests, id, sequence))
    requires id in requests && requests[id].status == Pending
    requires forall x :: x in ids' <==> x in ids && x != id
    ensures DeskOk(tips, requests', ids', open, tipCount, sequence)
  {
  }

  // ---- The contract's refund calls ----

  /** `gate` stands for the pause checks and the signatures of a call. */
  class RefundDesk {
    const ledger: TipLedger
    var tips: map<nat, TipRecord>
    var requests: map<nat, Request>
    var slots: map<nat, nat>
    var count: nat
    var config: Config
    ghost var ids: seq<nat>     // the contents of the slots
    ghost var sequence: nat     // the ledger number of the last call

    ghost predicate Valid()
      reads this, ledger
    {
      && ledger.Valid()
      && IndexOk(slots, count, ids)
      && DeskOk(tips, requests, ids, ledger.hist.open, ledger.book.tipCount, sequence)
    }

    constructor (ledger: TipLedger, config: Config)
      requires ledger.Valid()
      ensures Valid() && this.ledger == ledger && ids == [] && tips == map[] && requests == map[] && sequence == 0
    {
      this.ledger := ledger;
      this.config := config;
      tips, requests, slots, count := map[], map[], map[], 0;
      ids, sequence := [], 0;
    }

    /** Calls that neither record nor refund a tip may run between the desk's own: withdrawals, locks, profiles. */
    twostate lemma OtherCallsKeepDesk()
      requires old(Valid()) && unchanged(this) && ledger.Valid()
      requires ledger.hist.open == old(ledger.hist.open) && ledger.book.tipCount == old(ledger.book.tipCount)
      ensures Valid()
    {
    }

    method SetConfig(config: Config)
      requires Valid()
      modifies this`config
      ensures Valid() && this.config == config
    {
      this.config := config;
    }

    /** The start of a call: ledgers have passed since the last one. */
    method Enter(env: Env)
      requires Valid() && sequence <= env.sequence
      modifies this`sequence
      ensures Valid() && sequence == env.sequence
    {
      hide LedgerOk, DeskOk, IndexOk;
      LaterIsFine(tips, requests, ids, ledger.hist.open, ledger.book.tipCount, sequence, env.sequence);
      sequence := env.sequence;
    }

    /** Stores the record of a tip that the ledger has just booked; `open` were the open tips before it. */
    method StoreTip(id: nat, t: TipRecord, ghost open: map<nat, Tip>)
      requires ledger.Valid() && IndexOk(slots, count, ids) && DeskOk(tips, requests, ids, open, id, sequence)
      requires ledger.hist.open == open[id := Tip(t.sender, t.creator, t.amount)] && ledger.book.tipCount == id + 1
      requires t.liveUntil == sequence + TIP_TTL_LEDGERS
      modifies this`tips
      ensures Valid() && tips == old(tips)[id := t]
    {
      hide LedgerOk, DeskOk, IndexOk;
      TipRecorded(tips, requests, ids, open, id, id, sequence, t);
      tips := tips[id := t];
    }

    method SendTip(gate: Option<ContractError>, tipper: Address, creator: Address, amount: i128, env: Env)
      returns (r: Result<nat, ContractError>)
      requires Valid() && tipper != ledger.self && sequence <= env.sequence
      modifies this, ledger
      ensures Valid() && ids == old(ids) && requests == old(requests) && sequence == env.sequence
      ensures r.Ok? <==> gate.None? && tipper != creator && 0 < amount <= Wallet(old(ledger.book).wallets, tipper)
                         && CanCredit(old(ledger.book), creator, amount)
      ensures r.Ok? ==>
                && r.value == old(ledger.book.tipCount)
                && tips == old(tips)[r.value :=
                     TipRecord(tipper, creator, amount, env.timestamp, env.sequence + TIP_TTL_LEDGERS)]
      ensures r.Err? ==> tips == old(tips)
    {
      hide LedgerOk, DeskOk, IndexOk;
      Enter(env);
      ghost var open := ledger.hist.open;
      r := ledger.SendTip(gate, tipper, creator, amount);
      if r.Ok? {
        var t := TipRecord(tipper, creator, amount, env.timestamp, env.sequence + TIP_TTL_LEDGERS);
        StoreTip(r.value, t, open);
      }
    }

    method DeliverScheduledTip(gate: Option<ContractError>, id: u32, env: Env) returns (r: Result<nat, ContractError>)
      requires Valid() && sequence <= env.sequence
      modifies this, ledger
      ensures Valid() && ids == old(ids) && requests == old(requests) && sequence == env.sequence
      ensures r.Ok? <==>
                && gate.None? && id in old(ledger.book.scheduled)
                && var t := old(ledger.book.scheduled)[id];
                && Released(t) == 0 && t.deliverAt <= env.timestamp
                && CanCredit(old(ledger.book), t.creator, t.amount)
      ensures r.Ok? ==>
                && id in old(ledger.book.scheduled)
                && var t := old(ledger.book.scheduled)[id];
                tips == old(tips)[r.value :=
                  TipRecord(t.sender, t.creator, t.amount, env.timestamp, env.sequence + TIP_TTL_LEDGERS)]
      ensures r.Err? ==> tips == old(tips)
    {
      hide LedgerOk, DeskOk, IndexOk;
      Enter(env);
      ghost var open := ledger.hist.open;
      var scheduled := ledger.book.scheduled;
      r := ledger.DeliverScheduledTip(gate, id, env.timestamp);
      if r.Ok? {
        var s := scheduled[id];
        var t := TipRecord(s.sender, s.creator, s.amount, env.timestamp, env.sequence + TIP_TTL_LEDGERS);
        StoreTip(r.value, t, open);
      }
    }

    /** Why a request is refused, in the order of the checks. */
    function RequestRefused(gate: Option<ContractError>, tipper: Address, id: nat, env: Env)
      : (refused: Option<ContractError>)
      reads this
      ensures refused.None? <==>
                && gate.None? && id in tips && env.sequence <= tips[id].liveUntil && tips[id].sender == tipper
                && !(id in requests && env.sequence <= requests[id].liveUntil)
                && (env.timestamp <= tips[id].timestamp + config.requestWindowSecs)
    {
      if gate.Some? then gate
      else if id !in tips || tips[id].liveUntil < env.sequence then Some(NotFound)
      else if tips[id].sender != tipper then Some(NotTipper)
      else if Stored(requests, id, env.sequence) then Some(RefundAlreadyRequested)
      else if Elapsed(env.timestamp, tips[id].timestamp) > config.requestWindowSecs then Some(RefundWindowExpired)
      else None
    }

    method RequestRefund(gate: Option<ContractError>, tipper: Address, id: u32, env: Env)
      returns (r: Result<(), ContractError>)
      requires Valid() && sequence <= env.sequence
      modifies this
      ensures Valid() && sequence == env.sequence && tips == old(tips) && config == old(config)
      ensures old(RequestRefused(gate, tipper, id, env)).Some? ==>
                r == Err(old(RequestRefused(gate, tipper, id, env)).value)
      ensures old(RequestRefused(gate, tipper, id, env)).None? ==>
                && 0 < tips[id].amount
                && var fee := KeptFee(tips[id].amount, config.feeBps);
                && (r.Ok? <==> fee.Ok?)
                && (r.Ok? ==> requests == old(requests)[id := NewRequest(tips[id], fee.value, env)]
                              && ids == old(ids) + [id])
      ensures r.Ok? ==>
                && id in tips && id in requests
                && var t, q := tips[id], requests[id];
                && 10_000 * q.keptFee <= t.amount * config.feeBps < 10_000 * (q.keptFee + 1)
                && q == Request(t.sender, t.creator, t.amount, env.timestamp, Pending, None, t.amount - q.keptFee,
                                q.keptFee, env.sequence + 120_960)
      ensures r.Err? ==> requests == old(requests) && ids == old(ids)
    {
      hide LedgerOk, DeskOk, IndexOk;
      var refused := RequestRefused(gate, tipper, id, env);
      Enter(env);
      if refused.Some? {
        r := Err(refused.value);
      } else {
        Requestable(tips, requests, ids, ledger.hist.open, ledger.book.tipCount, sequence, id);
        OpenTip(ledger.self, ledger.book, ledger.hist, id);
        var fee := KeptFee(tips[id].amount, config.feeBps);
        if fee.Err? {
          r := Err(fee.error);
        } else {
          StoreRequest(id, NewRequest(tips[id], fee.value, env));
          r := Ok(());
        }
      }
    }

    /** A new pending request enters the table and the index together. */
    method StoreRequest(id: nat, request: Request)
      requires Valid() && id in tips && sequence <= tips[id].liveUntil && !Stored(requests, id, sequence)
      requires request.status == Pending && request.liveUntil == sequence + TIP_TTL_LEDGERS
      requires request.tipper == tips[id].sender && request.creator == tips[id].creator
      requires request.amount == tips[id].amount && 0 <= request.keptFee
      requires request.refundAmount + request.keptFee == request.amount
      modifies this`requests, this`slots, this`count, this`ids
      ensures Valid() && requests == old(requests)[id := request] && ids == old(ids) + [id]
    {
      hide LedgerOk;
      Requestable(tips, requests, ids, ledger.hist.open, ledger.book.tipCount, sequence, id);
      assert TipFine(id, tips[id], requests, ledger.hist.open, ledger.book.tipCount, sequence);
      RequestAdded(tips, requests, ids, ledger.hist.open, ledger.book.tipCount, sequence, id, request);
      requests := requests[id := request];
      AddPending(id);
    }

    /** Appends to the dense index. */
    method AddPending(id: nat)
      requires IndexOk(slots, count, ids) && id !in ids
      modifies this`slots, this`count, this`ids
      ensures IndexOk(slots, count, ids) && ids == old(ids) + [id]
    {
      slots := slots[count := id];
      count := count + 1;
      ids := ids + [id];
    }

    /** Removes an id from the dense index; the last entry takes its place. */
    method RemovePending(id: nat)
      requires IndexOk(slots, count, ids)
      modifies this`slots, this`count, this`ids
      ensures IndexOk(slots, count, ids) && ids == Dropped(old(ids), id)
    {
      hide Distinct, Position, SwapRemove;
      var index := 0;
      while index < count && !(index in slots && slots[index] == id)
        invariant 0 <= index <= count
        invariant forall i :: 0 <= i < index ==> ids[i] != id
      {
        index := index + 1;
      }
      PositionIs(ids, id, index);
      if index < count {
        var last := count - 1;
        SlotRemoved(slots, count, ids, index);
        if index != last && last in slots {
          slots := slots[index := slots[last]];
        }
        slots := slots - {last};
        count := last;
        ids := SwapRemove(ids, index);
      }
    }

    /** Marks a pending request decided and takes it off the index; `open` were the open tips before the payout. */
    method Decide(id: nat, status: Status, env: Env, ghost open: map<nat, Tip>)
      requires ledger.Valid() && IndexOk(slots, count, ids) && env.sequence == sequence
      requires DeskOk(tips, requests, ids, open, ledger.book.tipCount, sequence)
      requires ledger.hist.open in {open, open - {id}}
      requires id in requests && requests[id].status == Pending && status != Pending
      modifies this`requests, this`slots, this`count, this`ids
      ensures Valid() && ids == Dropped(old(ids), id)
      ensures requests == old(requests)[id := Decided(old(requests)[id], status, env)]
    {
      hide LedgerOk, DeskOk;
      var decided := Decided(requests[id], status, env);
      DroppedMembers(ids, id);
      RemovePending(id);
      RequestDecided(tips, requests, old(ids), ids, open, ledger.hist.open, ledger.book.tipCount, sequence, id,
                     decided);
      requests := requests[id := decided];
    }

    /** Pays a pending request, marks it decided and takes it off the index. */
    method PayAndDecide(id: nat, status: Status, env: Env) returns (r: Result<(), ContractError>)
      requires Valid() && env.sequence == sequence
      requires Stored(requests, id, sequence) && requests[id].status == Pending
      requires status == Approved || status == AutoApproved
      modifies this`requests, this`slots, this`count, this`ids, ledger
      ensures Valid()
      ensures r.Ok? <==> CanPay(old(ledger.book), ledger.self, old(requests)[id])
      ensures r.Ok? ==> Paid(old(ledger.book), ledger.book, ledger.self, old(requests)[id])
      ensures r.Ok? ==> ledger.book == PaidBook(old(ledger.book), ledger.self, old(requests)[id])
      ensures r.Ok? ==>
                && requests == old(requests)[id := Decided(old(requests)[id], status, env)]
                && ids == Dropped(old(ids), id)
                && ledger.hist.refunds == old(ledger.hist.refunds)
                   + [Refund(id, old(requests)[id].amount, old(requests)[id].refundAmount, old(requests)[id].keptFee)]
      ensures r.Err? ==>
                && requests == old(requests) && slots == old(slots) && count == old(count) && ids == old(ids)
                && ledger.book == old(ledger.book) && ledger.hist == old(ledger.hist)
    {
      hide LedgerOk, DeskOk, IndexOk;
      ghost var open := ledger.hist.open;
      var q := requests[id];
      PendingIsOpen(tips, requests, ids, open, ledger.book.tipCount, sequence, id);
      OpenTip(ledger.self, ledger.book, ledger.hist, id);
      r := ledger.PayRefund(id, q.tipper, q.creator, q.amount, q.refundAmount, q.keptFee);
      if r.Ok? {
        Decide(id, status, env, open);
      }
    }

    /** Why a creator's decision is refused, in the order of the checks. */
    function DecisionRefused(gate: Option<ContractError>, creator: Address, id: nat, env: Env)
      : (refused: Option<ContractError>)
      reads this
      ensures refused.None? <==>
                && gate.None? && id in requests && env.sequence <= requests[id].liveUntil
                && requests[id].creator == creator && requests[id].status == Pending
    {
      if gate.Some? then gate
      else if !Stored(requests, id, env.sequence) then Some(NoRefundRequest)
      else if requests[id].creator != creator then Some(NotCreator)
      else if requests[id].status != Pending then Some(RefundAlreadyProcessed)
      else None
    }

    method ApproveRefund(gate: Option<ContractError>, creator: Address, id: u32, env: Env)
      returns (r: Result<(), ContractError>)
      requires Valid() && sequence <= env.sequence
      modifies this, ledger
      ensures Valid() && sequence == env.sequence && tips == old(tips) && config == old(config)
      ensures old(DecisionRefused(gate, creator, id, env)).Some? ==>
                r == Err(old(DecisionRefused(gate, creator, id, env)).value)
      ensures old(DecisionRefused(gate, creator, id, env)).None? ==>
                var q := old(requests)[id];
                && (r.Ok? <==> CanPay(old(ledger.book), ledger.self, q))
                && (r.Ok? ==>
                      && ids == Dropped(old(ids), id)
                      && requests == old(requests)[id := q.(status := Approved, processedAt := Some(env.timestamp),
                                                            liveUntil := env.sequence + 120_960)]
                      && ledger.book == PaidBook(old(ledger.book), ledger.self, q)
                      && ledger.hist.refunds
                         == old(ledger.hist.refunds) + [Refund(id, q.amount, q.refundAmount, q.keptFee)])
      ensures r.Err? ==> requests == old(requests) && ids == old(ids) && ledger.book == old(ledger.book)
    {
      hide LedgerOk, DeskOk, IndexOk;
      Enter(env);
      var refused := DecisionRefused(gate, creator, id, env);
      if refused.Some? {
        r := Err(refused.value);
      } else {
        r := PayAndDecide(id, Approved, env);
      }
    }

    method RejectRefund(gate: Option<ContractError>, creator: Address, id: u32, env: Env)
      returns (r: Result<(), ContractError>)
      requires Valid() && sequence <= env.sequence
      modifies this
      ensures Valid() && sequence == env.sequence && tips == old(tips) && config == old(config)
      ensures r.Ok? <==> old(DecisionRefused(gate, creator, id, env)).None?
      ensures r.Ok? ==>
                && ids == Dropped(old(ids), id) && id in old(requests)
                && requests == old(requests)[id := old(requests)[id].(status := Rejected,
                     processedAt := Some(env.timestamp), liveUntil := env.sequence + 120_960)]
      ensures r.Err? ==> requests == old(requests) && ids == old(ids)
    {
      hide LedgerOk, DeskOk, IndexOk;
      Enter(env);
      var refused := DecisionRefused(gate, creator, id, env);
      if refused.Some? {
        r := Err(refused.value);
      } else {
        Decide(id, Rejected, env, ledger.hist.open);
        r := Ok(());
      }
    }

    /** Deletes an old pending request.  The age is the ledger number less the truncated request time. */
    method ExpireRefund(gate: Option<ContractError>, id: u32, env: Env) returns (r: Result<(), ContractError>)
      requires Valid() && sequence <= env.sequence
      modifies this
      ensures Valid() && sequence == env.sequence && tips == old(tips) && config == old(config)
      ensures r.Ok? <==> gate.None? && Expirable(old(requests), id, env, config)
      ensures r.Ok? ==> requests == old(requests) - {id} && ids == Dropped(old(ids), id)
      ensures r.Err? ==> requests == old(requests) && ids == old(ids)
    {
      hide LedgerOk, DeskOk;
      Enter(env);
      var refused: Option<ContractError> :=
        if gate.Some? then gate
        else if !Stored(requests, id, env.sequence) then Some(NoRefundRequest)
        else if requests[id].status != Pending then Some(RefundAlreadyProcessed)
        else if Elapsed(env.sequence, requests[id].requestedAt % (U32_MAX + 1)) < config.requestTtlLedgers
        then Some(RefundRequestExpired)
        else None;
      if refused.Some? {
        r := Err(refused.value);
      } else {
        DroppedMembers(ids, id);
        RemovePending(id);
        RequestDropped(tips, requests, requests - {id}, old(ids), ids, ledger.hist.open, ledger.book.tipCount,
                       sequence, id);
        requests := requests - {id};
        r := Ok(());
      }
    }

    method Restore(requests: map<nat, Request>, slots: map<nat, nat>, count: nat, book: Book,
                   ghost ids: seq<nat>, ghost hist: History)
      requires LedgerOk(ledger.self, book, hist) && IndexOk(slots, count, ids)
      requires DeskOk(tips, requests, ids, hist.open, book.tipCount, sequence)
      modifies this`requests, this`slots, this`count, this`ids, ledger
      ensures Valid() && this.requests == requests && this.ids == ids && ledger.book == book && ledger.hist == hist
    {
      hide LedgerOk, DeskOk, IndexOk;
      this.requests, this.slots, this.count, this.ids := requests, slots, count, ids;
      ledger.book, ledger.hist := book, hist;
    }

    /** Approves the due requests of the list, one by one, until one cannot be paid. */
    method ApproveListed(tipIds: seq<nat>, env: Env, c: Config) returns (r: Result<nat, ContractError>)
      requires Valid() && sequence == env.sequence
      modifies this`requests, this`slots, this`count, this`ids, ledger
      ensures Valid()
      ensures r.Ok? <==> Payable(old(ledger.book), ledger.self, old(requests), tipIds, env, c)
      ensures r.Ok? ==> OnlyDueApproved(old(requests), requests, tipIds, env, c)
      ensures r.Ok? ==> NoneDue(requests, tipIds, 0, |tipIds|, env, c)
      ensures r.Ok? ==> Wallet(ledger.book.wallets, ledger.self)
                        == Margin(old(ledger.book), ledger.self, old(requests), tipIds, env, c)
      ensures r.Ok? ==> r.value == |ledger.hist.refunds| - |old(ledger.hist.refunds)|
    {
      hide LedgerOk, DeskOk, IndexOk;
      ghost var was, book := requests, ledger.book;
      var k, processed := 0, 0;
      while k < |tipIds|
        invariant Valid() && k <= |tipIds| && NoneDue(requests, tipIds, 0, k, env, c)
        invariant PaidSome(was, requests, book, ledger.book, ledger.self, tipIds, env, c)
        invariant processed == |ledger.hist.refunds| - |old(ledger.hist.refunds)|
      {
        if Due(requests, tipIds[k], env, c) {
          ghost var requests', book' := requests, ledger.book;
          var paid := PayAndDecide(tipIds[k], AutoApproved, env);
          if paid.Err? {
            CannotPayAll(was, requests', book, book', ledger.self, tipIds, tipIds[k], env, c);
            return Err(paid.error);
          }
          PaidOneMore(was, requests', book, book', ledger.book, ledger.self, tipIds, tipIds[k], env, c);
          NoneDueKept(requests', requests, tipIds[k], tipIds, tipIds, 0, k, env, c);
          processed := processed + 1;
        }
        NoneDueOneMore(requests, tipIds, 0, k, env, c);
        k := k + 1;
      }
      AllPaid(was, requests, book, ledger.book, ledger.self, tipIds, env, c);
      return Ok(processed);
    }

    /** Approves the due requests among the given tips.  If one payout fails, the whole call is undone. */
    method ProcessPendingRefunds(gate: Option<ContractError>, tipIds: seq<nat>, env: Env)
      returns (r: Result<nat, ContractError>)
      requires Valid() && sequence <= env.sequence
      modifies this, ledger
      ensures Valid() && sequence == env.sequence && tips == old(tips) && config == old(config)
      ensures r.Ok? <==> gate.None? && Payable(old(ledger.book), ledger.self, old(requests), tipIds, env, config)
      ensures r.Ok? ==>
                && OnlyDueApproved(old(requests), requests, tipIds, env, config)
                && NoneDue(requests, tipIds, 0, |tipIds|, env, config)
                && Wallet(ledger.book.wallets, ledger.self)
                   == Margin(old(ledger.book), ledger.self, old(requests), tipIds, env, config)
                && r.value == |ledger.hist.refunds| - |old(ledger.hist.refunds)|
      ensures r.Ok? ==> forall id :: id in old(requests) && requests[id] != old(requests)[id] ==>
                && id in tipIds && old(requests)[id].status == Pending && env.sequence <= old(requests)[id].liveUntil
                && (config.responseWindowSecs == 0
                    || old(requests)[id].requestedAt + config.responseWindowSecs <= env.timestamp)
                && requests[id] == old(requests)[id].(status := AutoApproved, processedAt := Some(env.timestamp),
                                                      liveUntil := env.sequence + 120_960)
      ensures r.Ok? ==> forall i :: 0 <= i < |tipIds| && tipIds[i] in requests && requests[tipIds[i]].status == Pending
                                    && env.sequence <= requests[tipIds[i]].liveUntil ==>
                0 < config.responseWindowSecs
                && env.timestamp < requests[tipIds[i]].requestedAt + config.responseWindowSecs
      ensures r.Err? ==> requests == old(requests) && ids == old(ids) && ledger.book == old(ledger.book)
    {
      hide LedgerOk, DeskOk, IndexOk, OnlyDueApproved, NoneDue, Payable, Margin;
      Enter(env);
      if gate.Some? {
        r := Err(gate.value);
      } else {
        var undo, book := (requests, slots, count), ledger.book;
        r := ApproveListed(tipIds, env, config);
        if r.Err? {
          Restore(undo.0, undo.1, undo.2, book, old(ids), old(ledger.hist));
        } else {
          ApprovedWasOverdue(old(requests), requests, tipIds, env, config);
          OthersAreInTime(requests, tipIds, 0, |tipIds|, env, config);
        }
      }
    }

    /**
     * How far a sweep that began at `cursor` has come; `was`, `wasIds` and `before` are requests, index and book at
     * its start.  What lies before the cursor is untouched, what lies behind it was behind it then.
     */
    ghost predicate SweptTo(was: map<nat, Request>, wasIds: seq<nat>, before: Book, cursor: nat, index: nat, env: Env,
                            c: Config)
      requires cursor < |wasIds|
      reads this, ledger
    {
      && PaidSome(was, requests, before, ledger.book, ledger.self, wasIds[cursor..], env, c)
      && NoneDue(requests, ids, cursor, index, env, c)
      && cursor <= |ids| <= |wasIds| && ids[..cursor] == wasIds[..cursor]
      && (forall i :: cursor <= i < |ids| ==> ids[i] in wasIds[cursor..])
    }

    /** The sweep loop: `pendingCount` is the count at its start, which the loop itself makes stale. */
    method SweepFrom(cursor: nat, pendingCount: nat, limit: nat, env: Env, c: Config)
      returns (r: Result<nat, ContractError>, index: nat)
      requires Valid() && sequence == env.sequence && pendingCount == count && cursor < count
      modifies this`requests, this`slots, this`count, this`ids, ledger
      ensures Valid() && SweptTo(old(requests), old(ids), old(ledger.book), cursor, index, env, c)
      ensures r.Ok? ==> r.value == |ledger.hist.refunds| - |old(ledger.hist.refunds)| <= limit
      ensures r.Ok? && r.value < limit ==> |ids| <= index
      ensures r.Err? ==> !Payable(old(ledger.book), ledger.self, old(requests), old(ids)[cursor..], env, c)
    {
      hide LedgerOk, DeskOk;
      var processed: nat := 0;
      index := cursor;
      while index < pendingCount && processed < limit
        invariant Valid() && SweptTo(old(requests), old(ids), old(ledger.book), cursor, index, env, c)
        invariant cursor <= index <= pendingCount && count <= pendingCount && processed <= limit
        invariant processed == |ledger.hist.refunds| - |old(ledger.hist.refunds)|
        decreases pendingCount - index + count
      {
        var paid;
        paid, index := SweepStep(cursor, index, env, c, old(requests), old(ids), old(ledger.book));
        if paid.Err? {
          return Err(paid.error), index;
        }
        processed := processed + paid.value;
      }
      return Ok(processed), index;
    }

    /** One look at a slot: skip it if it is empty or not due, else approve or drop its id and stay. */
    method SweepStep(cursor: nat, index: nat, env: Env, c: Config, ghost was: map<nat, Request>,
                     ghost wasIds: seq<nat>, ghost before: Book)
      returns (paid: Result<nat, ContractError>, next: nat)
      requires Valid() && sequence == env.sequence && cursor <= index && cursor < |wasIds|
      requires SweptTo(was, wasIds, before, cursor, index, env, c)
      modifies this`requests, this`slots, this`count, this`ids, ledger
      ensures Valid() && SweptTo(was, wasIds, before, cursor, next, env, c)
      ensures |ledger.hist.refunds| == |old(ledger.hist.refunds)| + if paid.Ok? then paid.value else 0
      ensures paid.Ok? ==>
                || (next == index + 1 && ids == old(ids) && paid.value == 0)
                || (next == index && |ids| < |old(ids)| && paid.value <= 1)
      ensures paid.Err? ==> next == index && !Payable(before, ledger.self, was, wasIds[cursor..], env, c)
    {
      hide LedgerOk, DeskOk, PaidSome, Payable;
      paid, next := Ok(0), index;
      if index !in slots {
        next := index + 1;
      } else {
        var id := slots[index];
        assert id == ids[index] && id in ids;
        if !Stored(requests, id, env.sequence) {
          DropMissing(cursor, index, env, c, was, wasIds, before);
        } else if Due(requests, id, env, c) {
          paid := ApproveDue(id, cursor, index, env, c, was, wasIds, before);
        } else {
          next := index + 1;
          NoneDueOneMore(requests, ids, cursor, index, env, c);
        }
      }
    }

    /** Approves the due entry at `index`. */
    method ApproveDue(id: nat, cursor: nat, index: nat, env: Env, c: Config, ghost was: map<nat, Request>,
                      ghost wasIds: seq<nat>, ghost before: Book)
      returns (paid: Result<nat, ContractError>)
      requires Valid() && sequence == env.sequence && cursor <= index < |ids| && cursor < |wasIds|
      requires SweptTo(was, wasIds, before, cursor, index, env, c)
      requires id == ids[index] && Due(requests, id, env, c) && Distinct(ids)
      modifies this`requests, this`slots, this`count, this`ids, ledger
      ensures Valid() && SweptTo(was, wasIds, before, cursor, index, env, c)
      ensures |ledger.hist.refunds| == |old(ledger.hist.refunds)| + if paid.Ok? then 1 else 0
      ensures paid.Ok? ==> paid.value == 1 && |ids| < |old(ids)|
      ensures paid.Err? ==> ids == old(ids) && !Payable(before, ledger.self, was, wasIds[cursor..], env, c)
    {
      hide LedgerOk, DeskOk, IndexOk, PaidSome, Payable;
      ghost var due, book := requests, ledger.book;
      DroppedAt(ids, index);
      var r := PayAndDecide(id, AutoApproved, env);
      if r.Err? {
        CannotPayAll(was, due, before, book, ledger.self, wasIds[cursor..], id, env, c);
        paid := Err(r.error);
      } else {
        PaidOneMore(was, due, before, book, ledger.book, ledger.self, wasIds[cursor..], id, env, c);
        NoneDueKept(due, requests, id, old(ids), ids, cursor, index, env, c);
        DroppedKeepsRest(wasIds, old(ids), ids, cursor, index);
        paid := Ok(1);
      }
    }

    /** Takes the entry at `index`, whose request the host has forgotten, off the index. */
    method DropMissing(cursor: nat, index: nat, env: Env, c: Config, ghost was: map<nat, Request>,
                       ghost wasIds: seq<nat>, ghost before: Book)
      requires Valid() && sequence == env.sequence && cursor <= index < |ids| && cursor < |wasIds|
      requires SweptTo(was, wasIds, before, cursor, index, env, c)
      requires index in slots && !Stored(requests, ids[index], sequence)
      modifies this`slots, this`count, this`ids
      ensures Valid() && SweptTo(was, wasIds, before, cursor, index, env, c) && |ids| < |old(ids)|
    {
      hide LedgerOk, PaidSome;
      var id := slots[index];
      assert id in ids;
      DroppedMembers(ids, id);
      DroppedAt(ids, index);
      RemovePending(id);
      RequestDropped(tips, requests, requests, old(ids), ids, ledger.hist.open, ledger.book.tipCount, sequence, id);
      NoneDueKept(requests, requests, id, old(ids), ids, cursor, index, env, c);
      DroppedKeepsRest(wasIds, old(ids), ids, cursor, index);
    }

    /** A sweep that has not looked at anything yet. */
    lemma SweepStarts(cursor: nat, env: Env, c: Config)
      requires cursor < |ids|
      ensures SweptTo(requests, ids, ledger.book, cursor, cursor, env, c)
    {
    }

    /** A sweep that passed the end of the index has left nothing due that was behind its cursor. */
    ghost method SweptAll(was: map<nat, Request>, wasIds: seq<nat>, before: Book, cursor: nat, index: nat, env: Env,
                          c: Config)
      requires Valid() && sequence == env.sequence && cursor < |wasIds| && Distinct(wasIds)
      requires SweptTo(was, wasIds, before, cursor, index, env, c) && |ids| <= index
      ensures NoneDue(requests, wasIds, cursor, |wasIds|, env, c)
      ensures Payable(before, ledger.self, was, wasIds[cursor..], env, c)
    {
      hide LedgerOk, PaidSome, Payable;
      forall i | cursor <= i < |wasIds|
        ensures !Due(requests, wasIds[i], env, c)
      {
        forall k | 0 <= k < cursor
          ensures ids[k] != wasIds[i]
        {
          assert ids[k] == ids[..cursor][k] == wasIds[..cursor][k];
        }
      }
      AllPaid(was, requests, before, ledger.book, ledger.self, wasIds[cursor..], env, c);
    }

    /**
     * Sweeps the index from a cursor.  Approving an entry lets the last entry take its slot, so the sweep stays
     * there; `stop` is the position it stopped at.  Only entries from the cursor on are approved, those before it
     * stay where they are, and nothing before the stop is left due.  Unless the limit was reached, nothing that
     * was behind the cursor is.
     */
    method ProcessPendingRefundsFrom(gate: Option<ContractError>, cursor: u32, limit: u32, env: Env)
      returns (r: Result<(nat, nat), ContractError>, ghost stop: nat)
      requires Valid() && sequence <= env.sequence
      modifies this, ledger
      ensures Valid() && sequence == env.sequence && tips == old(tips) && config == old(config)
      ensures r.Ok? && |old(ids)| <= cursor ==> requests == old(requests) && ids == old(ids) && r.value == (0, 0)
      ensures r.Ok? && cursor < |old(ids)| ==>
                && SweptTo(old(requests), old(ids), old(ledger.book), cursor, stop, env, config)
                && (0 < limit ==> r.value.1 == if stop < |ids| then stop else 0)
      ensures r.Ok? ==> forall id :: id in old(requests) && requests[id] != old(requests)[id] ==>
                && cursor < |old(ids)| && id in old(ids)[cursor..]
                && old(requests)[id].status == Pending && env.sequence <= old(requests)[id].liveUntil
                && (config.responseWindowSecs == 0
                    || old(requests)[id].requestedAt + config.responseWindowSecs <= env.timestamp)
                && requests[id] == old(requests)[id].(status := AutoApproved, processedAt := Some(env.timestamp),
                                                      liveUntil := env.sequence + 120_960)
      ensures r.Ok? ==> forall i :: cursor <= i < stop && i < |ids| && ids[i] in requests
                                    && requests[ids[i]].status == Pending
                                    && env.sequence <= requests[ids[i]].liveUntil ==>
                0 < config.responseWindowSecs
                && env.timestamp < requests[ids[i]].requestedAt + config.responseWindowSecs
      ensures r.Ok? && r.value.0 < Min(limit, 50) ==>
                forall i :: cursor <= i < |old(ids)| && old(ids)[i] in requests
                            && requests[old(ids)[i]].status == Pending
                            && env.sequence <= requests[old(ids)[i]].liveUntil ==>
                  0 < config.responseWindowSecs
                  && env.timestamp < requests[old(ids)[i]].requestedAt + config.responseWindowSecs
      ensures r.Ok? && cursor < |old(ids)| && r.value.0 < Min(limit, 50) ==>
                && NoneDue(requests, old(ids), cursor, |old(ids)|, env, config)
                && Payable(old(ledger.book), ledger.self, old(requests), old(ids)[cursor..], env, config)
      ensures r.Ok? ==>
                gate.None? && r.value.0 == |ledger.hist.refunds| - |old(ledger.hist.refunds)| <= Min(limit, 50)
      ensures r.Err? && gate.None? ==>
                && cursor < |old(ids)| && 0 < limit
                && !Payable(old(ledger.book), ledger.self, old(requests), old(ids)[cursor..], env, config)
      ensures r.Err? ==> requests == old(requests) && ids == old(ids) && ledger.book == old(ledger.book)
    {
      hide LedgerOk, DeskOk, PaidSome, OnlyDueApproved, NoneDue, Payable;
      Enter(env);
      stop := cursor;
      var pendingCount, boundedLimit := count, Min(limit, MAX_BATCH);
      if gate.Some? {
        r := Err(gate.value);
      } else if pendingCount == 0 || cursor >= pendingCount {
        r := Ok((0, 0));
      } else if boundedLimit == 0 {
        SweepStarts(cursor, env, config);
        r := Ok((0, cursor));
      } else {
        var undo, book := (requests, slots, count), ledger.book;
        var processed, index := SweepFrom(cursor, pendingCount, boundedLimit, env, config);
        stop := index;
        if processed.Ok? {
          r := Ok((processed.value, if count == 0 || index >= count then 0 else index));
          PaidIsApproved(old(requests), requests, old(ledger.book), ledger.book, ledger.self, old(ids)[cursor..], env,
                         config);
          ApprovedWasOverdue(old(requests), requests, old(ids)[cursor..], env, config);
          OthersAreInTime(requests, ids, cursor, index, env, config);
          if processed.value < boundedLimit {
            SweptAll(old(requests), old(ids), old(ledger.book), cursor, index, env, config);
            OthersAreInTime(requests, old(ids), cursor, |old(ids)|, env, config);
          }
        } else {
          Restore(undo.0, undo.1, undo.2, book, old(ids), old(ledger.hist));
          r := Err(processed.error);
        }
      }
    }
  }

  /** A dropped entry behind the cursor leaves what is before the cursor, and only what was behind it behind. */
  lemma DroppedKeepsRest(wasIds: seq<nat>, ids: seq<nat>, ids': seq<nat>, cursor: nat, index: nat)
    requires cursor <= index < |ids| && Distinct(ids) && ids' == Dropped(ids, ids[index])
    requires cursor < |wasIds| && |ids| <= |wasIds| && ids[..cursor] == wasIds[..cursor]
    requires forall i :: cursor <= i < |ids| ==> ids[i] in wasIds[cursor..]
    ensures cursor <= |ids'| < |ids| && ids'[..cursor] == wasIds[..cursor]
    ensures forall i :: cursor <= i < |ids'| ==> ids'[i] in wasIds[cursor..]
    ensures forall i :: cursor <= i < index && i < |ids'| ==> ids'[i] == ids[i]
  {
    DroppedAt(ids, index);
    forall i | 0 <= i < |ids'|
      ensures if i < index then ids'[i] == ids[i] else exists j :: index <= j < |ids| && ids'[i] == ids[j]
    {
      if i < index {
        assert ids'[i] == ids'[..Min(index, |ids'|)][i];
      } else {
        var j :| 0 <= j < |ids[index..]| && ids[index..][j] == ids'[i];
        assert ids[index + j] == ids'[i];
      }
    }
    assert forall i :: 0 <= i < cursor ==> ids'[i] == ids[..cursor][i] == wasIds[..cursor][i];
  }
}
