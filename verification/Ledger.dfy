/** The contract's money: tips, withdrawals, emergency exits, scheduled tips and refunds over one token balance. */
module Ledger {
  import opened Prelude
  import opened Sums
  import Fees

  type Address = string

  const EMERGENCY_DELAY_SECS := 7 * 24 * 3600

  datatype Profile = Profile(balance: int, received: int, count: nat)

  datatype Scheduled = Scheduled(sender: Address, creator: Address, amount: int, deliverAt: nat,
                                 delivered: bool, cancelled: bool)

  /** What the contract stores; `wallets` are the balances that the native token keeps, the contract's included. */
  datatype Book = Book(wallets: map<Address, int>, profiles: map<Address, Profile>, scheduled: map<nat, Scheduled>,
                       tipCount: nat, scheduledCount: nat, volume: int, fees: int)

  datatype Tip = Tip(sender: Address, creator: Address, amount: int)

  datatype Refund = Refund(tip: nat, amount: int, payout: int, keptFee: int)

  /**
   * What the proofs remember: tips recorded and not refunded, refunds paid, the ids that left the lock, and whose
   * profile was ever removed.
   */
  datatype History = History(open: map<nat, Tip>, refunds: seq<Refund>, exits: multiset<nat>,
                             feesToSelf: int, gifts: int, writtenOff: int, removed: set<Address>)

  function BalanceOf(p: Profile): int { p.balance }

  function AmountOf(t: Tip): int { t.amount }

  function LockedOf(s: Scheduled): int {
    if s.delivered || s.cancelled then 0 else s.amount
  }

  function Wallet(w: map<Address, int>, a: Address): int {
    if a in w then w[a] else 0
  }

  function Kept(refunds: seq<Refund>): int {
    if refunds == [] then 0
    else Kept(refunds[..|refunds| - 1]) + refunds[|refunds| - 1].keptFee
  }

  function Refunded(refunds: seq<Refund>): int {
    if refunds == [] then 0
    else Refunded(refunds[..|refunds| - 1]) + refunds[|refunds| - 1].amount
  }

  // ---- The laws ----

  /**
   * Conservation: what the contract holds is what it owes to creators, what is locked for later delivery, and
   * the fees kept from refunds.  The three last terms are never negative, and stay 0 unless the fee collector is
   * the contract itself, somebody transfers tokens to the contract directly, or a profile with a debt is removed.
   */
  ghost predicate Conserved(self: Address, b: Book, h: History) {
    Wallet(b.wallets, self) == Total(b.profiles, BalanceOf) + Total(b.scheduled, LockedOf) + Kept(h.refunds)
                               + h.feesToSelf + h.gifts - h.writtenOff
  }

  /** No tip is refunded twice, and payout plus kept fee is the tip. */
  ghost predicate RefundsOk(tipCount: nat, open: map<nat, Tip>, refunds: seq<Refund>) {
    && (forall i, j :: 0 <= i < j < |refunds| ==> refunds[i].tip != refunds[j].tip)
    && (forall i :: 0 <= i < |refunds| ==> RefundOk(tipCount, open, refunds[i]))
  }

  predicate RefundOk(tipCount: nat, open: map<nat, Tip>, r: Refund) {
    r.tip < tipCount && r.tip !in open && 0 < r.payout && 0 <= r.keptFee && r.payout + r.keptFee == r.amount
  }

  predicate TipOk(self: Address, tipCount: nat, id: nat, t: Tip) {
    id < tipCount && 0 < t.amount && t.sender != self
  }

  ghost predicate OpenOk(self: Address, tipCount: nat, open: map<nat, Tip>) {
    forall id :: id in open ==> TipOk(self, tipCount, id, open[id])
  }

  /** Every tip ever recorded is in the volume, so no sequence of refunds can make a balance underflow. */
  ghost predicate VolumeOk(volume: int, open: map<nat, Tip>, refunds: seq<Refund>) {
    volume == Total(open, AmountOf) + Refunded(refunds) && volume <= I128_MAX
  }

  function Released(t: Scheduled): nat {
    if t.delivered || t.cancelled then 1 else 0
  }

  predicate ScheduledOk(self: Address, count: nat, id: nat, t: Scheduled) {
    id <= count && 0 < t.amount && t.sender != self && !(t.delivered && t.cancelled)
  }

  /** A scheduled tip leaves the lock at most once, by delivery or by cancellation. */
  ghost predicate ExitsOk(self: Address, scheduled: map<nat, Scheduled>, count: nat, exits: multiset<nat>) {
    && (forall id :: id in scheduled ==> ScheduledOk(self, count, id, scheduled[id]))
    && (forall id: nat :: exits[id] == if id in scheduled then Released(scheduled[id]) else 0)
  }

  /** The tips to one creator that are recorded and not refunded. */
  function OpenTo(open: map<nat, Tip>, a: Address): map<nat, Tip> {
    map id | id in open && open[id].creator == a :: open[id]
  }

  ghost predicate TotalOk(profiles: map<Address, Profile>, open: map<nat, Tip>, a: Address) {
    if a in profiles
    then profiles[a].received == Total(OpenTo(open, a), AmountOf) && profiles[a].count == |OpenTo(open, a)|
    else OpenTo(open, a) == map[]
  }

  /** A creator's lifetime total and count are those of the tips not refunded, unless the profile was once removed. */
  ghost predicate TotalsOk(profiles: map<Address, Profile>, open: map<nat, Tip>, removed: set<Address>) {
    forall a :: a !in removed ==> TotalOk(profiles, open, a)
  }

  ghost predicate LawsOk(self: Address, b: Book, h: History) {
    && Conserved(self, b, h)
    && RefundsOk(b.tipCount, h.open, h.refunds)
    && OpenOk(self, b.tipCount, h.open)
    && VolumeOk(b.volume, h.open, h.refunds)
    && 0 <= Refunded(h.refunds) && self !in b.profiles
    && (forall a :: a in b.profiles ==> -Refunded(h.refunds) <= b.profiles[a].balance <= I128_MAX)
    && ExitsOk(self, b.scheduled, b.scheduledCount, h.exits)
    && 0 <= h.feesToSelf && 0 <= h.gifts && 0 <= h.writtenOff
  }

  ghost predicate LedgerOk(self: Address, b: Book, h: History) {
    LawsOk(self, b, h) && TotalsOk(b.profiles, h.open, h.removed)
  }

  lemma OpenTip(self: Address, b: Book, h: History, id: nat)
    requires LedgerOk(self, b, h) && id in h.open
    ensures TipOk(self, b.tipCount, id, h.open[id])
  {
  }

  lemma BalanceFits(self: Address, b: Book, h: History, a: Address)
    requires LedgerOk(self, b, h) && a in b.profiles
    ensures a != self && b.profiles[a].balance <= I128_MAX
  {
  }

  lemma LockedTip(self: Address, b: Book, h: History, id: nat)
    requires LedgerOk(self, b, h) && id in b.scheduled
    ensures ScheduledOk(self, b.scheduledCount, id, b.scheduled[id])
  {
  }

  // ---- Solvency ----

  function OwedOf(p: Profile): int { Max(p.balance, 0) }

  function DebtOf(p: Profile): int { Max(-p.balance, 0) }

  lemma {:induction false} OwedAndDebts(profiles: map<Address, Profile>)
    ensures Total(profiles, BalanceOf) == Total(profiles, OwedOf) - Total(profiles, DebtOf)
    decreases |profiles|
  {
    if |profiles| != 0 {
      OwedAndDebts(profiles - {Pick(profiles)});
    }
  }

  lemma {:induction false} PartOfTotal(profiles: map<Address, Profile>, a: Address)
    requires a in profiles
    ensures OwedOf(profiles[a]) <= Total(profiles, OwedOf) && 0 <= Total(profiles, OwedOf)
  {
    TotalRemove(profiles, OwedOf, a);
    TotalNonNegative(profiles - {a}, OwedOf);
  }

  lemma {:induction false} KeptNonNegative(tipCount: nat, open: map<nat, Tip>, refunds: seq<Refund>)
    requires RefundsOk(tipCount, open, refunds)
    ensures 0 <= Kept(refunds)
  {
    if refunds != [] {
      var front := refunds[..|refunds| - 1];
      assert forall i :: 0 <= i < |front| ==> RefundOk(tipCount, open, refunds[i]);
      KeptNonNegative(tipCount, open, front);
      assert RefundOk(tipCount, open, refunds[|refunds| - 1]);
    }
  }

  /** What the contract holds beyond what it owes to creators. */
  ghost function Cushion(b: Book, h: History): int {
    Total(b.scheduled, LockedOf) + Kept(h.refunds) + h.feesToSelf + h.gifts
  }

  /**
   * The contract can pay every creator in full at once exactly when the debts of the others, and those written
   * off, are covered by what it holds for other purposes: a debt is paid out of the locks and the kept fees.
   */
  lemma SolventIff(self: Address, b: Book, h: History)
    requires LedgerOk(self, b, h)
    ensures Total(b.profiles, OwedOf) <= Wallet(b.wallets, self)
            <==> Total(b.profiles, DebtOf) + h.writtenOff <= Cushion(b, h)
  {
    OwedAndDebts(b.profiles);
  }

  /** Without debts every creator's balance is in the contract's wallet, next to all that is locked. */
  lemma CreatorsArePayable(self: Address, b: Book, h: History, a: Address)
    requires LedgerOk(self, b, h) && a in b.profiles
    ensures (forall p :: p in b.profiles ==> 0 <= b.profiles[p].balance) && h.writtenOff == 0 ==>
              b.profiles[a].balance + Total(b.scheduled, LockedOf) <= Wallet(b.wallets, self)
    ensures b.profiles[a].balance + Total(b.scheduled, LockedOf)
            <= Wallet(b.wallets, self) + Total(b.profiles, DebtOf) + h.writtenOff
  {
    OwedAndDebts(b.profiles);
    PartOfTotal(b.profiles, a);
    KeptNonNegative(b.tipCount, h.open, h.refunds);
    if forall p :: p in b.profiles ==> 0 <= b.profiles[p].balance {
      NoDebts(b.profiles);
    }
  }

  lemma {:induction false} NoDebts(profiles: map<Address, Profile>)
    requires forall p :: p in profiles ==> 0 <= profiles[p].balance
    ensures Total(profiles, DebtOf) == 0
    decreases |profiles|
  {
    if |profiles| != 0 {
      NoDebts(profiles - {Pick(profiles)});
    }
  }

  // ---- Transfers of the native token ----

  function Moved(w: map<Address, int>, from: Address, to: Address, amount: int): map<Address, int> {
    var paid := w[from := Wallet(w, from) - amount];
    paid[to := Wallet(paid, to) + amount]
  }

  function Transfer(w: map<Address, int>, from: Address, to: Address, amount: int)
    : (r: Result<map<Address, int>, ContractError>)
    ensures r.Ok? <==> 0 < amount <= Wallet(w, from)
    ensures r.Ok? ==> r.value == Moved(w, from, to, amount)
    ensures r.Ok? && from != to ==>
              Wallet(r.value, from) == Wallet(w, from) - amount && Wallet(r.value, to) == Wallet(w, to) + amount
    ensures r.Ok? && from == to ==> Wallet(r.value, from) == Wallet(w, from)
    ensures r.Ok? ==> forall a :: a != from && a != to ==> Wallet(r.value, a) == Wallet(w, a)
  {
    if amount <= 0 then Err(InvalidAmount)
    else if Wallet(w, from) < amount then Err(InsufficientBalance)
    else Ok(Moved(w, from, to, amount))
  }

  // ---- Why each step keeps the laws ----

  /** The profiles after a creator gained a tip; no other profile changes. */
  predicate Gained(was: map<Address, Profile>, profiles: map<Address, Profile>, a: Address, amount: int) {
    a in was && profiles == was[a := Profile(was[a].balance + amount, was[a].received + amount, was[a].count + 1)]
  }

  lemma OpenToGrows(open: map<nat, Tip>, n: nat, t: Tip, a: Address)
    requires n !in open
    ensures OpenTo(open[n := t], a) == if a == t.creator then OpenTo(open, a)[n := t] else OpenTo(open, a)
    ensures n !in OpenTo(open, a)
  {
  }

  lemma GainKeepsTotals(profiles: map<Address, Profile>, profiles': map<Address, Profile>, open: map<nat, Tip>,
                        removed: set<Address>, n: nat, t: Tip)
    requires TotalsOk(profiles, open, removed) && Gained(profiles, profiles', t.creator, t.amount) && n !in open
    ensures TotalsOk(profiles', open[n := t], removed)
  {
    forall a | a !in removed
      ensures TotalOk(profiles', open[n := t], a)
    {
      assert TotalOk(profiles, open, a);
      OpenToGrows(open, n, t, a);
      var mine := OpenTo(open, a);
      hide OpenTo;
      if a == t.creator {
        TotalUpdate(mine, AmountOf, n, t);
        assert |mine[n := t]| == |mine| + 1;
      }
    }
  }

  /** The profiles after a creator lost a refunded tip, and nothing was cut short or clamped. */
  predicate Lost(was: map<Address, Profile>, profiles: map<Address, Profile>, a: Address, amount: int) {
    a in was && 1 <= was[a].count
    && profiles == was[a := Profile(was[a].balance - amount, was[a].received - amount, was[a].count - 1)]
  }

  lemma OpenToShrinks(open: map<nat, Tip>, id: nat, a: Address)
    requires id in open
    ensures OpenTo(open - {id}, a) == if a == open[id].creator then OpenTo(open, a) - {id} else OpenTo(open, a)
    ensures a == open[id].creator ==> id in OpenTo(open, a) && OpenTo(open, a)[id] == open[id]
  {
  }

  lemma OpenToIsPositive(self: Address, tipCount: nat, open: map<nat, Tip>, a: Address, id: nat)
    requires OpenOk(self, tipCount, open)
    ensures 0 <= Total(OpenTo(open, a) - {id}, AmountOf)
  {
    forall x | x in OpenTo(open, a)
      ensures 0 <= AmountOf(OpenTo(open, a)[x])
    {
      assert TipOk(self, tipCount, x, open[x]);
    }
    TotalNonNegative(OpenTo(open, a) - {id}, AmountOf);
  }

  /** A refund takes one tip from its creator's total and count; neither is cut short. */
  lemma LossIsExact(self: Address, b: Book, h: History, id: nat)
    requires OpenOk(self, b.tipCount, h.open) && TotalsOk(b.profiles, h.open, h.removed)
    requires id in h.open && h.open[id].creator in b.profiles && h.open[id].creator !in h.removed
    requires TakenBack(b, h.open[id].creator, h.open[id].amount).profiles[h.open[id].creator].balance
             == b.profiles[h.open[id].creator].balance - h.open[id].amount
    ensures var a, amount := h.open[id].creator, h.open[id].amount;
            Lost(b.profiles, TakenBack(b, a, amount).profiles, a, amount)
  {
    var c := h.open[id].creator;
    assert TotalOk(b.profiles, h.open, c);
    OpenToShrinks(h.open, id, c);
    OpenToIsPositive(self, b.tipCount, h.open, c, id);
    TotalRemove(OpenTo(h.open, c), AmountOf, id);
  }

  lemma LossKeepsTotals(profiles: map<Address, Profile>, profiles': map<Address, Profile>, open: map<nat, Tip>,
                        removed: set<Address>, id: nat)
    requires TotalsOk(profiles, open, removed) && id in open
    requires profiles'.Keys == profiles.Keys
    requires forall a :: a in profiles && a != open[id].creator ==> profiles'[a] == profiles[a]
    requires open[id].creator !in removed ==> Lost(profiles, profiles', open[id].creator, open[id].amount)
    ensures TotalsOk(profiles', open - {id}, removed)
  {
    forall a | a !in removed
      ensures TotalOk(profiles', open - {id}, a)
    {
      assert TotalOk(profiles, open, a);
      OpenToShrinks(open, id, a);
      var mine := OpenTo(open, a);
      hide OpenTo;
      if a == open[id].creator {
        TotalRemove(mine, AmountOf, id);
        assert |mine - {id}| == |mine| - 1;
      }
    }
  }

  /** Only balances change. */
  lemma SameTotals(profiles: map<Address, Profile>, profiles': map<Address, Profile>, open: map<nat, Tip>,
                   removed: set<Address>)
    requires TotalsOk(profiles, open, removed) && profiles'.Keys == profiles.Keys
    requires forall a :: a in profiles ==> profiles'[a].(balance := profiles[a].balance) == profiles[a]
    ensures TotalsOk(profiles', open, removed)
  {
    forall a | a !in removed
      ensures TotalOk(profiles', open, a)
    {
      assert TotalOk(profiles, open, a);
    }
  }

  lemma NewProfileKeepsTotals(profiles: map<Address, Profile>, open: map<nat, Tip>, removed: set<Address>, a: Address)
    requires TotalsOk(profiles, open, removed) && a !in profiles
    ensures TotalsOk(profiles[a := Profile(0, 0, 0)], open, removed)
  {
    forall x | x !in removed
      ensures TotalOk(profiles[a := Profile(0, 0, 0)], open, x)
    {
      assert TotalOk(profiles, open, x);
    }
  }

  lemma RemovalKeepsTotals(profiles: map<Address, Profile>, open: map<nat, Tip>, removed: set<Address>, a: Address)
    requires TotalsOk(profiles, open, removed)
    ensures TotalsOk(profiles - {a}, open, removed + {a})
  {
    forall x | x !in removed + {a}
      ensures TotalOk(profiles - {a}, open, x)
    {
      assert TotalOk(profiles, open, x);
    }
  }

  /** The book after a creator has been credited with a recorded tip. */
  function Credited(b: Book, creator: Address, amount: int): Book
    requires creator in b.profiles
  {
    var p := b.profiles[creator];
    b.(profiles := b.profiles[creator := Profile(p.balance + amount, p.received + amount, p.count + 1)],
       tipCount := b.tipCount + 1, volume := b.volume + amount)
  }

  lemma NextIsNew(self: Address, b: Book, h: History)
    requires LawsOk(self, b, h)
    ensures b.tipCount !in h.open
  {
    assert b.tipCount in h.open ==> TipOk(self, b.tipCount, b.tipCount, h.open[b.tipCount]);
  }

  lemma OpenOneMore(self: Address, tipCount: nat, open: map<nat, Tip>, refunds: seq<Refund>, volume: int, t: Tip)
    requires RefundsOk(tipCount, open, refunds) && OpenOk(self, tipCount, open) && VolumeOk(volume, open, refunds)
    requires 0 < t.amount && t.sender != self && volume + t.amount <= I128_MAX
    ensures RefundsOk(tipCount + 1, open[tipCount := t], refunds)
    ensures OpenOk(self, tipCount + 1, open[tipCount := t])
    ensures VolumeOk(volume + t.amount, open[tipCount := t], refunds)
  {
    assert tipCount in open ==> TipOk(self, tipCount, tipCount, open[tipCount]);
    TotalUpdate(open, AmountOf, tipCount, t);
    forall i | 0 <= i < |refunds|
      ensures RefundOk(tipCount + 1, open[tipCount := t], refunds[i])
    {
      assert RefundOk(tipCount, open, refunds[i]);
    }
    forall id | id in open
      ensures TipOk(self, tipCount + 1, id, open[id])
    {
      assert TipOk(self, tipCount, id, open[id]);
    }
  }

  /** Crediting a tip raises what is owed by its amount; the caller brings the same amount in. */
  lemma CreditKeepsLaws(self: Address, b: Book, h: History, t: Tip, w: map<Address, int>)
    requires LawsOk(self, b, h) && t.creator in b.profiles && 0 < t.amount && t.sender != self
    requires b.profiles[t.creator].balance + t.amount <= I128_MAX && b.volume + t.amount <= I128_MAX
    requires Wallet(w, self) == Wallet(b.wallets, self) + t.amount
    ensures LawsOk(self, Credited(b, t.creator, t.amount).(wallets := w), h.(open := h.open[b.tipCount := t]))
  {
    OpenOneMore(self, b.tipCount, h.open, h.refunds, b.volume, t);
    TotalUpdate(b.profiles, BalanceOf, t.creator, Credited(b, t.creator, t.amount).profiles[t.creator]);
  }

  function Debited(b: Book, a: Address, amount: int): Book
    requires a in b.profiles
  {
    b.(profiles := b.profiles[a := b.profiles[a].(balance := b.profiles[a].balance - amount)])
  }

  /** A withdrawal pays out what it takes from the balance; `back` is a fee collected by the contract itself. */
  lemma DebitKeepsLaws(self: Address, b: Book, h: History, a: Address, amount: int, w: map<Address, int>, back: int,
                       fees: int)
    requires LawsOk(self, b, h) && a in b.profiles && 0 < amount <= b.profiles[a].balance
    requires Wallet(w, self) == Wallet(b.wallets, self) - amount + back && 0 <= back
    ensures LawsOk(self, Debited(b, a, amount).(wallets := w, fees := fees), h.(feesToSelf := h.feesToSelf + back))
  {
    TotalUpdate(b.profiles, BalanceOf, a, Debited(b, a, amount).profiles[a]);
  }

  /** The book after a scheduled tip took the next id, `n`. */
  function Locked(b: Book, n: nat, t: Scheduled): Book {
    b.(scheduled := b.scheduled[n := t], scheduledCount := n)
  }

  lemma LockKeepsLaws(self: Address, b: Book, h: History, n: nat, t: Scheduled, w: map<Address, int>)
    requires LawsOk(self, b, h) && 0 < t.amount && t.sender != self && !t.delivered && !t.cancelled
    requires n == b.scheduledCount + 1 && Wallet(w, self) == Wallet(b.wallets, self) + t.amount
    ensures LawsOk(self, Locked(b, n, t).(wallets := w), h)
  {
    LockOneMore(self, b.scheduled, b.scheduledCount, n, h.exits, t);
    TotalUpdate(b.scheduled, LockedOf, n, t);
  }

  lemma LockOneMore(self: Address, scheduled: map<nat, Scheduled>, count: nat, n: nat, exits: multiset<nat>,
                    t: Scheduled)
    requires ExitsOk(self, scheduled, count, exits) && n == count + 1
    requires 0 < t.amount && t.sender != self && !t.delivered && !t.cancelled
    ensures ExitsOk(self, scheduled[n := t], n, exits) && n !in scheduled
  {
  }

  /** The book after a scheduled tip has left the lock, one way or the other. */
  function Unlocked(b: Book, id: nat, delivered: bool): Book
    requires id in b.scheduled
  {
    b.(scheduled := b.scheduled[id := b.scheduled[id].(delivered := delivered, cancelled := !delivered)])
  }

  lemma UnlockKeepsLaws(self: Address, b: Book, h: History, id: nat, delivered: bool, w: map<Address, int>, back: int)
    requires LawsOk(self, b, h) && id in b.scheduled
    requires !b.scheduled[id].delivered && !b.scheduled[id].cancelled
    requires Wallet(w, self) == Wallet(b.wallets, self) - b.scheduled[id].amount + back && 0 <= back
    ensures LawsOk(self, Unlocked(b, id, delivered).(wallets := w),
                     h.(exits := h.exits + multiset{id}, feesToSelf := h.feesToSelf + back))
  {
    TotalUpdate(b.scheduled, LockedOf, id, Unlocked(b, id, delivered).scheduled[id]);
    UnlockOne(self, b.scheduled, b.scheduledCount, h.exits, id, Unlocked(b, id, delivered).scheduled[id]);
  }

  /** A cancelled tip leaves the lock; the fee counter is in no law. */
  lemma CancelKeepsLaws(self: Address, b: Book, h: History, id: nat, w: map<Address, int>, back: int, fees: int)
    requires LawsOk(self, b, h) && id in b.scheduled && Released(b.scheduled[id]) == 0
    requires Wallet(w, self) == Wallet(b.wallets, self) - b.scheduled[id].amount + back && 0 <= back
    ensures LawsOk(self, Unlocked(b, id, false).(wallets := w, fees := fees),
                     h.(exits := h.exits + multiset{id}, feesToSelf := h.feesToSelf + back))
  {
    UnlockKeepsLaws(self, b, h, id, false, w, back);
  }

  lemma UnlockOne(self: Address, scheduled: map<nat, Scheduled>, count: nat, exits: multiset<nat>, id: nat,
                  t: Scheduled)
    requires ExitsOk(self, scheduled, count, exits) && id in scheduled
    requires Released(scheduled[id]) == 0 && Released(t) == 1
    requires !(t.delivered && t.cancelled) && t.amount == scheduled[id].amount && t.sender == scheduled[id].sender
    ensures ExitsOk(self, scheduled[id := t], count, exits + multiset{id})
  {
  }

  /** Delivery moves money from the lock to the creator; none enters or leaves the contract. */
  lemma DeliveryKeepsLaws(self: Address, b: Book, h: History, id: nat)
    requires LawsOk(self, b, h) && id in b.scheduled && b.scheduled[id].creator in b.profiles
    requires !b.scheduled[id].delivered && !b.scheduled[id].cancelled
    requires b.profiles[b.scheduled[id].creator].balance + b.scheduled[id].amount <= I128_MAX
    requires b.volume + b.scheduled[id].amount <= I128_MAX
    ensures var t := b.scheduled[id];
            LawsOk(self, Credited(Unlocked(b, id, true), t.creator, t.amount),
                     h.(exits := h.exits + multiset{id},
                        open := h.open[b.tipCount := Tip(t.sender, t.creator, t.amount)]))
  {
    hide Total, RefundsOk, Refunded;
    var t, b1 := b.scheduled[id], Unlocked(b, id, true);
    assert ScheduledOk(self, b.scheduledCount, id, t);
    UnlockOne(self, b.scheduled, b.scheduledCount, h.exits, id, b1.scheduled[id]);
    OpenOneMore(self, b.tipCount, h.open, h.refunds, b.volume, Tip(t.sender, t.creator, t.amount));
    MovedInside(b, id);
  }

  /** What leaves the lock is owed to the creator. */
  lemma MovedInside(b: Book, id: nat)
    requires id in b.scheduled && b.scheduled[id].creator in b.profiles && Released(b.scheduled[id]) == 0
    ensures var t := b.scheduled[id];
            var after := Credited(Unlocked(b, id, true), t.creator, t.amount);
            Total(after.profiles, BalanceOf) + Total(after.scheduled, LockedOf)
            == Total(b.profiles, BalanceOf) + Total(b.scheduled, LockedOf)
  {
    var t, b1 := b.scheduled[id], Unlocked(b, id, true);
    TotalUpdate(b.scheduled, LockedOf, id, b1.scheduled[id]);
    TotalUpdate(b.profiles, BalanceOf, t.creator, Credited(b1, t.creator, t.amount).profiles[t.creator]);
  }

  function SaturatingSub(a: int, b: int): int { Max(I128_MIN, a - b) }

  /** The book after a refund has been taken from the creator's profile. */
  function TakenBack(b: Book, creator: Address, amount: int): Book
    requires creator in b.profiles
  {
    var p := b.profiles[creator];
    b.(profiles := b.profiles[creator := Profile(SaturatingSub(p.balance, amount), SaturatingSub(p.received, amount),
                                                 Max(p.count - 1, 0))])
  }

  lemma KeptAndRefunded(refunds: seq<Refund>, r: Refund)
    ensures Kept(refunds + [r]) == Kept(refunds) + r.keptFee
    ensures Refunded(refunds + [r]) == Refunded(refunds) + r.amount
  {
  }

  lemma CloseOne(self: Address, tipCount: nat, open: map<nat, Tip>, refunds: seq<Refund>, volume: int, r: Refund)
    requires RefundsOk(tipCount, open, refunds) && OpenOk(self, tipCount, open) && VolumeOk(volume, open, refunds)
    requires r.tip in open && r.amount == open[r.tip].amount
    requires 0 < r.payout && 0 <= r.keptFee && r.payout + r.keptFee == r.amount
    ensures RefundsOk(tipCount, open - {r.tip}, refunds + [r])
    ensures OpenOk(self, tipCount, open - {r.tip})
    ensures VolumeOk(volume, open - {r.tip}, refunds + [r])
    ensures 0 < r.amount && Refunded(refunds + [r]) <= volume
  {
    var rest := open - {r.tip};
    assert TipOk(self, tipCount, r.tip, open[r.tip]);
    KeptAndRefunded(refunds, r);
    TotalRemove(open, AmountOf, r.tip);
    forall id | id in rest
      ensures TipOk(self, tipCount, id, rest[id])
    {
      assert TipOk(self, tipCount, id, open[id]);
    }
    TotalNonNegative(rest, AmountOf) by {
      assert forall id :: id in rest ==> TipOk(self, tipCount, id, rest[id]);
    }
    forall i | 0 <= i < |refunds|
      ensures RefundOk(tipCount, rest, refunds[i]) && refunds[i].tip != r.tip
    {
      assert RefundOk(tipCount, open, refunds[i]);
    }
  }

  /**
   * Refunding an open tip keeps the laws, and the saturating subtraction of the balance is exact: all refunds
   * together stay below the volume counter, which was checked against overflow when the tips came in.
   */
  lemma RefundKeepsLaws(self: Address, b: Book, h: History, r: Refund, w: map<Address, int>)
    requires LawsOk(self, b, h) && r.tip in h.open && h.open[r.tip].creator in b.profiles
    requires r.amount == h.open[r.tip].amount && 0 < r.payout && 0 <= r.keptFee && r.payout + r.keptFee == r.amount
    requires Wallet(w, self) == Wallet(b.wallets, self) - r.payout
    ensures var c := h.open[r.tip].creator;
            && TakenBack(b, c, r.amount).profiles[c].balance == b.profiles[c].balance - r.amount
            && LawsOk(self, TakenBack(b, c, r.amount).(wallets := w),
                        h.(open := h.open - {r.tip}, refunds := h.refunds + [r]))
  {
    var c := h.open[r.tip].creator;
    CloseOne(self, b.tipCount, h.open, h.refunds, b.volume, r);
    KeptAndRefunded(h.refunds, r);
    TotalUpdate(b.profiles, BalanceOf, c, TakenBack(b, c, r.amount).profiles[c]);
  }

  lemma AddProfileKeepsLaws(self: Address, b: Book, h: History, a: Address)
    requires LawsOk(self, b, h) && a != self && a !in b.profiles
    ensures LawsOk(self, b.(profiles := b.profiles[a := Profile(0, 0, 0)]), h)
  {
    TotalUpdate(b.profiles, BalanceOf, a, Profile(0, 0, 0));
  }

  /** Removing a profile writes off its balance, which is 0 or a debt. */
  lemma RemoveProfileKeepsLaws(self: Address, b: Book, h: History, a: Address)
    requires LawsOk(self, b, h) && a in b.profiles && b.profiles[a].balance <= 0
    ensures LawsOk(self, b.(profiles := b.profiles - {a}),
                     h.(writtenOff := h.writtenOff - b.profiles[a].balance, removed := h.removed + {a}))
  {
    TotalRemove(b.profiles, BalanceOf, a);
  }

  /** Direct transfers by outsiders count as gifts. */
  lemma GiftKeepsLaws(self: Address, b: Book, h: History, amount: int, w: map<Address, int>)
    requires LawsOk(self, b, h) && 0 <= amount && Wallet(w, self) == Wallet(b.wallets, self) + amount
    ensures LawsOk(self, b.(wallets := w), h.(gifts := h.gifts + amount))
  {
  }

  // ---- The contract's calls ----

  /** A withdrawal of 0 asks for the whole balance. */
  function ValidateWithdrawal(amount: i128, minAmount: int, balance: int): Result<int, ContractError> {
    if amount < 0 then Err(InvalidAmount)
    else if balance <= 0 then Err(InsufficientBalance)
    else if amount == 0 then Ok(balance)
    else if amount < minAmount then Err(WdrBelowMin)
    else if amount > balance then Err(InsufficientBalance)
    else Ok(amount)
  }

  predicate CanCredit(b: Book, creator: Address, amount: int) {
    && creator in b.profiles
    && b.profiles[creator].balance + amount <= I128_MAX
    && b.profiles[creator].received + amount <= I128_MAX
    && b.profiles[creator].count < U32_MAX
    && b.volume + amount <= I128_MAX
    && b.tipCount < U32_MAX
  }

  /** What a machine of 128 and 32 bits can hold. */
  predicate Fits(b: Book, creator: Address)
    requires creator in b.profiles
  {
    && b.profiles[creator].balance <= I128_MAX && b.profiles[creator].received <= I128_MAX
    && b.profiles[creator].count <= U32_MAX && b.volume <= I128_MAX && b.tipCount <= U32_MAX
  }

  /** A tip is creditable exactly when its creator is registered and every counter it raises still fits. */
  lemma CanCreditIff(b: Book, creator: Address, amount: int)
    ensures CanCredit(b, creator, amount) <==> creator in b.profiles && Fits(Credited(b, creator, amount), creator)
  {
  }

  /** Pays `net` to `to` and, if there is one, the fee to the collector. */
  function PayOut(w: map<Address, int>, self: Address, to: Address, net: int, collector: Address, fee: int)
    : (r: Result<map<Address, int>, ContractError>)
    requires to != self && 0 <= fee
    ensures r.Ok? <==> 0 < net && net + fee <= Wallet(w, self)
    ensures r.Ok? ==> Wallet(r.value, self) == Wallet(w, self) - net - if collector == self then 0 else fee
    ensures r.Ok? && collector != to ==> Wallet(r.value, to) == Wallet(w, to) + net
    ensures r.Ok? && collector != self && collector != to ==> Wallet(r.value, collector) == Wallet(w, collector) + fee
    ensures r.Ok? ==> forall a :: a != self && a != to && a != collector ==> Wallet(r.value, a) == Wallet(w, a)
  {
    match Transfer(w, self, to, net)
    case Err(e) => Err(e)
    case Ok(w1) => if fee == 0 then Ok(w1) else Transfer(w1, self, collector, fee)
  }

  /** What leaves the contract in one payout, of which `fee` is for the collector, and the wallets afterwards. */
  datatype Payout = Payout(amount: int, fee: int, wallets: map<Address, int>)

  /** The payee gets the amount less the fee, the collector the fee, and the contract parts with both. */
  predicate PaysExactly(was: map<Address, int>, p: Payout, self: Address, to: Address, collector: Address) {
    && 0 <= p.fee < p.amount
    && Wallet(p.wallets, self) == Wallet(was, self) - p.amount + BackTo(self, collector, p.fee)
    && (collector != to ==> Wallet(p.wallets, to) == Wallet(was, to) + p.amount - p.fee)
    && (collector != to && collector != self ==> Wallet(p.wallets, collector) == Wallet(was, collector) + p.fee)
  }

  /** A withdrawal, after every check of the caller's balance and of the transfers. */
  function Withdraw(b: Book, self: Address, caller: Address, requested: i128, minAmount: int, feeBps: u32,
                    collector: Address): (r: Result<Payout, ContractError>)
    requires self !in b.profiles && forall a :: a in b.profiles ==> b.profiles[a].balance <= I128_MAX
    ensures r.Ok? <==>
              && caller in b.profiles && 0 < b.profiles[caller].balance && 0 <= requested
              && var amount := if requested == 0 then b.profiles[caller].balance else requested;
              && (requested == 0 || minAmount <= amount <= b.profiles[caller].balance)
              && var split := Fees.CalculateFee(amount, feeBps);
              && split.Ok? && 0 < split.value.net && amount <= Wallet(b.wallets, self)
              && b.fees + split.value.fee <= I128_MAX
    ensures r.Ok? ==>
              && r.value.amount == (if requested == 0 then b.profiles[caller].balance else requested)
    ensures r.Ok? ==>
              && caller in b.profiles && 0 < r.value.amount <= b.profiles[caller].balance
              && PaysExactly(b.wallets, r.value, self, caller, collector) && b.fees + r.value.fee <= I128_MAX
              && Fees.CalculateFee(r.value.amount, feeBps) == Ok(Fees.Split(r.value.fee, r.value.amount - r.value.fee))
  {
    if caller !in b.profiles then Err(NotRegistered)
    else
      match ValidateWithdrawal(requested, minAmount, b.profiles[caller].balance)
      case Err(e) => Err(e)
      case Ok(amount) =>
        match Fees.CalculateFee(amount, feeBps)
        case Err(e) => Err(e)
        case Ok(split) =>
          match PayOut(b.wallets, self, caller, split.net, collector, split.fee)
          case Err(e) => Err(e)
          case Ok(wallets) =>
            if b.fees + split.fee > I128_MAX then Err(OverflowError) else Ok(Payout(amount, split.fee, wallets))
  }

  /** Only the sender may cancel, before delivery is due, a tip that is still locked. */
  function CancelRefused(b: Book, gate: Option<ContractError>, caller: Address, id: nat, now: nat)
    : (refused: Option<ContractError>)
    ensures refused == None <==>
              && gate.None? && id in b.scheduled && b.scheduled[id].sender == caller
              && Released(b.scheduled[id]) == 0 && now < b.scheduled[id].deliverAt
  {
    if gate.Some? then gate
    else if id !in b.scheduled then Some(NotFound)
    else if b.scheduled[id].sender != caller then Some(NotAuthorized)
    else if b.scheduled[id].delivered || b.scheduled[id].cancelled then Some(InvalidInput)
    else if b.scheduled[id].deliverAt <= now then Some(InvalidInput)
    else None
  }

  /** The refund of a scheduled tip, less one percent. */
  function CancelPayout(b: Book, self: Address, t: Scheduled, collector: Address): (r: Result<Payout, ContractError>)
    requires 0 < t.amount && t.sender != self
    ensures r.Ok? <==> t.amount <= Wallet(b.wallets, self) && b.fees + t.amount / 100 <= I128_MAX
    ensures r.Ok? ==>
              && r.value.amount == t.amount && r.value.fee == t.amount / 100
              && PaysExactly(b.wallets, r.value, self, t.sender, collector)
  {
    var fee := t.amount / 100;
    match PayOut(b.wallets, self, t.sender, t.amount - fee, collector, fee)
    case Err(e) => Err(e)
    case Ok(wallets) => if b.fees + fee > I128_MAX then Err(OverflowError) else Ok(Payout(t.amount, fee, wallets))
  }

  function BackTo(self: Address, collector: Address, fee: int): int {
    if collector == self then fee else 0
  }

  /**
   * One contract instance.  `gate` stands for the checks of a call that read nothing kept here: pause flags,
   * rate limits, pinned configuration, block lists, minimum amounts, message rules.  No caller acts as the
   * contract's own address, which cannot sign.
   */
  class TipLedger {
    const self: Address
    var book: Book
    ghost var hist: History

    ghost predicate Valid()
      reads this
    {
      LedgerOk(self, book, hist)
    }

    constructor (self: Address, wallets: map<Address, int>)
      requires 0 <= Wallet(wallets, self)
      ensures Valid() && this.self == self && hist.open == map[] && hist.refunds == []
      ensures hist.writtenOff == 0 && hist.feesToSelf == 0 && hist.gifts == Wallet(wallets, self)
      ensures book == Book(wallets, map[], map[], 0, 0, 0, 0)
    {
      this.self := self;
      book := Book(wallets, map[], map[], 0, 0, 0, 0);
      hist := History(map[], [], multiset{}, 0, Wallet(wallets, self), 0, {});
    }

    method SendTip(gate: Option<ContractError>, tipper: Address, creator: Address, amount: i128)
      returns (r: Result<nat, ContractError>)
      requires Valid() && tipper != self
      modifies this
      ensures Valid()
      ensures r.Ok? <==> gate.None? && tipper != creator && 0 < amount <= Wallet(old(book).wallets, tipper)
                         && CanCredit(old(book), creator, amount)
      ensures r.Ok? ==>
                && r.value == old(book).tipCount
                && book == Credited(old(book), creator, amount)
                           .(wallets := Moved(old(book).wallets, tipper, self, amount))
                && hist == old(hist).(open := old(hist).open[r.value := Tip(tipper, creator, amount)])
      ensures r.Ok? ==> Gained(old(book).profiles, book.profiles, creator, amount) && book.tipCount == r.value + 1
                        && book.volume == old(book).volume + amount && book.scheduled == old(book).scheduled
      ensures r.Err? ==> book == old(book) && hist == old(hist)
    {
      hide LawsOk, TotalsOk;
      var refused: Option<ContractError> :=
        if gate.Some? then gate
        else if creator !in book.profiles then Some(NotRegistered)
        else if tipper == creator then Some(CannotTipSelf)
        else None;
      if refused.Some? {
        return Err(refused.value);
      }
      var moved := Transfer(book.wallets, tipper, self, amount);
      refused :=
        if moved.Err? then Some(moved.error)
        else if !CanCredit(book, creator, amount) then Some(OverflowError)
        else None;
      if refused.Some? {
        return Err(refused.value);
      }
      CreditKeepsLaws(self, book, hist, Tip(tipper, creator, amount), moved.value);
      NextIsNew(self, book, hist);
      GainKeepsTotals(book.profiles, Credited(book, creator, amount).profiles, hist.open, hist.removed, book.tipCount,
                      Tip(tipper, creator, amount));
      r := Ok(book.tipCount);
      hist := hist.(open := hist.open[book.tipCount := Tip(tipper, creator, amount)]);
      book := Credited(book, creator, amount).(wallets := moved.value);
    }

    method WithdrawTips(gate: Option<ContractError>, caller: Address, requested: i128, minAmount: int, feeBps: u32,
                        collector: Address, breaker: Option<ContractError>)
      returns (r: Result<(), ContractError>)
      requires Valid()
      modifies this
      ensures Valid()
      ensures r.Ok? <==> gate.None? && breaker.None?
                         && Withdraw(old(book), self, caller, requested, minAmount, feeBps, collector).Ok?
      ensures r.Ok? ==>
                var w := Withdraw(old(book), self, caller, requested, minAmount, feeBps, collector).value;
                && book == Debited(old(book), caller, w.amount).(wallets := w.wallets, fees := old(book).fees + w.fee)
                && hist == old(hist).(feesToSelf := old(hist).feesToSelf + BackTo(self, collector, w.fee))
                && book.profiles == old(book).profiles[caller := old(book).profiles[caller].(
                                      balance := old(book).profiles[caller].balance - w.amount)]
                && book.fees == old(book).fees + w.fee && book.scheduled == old(book).scheduled
      ensures r.Err? ==> book == old(book) && hist == old(hist)
    {
      hide LawsOk, TotalsOk;
      var refused: Option<ContractError> :=
        if gate.Some? then gate
        else if caller !in book.profiles then Some(NotRegistered)
        else None;
      if refused.Some? {
        return Err(refused.value);
      }
      BalanceFits(self, book, hist, caller);
      var checked := ValidateWithdrawal(requested, minAmount, book.profiles[caller].balance);
      if checked.Err? {
        return Err(checked.error);
      }
      var amount := checked.value;
      var split := Fees.CalculateFee(amount, feeBps);
      refused :=
        if split.Err? then Some(split.error)
        else if breaker.Some? then breaker
        else None;
      if refused.Some? {
        return Err(refused.value);
      }
      var fee := split.value.fee;
      var paid := PayOut(book.wallets, self, caller, split.value.net, collector, fee);
      refused :=
        if paid.Err? then Some(paid.error)
        else if book.fees + fee > I128_MAX then Some(OverflowError)
        else None;
      if refused.Some? {
        return Err(refused.value);
      }
      DebitKeepsLaws(self, book, hist, caller, amount, paid.value, BackTo(self, collector, fee),
                     book.fees + fee);
      SameTotals(book.profiles, Debited(book, caller, amount).profiles, hist.open, hist.removed);
      hist := hist.(feesToSelf := hist.feesToSelf + BackTo(self, collector, fee));
      book := Debited(book, caller, amount).(wallets := paid.value, fees := book.fees + fee);
      return Ok(());
    }

    /** The fee-free exit, open only after the contract has been paused for seven days. */
    method EmergencyWithdrawTips(paused: bool, pausedAt: Option<u64>, now: u64, caller: Address, amount: i128)
      returns (r: Result<(), ContractError>)
      requires Valid()
      modifies this
      ensures Valid() && hist == old(hist)
      ensures r.Ok? <==>
                && paused && pausedAt.Some? && Min(pausedAt.value + 604_800, U64_MAX) <= now
                && caller in old(book).profiles && 0 < amount <= old(book).profiles[caller].balance
                && amount <= Wallet(old(book).wallets, self)
      ensures r.Ok? ==> book == Debited(old(book), caller, amount)
                                .(wallets := Moved(old(book).wallets, self, caller, amount))
      ensures r.Ok? ==> book.profiles == old(book).profiles[caller := old(book).profiles[caller].(
                                           balance := old(book).profiles[caller].balance - amount)]
                        && book.fees == old(book).fees && book.scheduled == old(book).scheduled
      ensures r.Err? ==> book == old(book)
    {
      hide LawsOk, TotalsOk;
      var refused: Option<ContractError> :=
        if !paused || pausedAt.None? then Some(ContractNotPaused)
        else if now < Min(pausedAt.value + EMERGENCY_DELAY_SECS, U64_MAX) then Some(EmergencyNotAllowed)
        else if caller !in book.profiles then Some(NotRegistered)
        else if amount <= 0 then Some(InvalidAmount)
        else None;
      if refused.Some? {
        return Err(refused.value);
      }
      var moved := Transfer(book.wallets, self, caller, amount);
      refused :=
        if book.profiles[caller].balance < amount then Some(InsufficientBalance)
        else if moved.Err? then Some(moved.error)
        else None;
      if refused.Some? {
        return Err(refused.value);
      }
      BalanceFits(self, book, hist, caller);
      DebitKeepsLaws(self, book, hist, caller, amount, moved.value, 0, book.fees);
      SameTotals(book.profiles, Debited(book, caller, amount).profiles, hist.open, hist.removed);
      assert hist.(feesToSelf := hist.feesToSelf + 0) == hist;
      book := Debited(book, caller, amount).(wallets := moved.value);
      return Ok(());
    }

    method SendScheduledTip(gate: Option<ContractError>, sender: Address, creator: Address, amount: i128,
                            deliverAt: u64, now: u64)
      returns (r: Result<nat, ContractError>)
      requires Valid() && sender != self
      modifies this
      ensures Valid() && hist == old(hist)
      ensures r.Ok? <==>
                && gate.None? && creator in old(book).profiles && sender != creator && now < deliverAt
                && 0 < amount <= Wallet(old(book).wallets, sender) && old(book).scheduledCount < U32_MAX
      ensures r.Ok? ==>
                && r.value == old(book).scheduledCount + 1
                && book == Locked(old(book), r.value, Scheduled(sender, creator, amount, deliverAt, false, false))
                           .(wallets := Moved(old(book).wallets, sender, self, amount))
                && book.profiles == old(book).profiles && book.scheduledCount == r.value
                && book.scheduled == old(book).scheduled[r.value :=
                                       Scheduled(sender, creator, amount, deliverAt, false, false)]
      ensures r.Err? ==> book == old(book)
    {
      var refused: Option<ContractError> :=
        if gate.Some? then gate
        else if creator !in book.profiles then Some(NotRegistered)
        else if sender == creator then Some(CannotTipSelf)
        else if amount <= 0 then Some(InvalidAmount)
        else if deliverAt <= now then Some(InvalidInput)
        else None;
      if refused.Some? {
        return Err(refused.value);
      }
      var moved := Transfer(book.wallets, sender, self, amount);
      refused :=
        if moved.Err? then Some(moved.error)
        else if book.scheduledCount >= U32_MAX then Some(OverflowError)
        else None;
      if refused.Some? {
        return Err(refused.value);
      }
      var id := book.scheduledCount + 1;
      var tip := Scheduled(sender, creator, amount, deliverAt, false, false);
      LockKeepsLaws(self, book, hist, id, tip, moved.value);
      book := Locked(book, id, tip).(wallets := moved.value);
      return Ok(id);
    }

    method DeliverScheduledTip(gate: Option<ContractError>, id: u32, now: u64) returns (r: Result<nat, ContractError>)
      requires Valid()
      modifies this
      ensures Valid()
      ensures r.Ok? <==>
                && gate.None? && id in old(book).scheduled
                && var t := old(book).scheduled[id];
                && !t.delivered && !t.cancelled && t.deliverAt <= now && CanCredit(old(book), t.creator, t.amount)
      ensures r.Ok? ==>
                var t := old(book).scheduled[id];
                && r.value == old(book).tipCount
                && book == Credited(Unlocked(old(book), id, true), t.creator, t.amount)
                && hist == old(hist).(exits := old(hist).exits + multiset{id},
                                      open := old(hist).open[r.value := Tip(t.sender, t.creator, t.amount)])
      ensures r.Ok? ==>
                var t := old(book).scheduled[id];
                && Gained(old(book).profiles, book.profiles, t.creator, t.amount) && book.tipCount == r.value + 1
                && book.volume == old(book).volume + t.amount
                && book.scheduled == old(book).scheduled[id := t.(delivered := true)]
      ensures r.Err? ==> book == old(book) && hist == old(hist)
    {
      hide LawsOk, TotalsOk;
      var refused: Option<ContractError> :=
        if gate.Some? then gate
        else if id !in book.scheduled then Some(NotFound)
        else None;
      if refused.Some? {
        return Err(refused.value);
      }
      var t := book.scheduled[id];
      refused :=
        if t.delivered || t.cancelled || now < t.deliverAt then Some(InvalidInput)
        else if t.creator !in book.profiles then Some(NotRegistered)
        else if !CanCredit(book, t.creator, t.amount) then Some(OverflowError)
        else None;
      if refused.Some? {
        return Err(refused.value);
      }
      DeliveryKeepsLaws(self, book, hist, id);
      NextIsNew(self, book, hist);
      GainKeepsTotals(book.profiles, Credited(book, t.creator, t.amount).profiles, hist.open, hist.removed,
                      book.tipCount, Tip(t.sender, t.creator, t.amount));
      r := Ok(book.tipCount);
      hist := hist.(exits := hist.exits + multiset{id},
                    open := hist.open[book.tipCount := Tip(t.sender, t.creator, t.amount)]);
      book := Credited(Unlocked(book, id, true), t.creator, t.amount);
    }

    /** The sender gets the amount back less a fee of one percent, until delivery is due. */
    method CancelScheduledTip(gate: Option<ContractError>, caller: Address, id: u32, now: u64, collector: Address)
      returns (r: Result<(), ContractError>)
      requires Valid()
      modifies this
      ensures Valid()
      ensures CancelRefused(old(book), gate, caller, id, now).Some? ==>
                r == Err(CancelRefused(old(book), gate, caller, id, now).value)
      ensures CancelRefused(old(book), gate, caller, id, now).None? ==>
                var t := old(book).scheduled[id];
                && 0 < t.amount && t.sender != self
                && var paid := CancelPayout(old(book), self, t, collector);
                && (r.Ok? <==> paid.Ok?)
                && (r.Ok? ==>
                      && book == Unlocked(old(book), id, false)
                                 .(wallets := paid.value.wallets, fees := old(book).fees + paid.value.fee)
                      && hist == old(hist).(exits := old(hist).exits + multiset{id},
                                            feesToSelf := old(hist).feesToSelf
                                                          + BackTo(self, collector, paid.value.fee)))
      ensures r.Ok? ==> id in old(book).scheduled && book.profiles == old(book).profiles
                        && book.scheduled == old(book).scheduled[id := old(book).scheduled[id].(cancelled := true)]
      ensures r.Err? ==> book == old(book) && hist == old(hist)
    {
      hide LawsOk, TotalsOk;
      var refused := CancelRefused(book, gate, caller, id, now);
      if refused.Some? {
        r := Err(refused.value);
      } else {
        var t := book.scheduled[id];
        LockedTip(self, book, hist, id);
        var paid := CancelPayout(book, self, t, collector);
        if paid.Err? {
          r := Err(paid.error);
        } else {
          var fee := paid.value.fee;
          CancelKeepsLaws(self, book, hist, id, paid.value.wallets, BackTo(self, collector, fee), book.fees + fee);
          hist := hist.(exits := hist.exits + multiset{id},
                        feesToSelf := hist.feesToSelf + BackTo(self, collector, fee));
          book := Unlocked(book, id, false).(wallets := paid.value.wallets, fees := book.fees + fee);
          r := Ok(());
        }
      }
    }

    /** Takes a decided refund from the creator's profile and pays the tipper; the kept fee stays in the contract. */
    method PayRefund(id: nat, tipper: Address, creator: Address, amount: int, payout: int, keptFee: int)
      returns (r: Result<(), ContractError>)
      requires Valid()
      requires id in hist.open && hist.open[id] == Tip(tipper, creator, amount)
      requires payout + keptFee == amount && 0 <= keptFee
      modifies this
      ensures Valid()
      ensures r.Ok? <==> creator in old(book).profiles && 0 < payout <= Wallet(old(book).wallets, self)
      ensures r.Ok? ==>
                && book == TakenBack(old(book), creator, amount)
                           .(wallets := Moved(old(book).wallets, self, tipper, payout))
                && book.profiles[creator].balance == old(book).profiles[creator].balance - amount
                && (creator !in hist.removed ==> Lost(old(book).profiles, book.profiles, creator, amount))
                && hist == old(hist).(open := old(hist).open - {id},
                                      refunds := old(hist).refunds + [Refund(id, amount, payout, keptFee)])
      ensures r.Err? ==> book == old(book) && hist == old(hist)
    {
      if creator !in book.profiles {
        return Err(NotRegistered);
      }
      var moved := Transfer(book.wallets, self, tipper, payout);
      if moved.Err? {
        return Err(moved.error);
      }
      assert TipOk(self, book.tipCount, id, hist.open[id]);
      RefundKeepsLaws(self, book, hist, Refund(id, amount, payout, keptFee), moved.value);
      if creator !in hist.removed {
        LossIsExact(self, book, hist, id);
      }
      LossKeepsTotals(book.profiles, TakenBack(book, creator, amount).profiles, hist.open, hist.removed, id);
      book := TakenBack(book, creator, amount).(wallets := moved.value);
      hist := hist.(open := hist.open - {id}, refunds := hist.refunds + [Refund(id, amount, payout, keptFee)]);
      return Ok(());
    }

    method RegisterProfile(gate: Option<ContractError>, caller: Address) returns (r: Result<(), ContractError>)
      requires Valid() && caller != self
      modifies this
      ensures Valid() && hist == old(hist)
      ensures r.Ok? <==> gate.None? && caller !in old(book).profiles
      ensures r.Ok? ==> book == old(book).(profiles := old(book).profiles[caller := Profile(0, 0, 0)])
      ensures r.Err? ==> book == old(book)
    {
      var refused: Option<ContractError> :=
        if gate.Some? then gate
        else if caller in book.profiles then Some(AlreadyRegistered)
        else None;
      if refused.Some? {
        return Err(refused.value);
      }
      AddProfileKeepsLaws(self, book, hist, caller);
      NewProfileKeepsTotals(book.profiles, hist.open, hist.removed, caller);
      book := book.(profiles := book.profiles[caller := Profile(0, 0, 0)]);
      return Ok(());
    }

    /** A profile that is not owed anything may go; a negative balance goes with it. */
    method DeregisterProfile(gate: Option<ContractError>, caller: Address) returns (r: Result<(), ContractError>)
      requires Valid()
      modifies this
      ensures Valid()
      ensures r.Ok? <==> gate.None? && caller in old(book).profiles && old(book).profiles[caller].balance <= 0
      ensures r.Ok? ==>
                && book == old(book).(profiles := old(book).profiles - {caller})
                && hist == old(hist).(writtenOff := old(hist).writtenOff - old(book).profiles[caller].balance,
                                      removed := old(hist).removed + {caller})
      ensures r.Err? ==> book == old(book) && hist == old(hist)
    {
      hide LawsOk, TotalsOk;
      var refused: Option<ContractError> :=
        if gate.Some? then gate
        else if caller !in book.profiles then Some(NotRegistered)
        else if book.profiles[caller].balance > 0 then Some(BalanceNotZero)
        else None;
      if refused.Some? {
        return Err(refused.value);
      }
      RemoveProfileKeepsLaws(self, book, hist, caller);
      RemovalKeepsTotals(book.profiles, hist.open, hist.removed, caller);
      hist := hist.(writtenOff := hist.writtenOff - book.profiles[caller].balance, removed := hist.removed + {caller});
      book := book.(profiles := book.profiles - {caller});
      return Ok(());
    }

    /** A transfer to the contract that does not go through it. */
    method ReceiveTransfer(from: Address, amount: i128) returns (r: Result<(), ContractError>)
      requires Valid() && from != self
      modifies this
      ensures Valid()
      ensures r.Ok? <==> 0 < amount <= Wallet(old(book).wallets, from)
      ensures r.Ok? ==> book == old(book).(wallets := Moved(old(book).wallets, from, self, amount))
                        && hist == old(hist).(gifts := old(hist).gifts + amount)
      ensures r.Err? ==> book == old(book) && hist == old(hist)
    {
      var moved := Transfer(book.wallets, from, self, amount);
      if moved.Err? {
        return Err(moved.error);
      }
      GiftKeepsLaws(self, book, hist, amount, moved.value);
      book := book.(wallets := moved.value);
      hist := hist.(gifts := hist.gifts + amount);
      return Ok(());
    }
  }

  /** Two creators, each tipped 100 by a tipper who owned no more. */
  method TwoTipped(self: Address, a: Address, b: Address, tipper: Address) returns (l: TipLedger, toA: nat)
    requires self != a && self != b && self != tipper && a != b && a != tipper && b != tipper
    ensures fresh(l) && l.Valid() && l.self == self && l.hist.gifts == 0 && l.hist.writtenOff == 0
    ensures toA in l.hist.open && l.hist.open[toA] == Tip(tipper, a, 100) && Wallet(l.book.wallets, self) == 200
    ensures a in l.book.profiles && b in l.book.profiles
    ensures l.book.profiles[a].balance == l.book.profiles[b].balance == 100
  {
    hide LawsOk, TotalsOk;
    l := new TipLedger(self, map[tipper := 200]);
    var ok := l.RegisterProfile(None, a);
    ok := l.RegisterProfile(None, b);
    assert l.book.profiles[a] == l.book.profiles[b] == Profile(0, 0, 0);
    var first := l.SendTip(None, tipper, a, 100);
    toA := first.value;
    assert Wallet(l.book.wallets, self) == Wallet(l.book.wallets, tipper) == 100;
    var second := l.SendTip(None, tipper, b, 100);
  }

  /**
   * The contract can run dry under a creator who owes nothing: of two tips of 100, one is withdrawn in an
   * emergency and refunded at 98 all the same, out of what belongs to the other creator.
   */
  method RunDry(self: Address, a: Address, b: Address, tipper: Address) returns (l: TipLedger)
    requires self != a && self != b && self != tipper && a != b && a != tipper && b != tipper
    ensures fresh(l) && l.Valid() && b in l.book.profiles && l.book.profiles[b].balance == 100
    ensures Wallet(l.book.wallets, self) == 2 && l.hist.gifts == 0 && l.hist.writtenOff == 0
    ensures Wallet(l.book.wallets, self) < Total(l.book.profiles, OwedOf)
  {
    hide LawsOk, TotalsOk;
    var toA;
    l, toA := TwoTipped(self, a, b, tipper);
    var ok := l.EmergencyWithdrawTips(true, Some(0), EMERGENCY_DELAY_SECS, a, 100);
    ok := l.PayRefund(toA, tipper, a, 100, 98, 2);
    PartOfTotal(l.book.profiles, b);
  }
}
