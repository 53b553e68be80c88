/** Privileged changes: N-of-M proposals and the time-locked fee. */
module Admin {
  import opened Prelude

  type Address = string

  const PROPOSAL_EXPIRY := 7 * 24 * 3600
  const MIN_FEE_DELAY := 24
  const DEFAULT_FEE_DELAY := 24 * 12
  const MAX_FEE_BPS := 1000

  datatype Action = Pause | Unpause | Upgrade(wasmHash: string) | SetFee(feeBps: u32) | SetAdmin(newAdmin: Address)

  datatype Config = Config(required: nat, signers: seq<Address>, epoch: nat)

  datatype Proposal = Proposal(action: Action, approvals: seq<Address>, expiresAt: nat, executed: bool,
                               proposer: Address, cancelled: bool, epoch: nat)

  datatype PendingFee = PendingFee(feeBps: nat, effectiveLedger: nat, proposedAt: nat, immediate: bool)

  datatype Store = Store(admin: Address, feeBps: nat, feeDelay: nat, pending: Option<PendingFee>,
                         config: Option<Config>, proposals: map<nat, Proposal>, nextId: nat,
                         paused: bool, version: nat)

  /** One execution: of what, when, and the epoch of the configuration then in force. */
  datatype Execution = Execution(id: nat, action: Action, at: nat, epoch: nat)

  datatype FeeStep = FeeStep(from: nat, to: nat, proposedAt: nat, appliedAt: nat)

  /**
   * What the proofs remember: every configuration in order of its epoch, every execution, the admin and the fee at
   * the start, and every change of the fee.
   */
  datatype History = History(configs: seq<Config>, executions: seq<Execution>, firstAdmin: Address, firstFee: nat,
                             feeSteps: seq<FeeStep>)

  // ---- Safety of proposals ----

  /** Approvals are distinct signers of the proposal's own epoch; execution needs the quorum of that epoch. */
  ghost predicate ProposalOk(p: Proposal, configs: seq<Config>) {
    && p.epoch < |configs|
    && Distinct(p.approvals)
    && (forall a :: a in p.approvals ==> a in configs[p.epoch].signers)
    && (p.executed ==> !p.cancelled && configs[p.epoch].required <= |p.approvals|)
  }

  predicate ExecutionOk(e: Execution, proposals: map<nat, Proposal>) {
    && e.id in proposals && proposals[e.id].executed && e.action == proposals[e.id].action
    && e.epoch == proposals[e.id].epoch && e.at <= proposals[e.id].expiresAt
  }

  predicate Before(e: Execution, f: Execution) {
    e.id != f.id && e.epoch <= f.epoch
  }

  /** Each execution is of another proposal, and follows the order of the configurations. */
  ghost predicate ProposalsOk(proposals: map<nat, Proposal>, nextId: nat, configs: seq<Config>,
                              executions: seq<Execution>) {
    && (forall id :: id in proposals ==> id < nextId && ProposalOk(proposals[id], configs))
    && (forall i :: 0 <= i < |executions| ==> ExecutionOk(executions[i], proposals))
    && (forall i, j :: 0 <= i < j < |executions| ==> Before(executions[i], executions[j]))
  }

  // ---- What the executed actions have done ----

  function Upgrades(executions: seq<Execution>): nat {
    if executions == [] then 0
    else Upgrades(executions[..|executions| - 1]) + if executions[|executions| - 1].action.Upgrade? then 1 else 0
  }

  /** The contract is paused exactly when a pause was executed and no unpause after it. */
  ghost predicate PauseOk(paused: bool, executions: seq<Execution>) {
    paused <==> exists i :: 0 <= i < |executions| && executions[i].action.Pause?
                            && forall j :: i < j < |executions| ==> !executions[j].action.Unpause?
  }

  /** The admin is the last one an executed action named, or the first one. */
  ghost predicate AdminIsLast(admin: Address, firstAdmin: Address, executions: seq<Execution>) {
    if exists i :: 0 <= i < |executions| && executions[i].action.SetAdmin?
    then exists i :: 0 <= i < |executions| && executions[i].action == SetAdmin(admin)
                     && forall j :: i < j < |executions| ==> !executions[j].action.SetAdmin?
    else admin == firstAdmin
  }

  /** Pause state, admin and version are what the executed actions made of them, in their order. */
  ghost predicate EffectsOk(s: Store, h: History) {
    && PauseOk(s.paused, h.executions) && AdminIsLast(s.admin, h.firstAdmin, h.executions)
    && s.version == 1 + Upgrades(h.executions)
  }

  // ---- Which quorum can be reached ----

  function Signers(c: Config): set<Address> {
    set a | a in c.signers
  }

  /** These approvals would do: distinct signers, as many as are required. */
  ghost predicate Quorate(c: Config, approvals: seq<Address>) {
    Distinct(approvals) && c.required <= |approvals| && forall a :: a in approvals ==> a in c.signers
  }

  /** The members of a list, each once. */
  function Unique(s: seq<Address>): (u: seq<Address>)
    ensures Distinct(u) && (forall a :: a in u <==> a in s)
  {
    if s == [] then []
    else
      var front, last := Unique(s[..|s| - 1]), s[|s| - 1];
      assert forall a :: a in s <==> a in s[..|s| - 1] || a == last;
      if last in front then front else front + [last]
  }

  lemma {:induction false} DistinctCount(s: seq<Address>)
    requires Distinct(s)
    ensures |set a | a in s| == |s|
  {
    if s != [] {
      var front, last := s[..|s| - 1], s[|s| - 1];
      DistinctCount(front);
      assert (set a | a in s) == (set a | a in front) + {last};
    }
  }

  lemma SubsetCount(a: set<Address>, b: set<Address>)
    requires a <= b
    ensures |a| <= |b|
  {
    assert b == a + (b - a);
  }

  /** A quorum can be reached exactly when no more approvals are required than there are different signers. */
  lemma QuorumReachableIff(c: Config)
    ensures (exists approvals :: Quorate(c, approvals)) <==> c.required <= |Signers(c)|
  {
    forall approvals | Quorate(c, approvals)
      ensures c.required <= |Signers(c)|
    {
      DistinctCount(approvals);
      SubsetCount((set a | a in approvals), Signers(c));
    }
    DistinctCount(Unique(c.signers));
    assert (set a | a in Unique(c.signers)) == Signers(c);
    assert c.required <= |Signers(c)| ==> Quorate(c, Unique(c.signers));
  }

  /** A list with a repeated signer is accepted with a quorum that no proposal can reach. */
  lemma RepeatedSignerLocksOut()
    ensures var c := Config(2, ["a", "a"], 0);
            0 < c.required <= |c.signers| && forall approvals :: !Quorate(c, approvals)
  {
    var c := Config(2, ["a", "a"], 0);
    QuorumReachableIff(c);
    assert Signers(c) == {"a"};
  }

  ghost predicate ConfigsOk(config: Option<Config>, configs: seq<Config>) {
    && (config.None? <==> configs == [])
    && (config.Some? ==> config.value == configs[|configs| - 1])
    && (forall e :: 0 <= e < |configs| ==> configs[e].epoch == e && 0 < configs[e].required <= |configs[e].signers|)
  }

  // ---- The fee timelock ----

  /** A pending raise waits at least 24 ledgers; only a pending cut may be applied at once. */
  predicate PendingOk(p: PendingFee, feeBps: nat) {
    && p.feeBps <= MAX_FEE_BPS
    && (if p.immediate then p.feeBps <= feeBps else p.proposedAt + MIN_FEE_DELAY <= p.effectiveLedger)
  }

  predicate FeeStepOk(s: FeeStep) {
    s.to <= 1_000 && (s.from < s.to ==> s.proposedAt + 24 <= s.appliedAt)
  }

  /** The fee after the first `k` steps. */
  function FeeAfter(firstFee: nat, steps: seq<FeeStep>, k: nat): nat
    requires k <= |steps|
  {
    if k == 0 then firstFee else steps[k - 1].to
  }

  ghost predicate FeesOk(feeBps: nat, feeDelay: nat, pending: Option<PendingFee>, firstFee: nat, steps: seq<FeeStep>) {
    && feeBps <= MAX_FEE_BPS && MIN_FEE_DELAY <= feeDelay
    && (pending.Some? ==> PendingOk(pending.value, feeBps))
    && (forall i :: 0 <= i < |steps| ==> FeeStepOk(steps[i]))
    // the recorded steps lead from the first fee to the present one, so they are all there are
    && firstFee <= MAX_FEE_BPS
    && (forall i :: 0 <= i < |steps| ==> steps[i].from == FeeAfter(firstFee, steps, i))
    && feeBps == FeeAfter(firstFee, steps, |steps|)
  }

  ghost predicate AdminOk(s: Store, h: History) {
    && ProposalsOk(s.proposals, s.nextId, h.configs, h.executions)
    && ConfigsOk(s.config, h.configs)
    && FeesOk(s.feeBps, s.feeDelay, s.pending, h.firstFee, h.feeSteps)
    && (h.executions != [] ==> h.configs != [] && h.executions[|h.executions| - 1].epoch < |h.configs|)
  }

  /** At most ten percent, nothing pending, and for a raise a date the ledger counter can reach. */
  predicate CanPropose(s: Store, feeBps: u32, ledger: u32) {
    && feeBps <= MAX_FEE_BPS && MIN_FEE_DELAY <= s.feeDelay && s.pending.None?
    && (feeBps <= s.feeBps || ledger + s.feeDelay <= U32_MAX)
  }

  /** Records a fee proposal; a raise takes effect only after the delay. */
  function ProposedFee(s: Store, feeBps: u32, ledger: u32): (r: Result<Store, ContractError>)
    ensures r.Ok? <==> CanPropose(s, feeBps, ledger)
  {
    var increase := feeBps > s.feeBps;
    if feeBps > MAX_FEE_BPS then Err(InvalidFee)
    else if s.feeDelay < MIN_FEE_DELAY then Err(InvalidInput)
    else if s.pending.Some? then Err(InvalidInput)
    else if increase && ledger + s.feeDelay > U32_MAX then Err(OverflowError)
    else
      var effective := if increase then ledger + s.feeDelay else ledger;
      Ok(s.(pending := Some(PendingFee(feeBps, effective, ledger, !increase))))
  }

  /** The effect of an executed action. */
  function Performed(s: Store, action: Action, ledger: u32): Result<Store, ContractError> {
    match action
    case Pause => Ok(s.(paused := true))
    case Unpause => Ok(s.(paused := false))
    case Upgrade(_) => Ok(s.(version := s.version + 1))
    case SetFee(feeBps) => ProposedFee(s, feeBps, ledger)
    case SetAdmin(newAdmin) => Ok(s.(admin := newAdmin))
  }

  predicate QuorumOf(config: Config, p: Proposal) {
    config.required <= |p.approvals| && p.epoch == config.epoch
  }

  function NewProposal(s: Store, signer: Address, action: Action, now: nat): Proposal
    requires s.config.Some?
  {
    Proposal(action, [signer], now + PROPOSAL_EXPIRY, false, signer, false, s.config.value.epoch)
  }

  function Opened(s: Store, signer: Address, action: Action, now: nat): Store
    requires s.config.Some?
  {
    s.(proposals := s.proposals[s.nextId := NewProposal(s, signer, action, now)], nextId := s.nextId + 1)
  }

  function Approved(s: Store, id: nat, signer: Address): Store
    requires id in s.proposals
  {
    var p := s.proposals[id];
    s.(proposals := s.proposals[id := p.(approvals := p.approvals + [signer])])
  }

  function Marked(s: Store, id: nat): Store
    requires id in s.proposals
  {
    s.(proposals := s.proposals[id := s.proposals[id].(executed := true)])
  }

  ghost function Executed(h: History, id: nat, action: Action, now: nat, epoch: nat): History {
    h.(executions := h.executions + [Execution(id, action, now, epoch)])
  }

  // ---- Why each step keeps the laws ----

  lemma ConfigAdded(s: Store, h: History, c: Config)
    requires AdminOk(s, h) && c.epoch == |h.configs| && 0 < c.required <= |c.signers|
    ensures AdminOk(s.(config := Some(c)), h.(configs := h.configs + [c]))
  {
  }

  /** Replacing a proposal that has not been executed by one that still has not. */
  lemma ProposalStored(s: Store, h: History, id: nat, p: Proposal, nextId: nat)
    requires AdminOk(s, h) && s.nextId <= nextId && id < nextId
    requires id in s.proposals ==> !s.proposals[id].executed
    requires !p.executed && ProposalOk(p, h.configs)
    ensures AdminOk(s.(proposals := s.proposals[id := p], nextId := nextId), h)
  {
  }

  lemma OpeningKeepsLaws(s: Store, h: History, signer: Address, action: Action, now: nat)
    requires AdminOk(s, h) && s.config.Some? && signer in s.config.value.signers
    ensures AdminOk(Opened(s, signer, action, now), h)
  {
    ProposalStored(s, h, s.nextId, NewProposal(s, signer, action, now), s.nextId + 1);
  }

  lemma ApprovalKeepsLaws(s: Store, h: History, id: nat, signer: Address)
    requires AdminOk(s, h) && s.config.Some? && id in s.proposals
    requires signer in s.config.value.signers && signer !in s.proposals[id].approvals
    requires !s.proposals[id].executed && s.proposals[id].epoch == s.config.value.epoch
    ensures AdminOk(Approved(s, id, signer), h)
  {
    assert ProposalOk(s.proposals[id], h.configs);
    ProposalStored(s, h, id, Approved(s, id, signer).proposals[id], s.nextId);
  }

  lemma ProposalExecuted(s: Store, h: History, id: nat, now: nat)
    requires AdminOk(s, h) && id in s.proposals && s.config.Some?
    requires !s.proposals[id].executed && !s.proposals[id].cancelled && now <= s.proposals[id].expiresAt
    requires QuorumOf(s.config.value, s.proposals[id])
    ensures AdminOk(Marked(s, id), Executed(h, id, s.proposals[id].action, now, s.config.value.epoch))
  {
  }

  lemma ActionPerformed(s: Store, h: History, action: Action, ledger: u32)
    requires AdminOk(s, h) && Performed(s, action, ledger).Ok?
    ensures AdminOk(Performed(s, action, ledger).value, h)
  {
  }

  /** What an executed action does is what its name says, and an executed fee action proposes that very fee. */
  lemma ActionTakesEffect(s: Store, h: History, id: nat, action: Action, now: nat, epoch: nat, ledger: u32)
    requires EffectsOk(s, h) && Performed(s, action, ledger).Ok?
    ensures EffectsOk(Performed(s, action, ledger).value, Executed(h, id, action, now, epoch))
    ensures action.SetFee? ==>
              Performed(s, action, ledger).value.pending
              == Some(if s.feeBps < action.feeBps then PendingFee(action.feeBps, ledger + s.feeDelay, ledger, false)
                      else PendingFee(action.feeBps, ledger, ledger, true))
  {
    var before, after := h.executions, Executed(h, id, action, now, epoch).executions;
    var last := |before|;
    assert after[..last] == before && after[last].action == action;
    assert forall i :: 0 <= i < last ==> after[i] == before[i];
    PauseFollows(s.paused, before, Execution(id, action, now, epoch));
    AdminFollows(s.admin, h.firstAdmin, before, Execution(id, action, now, epoch));
  }

  lemma FreshId(s: Store, h: History)
    requires AdminOk(s, h)
    ensures s.nextId !in s.proposals
  {
  }

  lemma EffectsUnchanged(s: Store, t: Store, h: History)
    requires EffectsOk(s, h) && t.paused == s.paused && t.admin == s.admin && t.version == s.version
    ensures EffectsOk(t, h)
  {
  }

  lemma PerformedKeepsProposals(s: Store, action: Action, ledger: u32)
    requires Performed(s, action, ledger).Ok?
    ensures var t := Performed(s, action, ledger).value;
            t.proposals == s.proposals && t.nextId == s.nextId && t.config == s.config
  {
  }

  lemma PauseFollows(paused: bool, before: seq<Execution>, e: Execution)
    requires PauseOk(paused, before)
    ensures PauseOk(if e.action.Pause? then true else if e.action.Unpause? then false else paused, before + [e])
  {
    var after, last := before + [e], |before|;
    assert after[last] == e && forall i :: 0 <= i < last ==> after[i] == before[i];
    if paused && !e.action.Unpause? {
      var i :| 0 <= i < last && before[i].action.Pause? && forall j :: i < j < last ==> !before[j].action.Unpause?;
      assert after[i].action.Pause?;
    }
  }

  lemma AdminFollows(admin: Address, firstAdmin: Address, before: seq<Execution>, e: Execution)
    requires AdminIsLast(admin, firstAdmin, before)
    ensures AdminIsLast(if e.action.SetAdmin? then e.action.newAdmin else admin, firstAdmin, before + [e])
  {
    var after, last := before + [e], |before|;
    assert after[last] == e && forall i :: 0 <= i < last ==> after[i] == before[i];
    if !e.action.SetAdmin? && exists i :: 0 <= i < last && before[i].action.SetAdmin? {
      var i :| 0 <= i < last && before[i].action == SetAdmin(admin)
               && forall j :: i < j < last ==> !before[j].action.SetAdmin?;
      assert after[i].action == SetAdmin(admin);
    }
  }

  lemma FeeApplied(s: Store, h: History, ledger: nat)
    requires AdminOk(s, h) && s.pending.Some?
    requires s.pending.value.immediate || s.pending.value.effectiveLedger <= ledger
    ensures var p := s.pending.value;
            AdminOk(s.(feeBps := p.feeBps, pending := None),
                    h.(feeSteps := h.feeSteps + [FeeStep(s.feeBps, p.feeBps, p.proposedAt, ledger)]))
  {
  }

  /** Every execution had the quorum of its own configuration: distinct signers of that one epoch, in time, once. */
  lemma ExecutionsAreSafe(s: Store, h: History, i: nat)
    requires AdminOk(s, h) && i < |h.executions|
    ensures var e := h.executions[i];
            && e.id in s.proposals && s.proposals[e.id].epoch == e.epoch < |h.configs|
            && var p := s.proposals[e.id];
            && p.executed && !p.cancelled && e.at <= p.expiresAt
            && Distinct(p.approvals) && h.configs[e.epoch].required <= |p.approvals|
            && (forall a :: a in p.approvals ==> a in h.configs[e.epoch].signers)
            && h.configs[e.epoch].required <= |Signers(h.configs[e.epoch])|
            && (forall j :: 0 <= j < |h.executions| && j != i ==> h.executions[j].id != e.id)
  {
    var e := h.executions[i];
    assert ExecutionOk(e, s.proposals) && ProposalOk(s.proposals[e.id], h.configs);
    QuorumReachableIff(h.configs[e.epoch]);
    assert Quorate(h.configs[e.epoch], s.proposals[e.id].approvals);
  }

  /** A raise in one call always fails: right after the proposal its date is still ahead. */
  lemma RaiseIsNotDue(s: Store, h: History, feeBps: u32, ledger: u32)
    requires AdminOk(s, h) && s.feeBps < feeBps && CanPropose(s, feeBps, ledger)
    ensures var pending := ProposedFee(s, feeBps, ledger).value.pending;
            && pending.Some? && !pending.value.immediate
            && ledger + 24 <= pending.value.effectiveLedger
  {
  }

  // ---- The contract's calls ----

  class AdminDesk {
    var s: Store
    ghost var h: History

    ghost predicate Valid()
      reads this
    {
      AdminOk(s, h) && EffectsOk(s, h)
    }

    /** Initialization refuses a fee above ten percent. */
    constructor (admin: Address, feeBps: u32)
      requires feeBps <= MAX_FEE_BPS
      ensures Valid() && h == History([], [], admin, feeBps, [])
      ensures s == Store(admin, feeBps, 288, None, None, map[], 0, false, 1)
    {
      s := Store(admin, feeBps, DEFAULT_FEE_DELAY, None, None, map[], 0, false, 1);
      h := History([], [], admin, feeBps, []);
    }

    /** A new signer list or threshold starts a new epoch, which strands every proposal of the older ones. */
    method SetMultisigConfig(caller: Address, required: u32, signers: seq<Address>)
      returns (r: Result<(), ContractError>)
      requires Valid()
      modifies this
      ensures Valid()
      ensures r.Ok? <==> caller == old(s).admin && 0 < required <= |signers| && |old(h).configs| <= U32_MAX
      ensures r.Ok? ==>
                var c := Config(required, signers, |old(h).configs|);
                s == old(s).(config := Some(c)) && h == old(h).(configs := old(h).configs + [c])
      ensures r.Err? ==> s == old(s) && h == old(h)
    {
      if caller != s.admin {
        return Err(NotAuthorized);
      }
      if required == 0 || required > |signers| {
        return Err(InvalidAmount);
      }
      if s.config.Some? && s.config.value.epoch >= U32_MAX {
        return Err(OverflowError);
      }
      var c := Config(required, signers, if s.config.Some? then s.config.value.epoch + 1 else 0);
      ConfigAdded(s, h, c);
      s := s.(config := Some(c));
      h := h.(configs := h.configs + [c]);
      return Ok(());
    }

    /** Marks a proposal executed and performs its action; undone as a whole if the action fails. */
    method ExecuteProposal(id: nat, config: Config, now: nat, ledger: u32) returns (r: Result<(), ContractError>)
      requires Valid() && s.config == Some(config)
      requires id in s.proposals && !s.proposals[id].executed && !s.proposals[id].cancelled
      requires now <= s.proposals[id].expiresAt
      modifies this
      ensures Valid()
      ensures r.Ok? <==> QuorumOf(config, old(s).proposals[id])
                         && Performed(Marked(old(s), id), old(s).proposals[id].action, ledger).Ok?
      ensures r.Ok? ==> Performed(Marked(old(s), id), old(s).proposals[id].action, ledger) == Ok(s)
      ensures r.Ok? ==> h == Executed(old(h), id, old(s).proposals[id].action, now, config.epoch)
      ensures r.Ok? ==> s.proposals == old(s).proposals[id := old(s).proposals[id].(executed := true)]
                        && s.nextId == old(s).nextId && s.config == old(s).config
      ensures r.Err? ==> s == old(s) && h == old(h)
    {
      hide AdminOk, EffectsOk, Performed;
      var p := s.proposals[id];
      if |p.approvals| < config.required {
        r := Err(NotAuthorized);
      } else if p.epoch != config.epoch {
        r := Err(ProposalEpochMismatch);
      } else {
        ProposalExecuted(s, h, id, now);
        var performed := Performed(Marked(s, id), p.action, ledger);
        if performed.Err? {
          r := Err(performed.error);
        } else {
          PerformedKeepsProposals(Marked(s, id), p.action, ledger);
          EffectsUnchanged(s, Marked(s, id), h);
          ActionTakesEffect(Marked(s, id), h, id, p.action, now, config.epoch, ledger);
          ActionPerformed(Marked(s, id), Executed(h, id, p.action, now, config.epoch), p.action, ledger);
          s, h := performed.value, Executed(h, id, p.action, now, config.epoch);
          r := Ok(());
        }
      }
    }

    /** Why a proposal is refused, in the order of the checks. */
    function ProposalRefused(signer: Address, now: nat): (r: Option<ContractError>)
      reads this
      ensures r.None? <==> s.config.Some? && signer in s.config.value.signers
                           && now + 604_800 <= U64_MAX && s.nextId < U32_MAX
    {
      if s.config.None? then Some(NotInitialized)
      else if signer !in s.config.value.signers then Some(NotAuthorized)
      else if now + PROPOSAL_EXPIRY > U64_MAX || s.nextId >= U32_MAX then Some(OverflowError)
      else None
    }

    /** Opens a proposal with its proposer's approval; a quorum of one executes it at once. */
    method ProposeAction(signer: Address, action: Action, now: u64, ledger: u32)
      returns (r: Result<nat, ContractError>)
      requires Valid()
      modifies this
      ensures Valid()
      ensures old(ProposalRefused(signer, now)).Some? ==> r == Err(old(ProposalRefused(signer, now)).value)
      ensures old(ProposalRefused(signer, now)).None? ==>
                var config, stored := old(s).config.value, Opened(old(s), signer, action, now);
                if config.required == 1
                then (r.Ok? <==> Performed(Marked(stored, old(s).nextId), action, ledger).Ok?)
                     && (r.Ok? ==> Performed(Marked(stored, old(s).nextId), action, ledger) == Ok(s)
                                   && h == Executed(old(h), old(s).nextId, action, now, config.epoch))
                else r.Ok? && s == stored && h == old(h)
      ensures r.Ok? ==>
                && r.value == old(s).nextId && s.nextId == r.value + 1 && old(s).config.Some?
                && s.proposals == old(s).proposals[r.value :=
                     Proposal(action, [signer], now + 604_800, old(s).config.value.required == 1, signer, false,
                              old(s).config.value.epoch)]
      ensures r.Err? ==> s == old(s) && h == old(h)
    {
      hide AdminOk, EffectsOk, Performed;
      FreshId(s, h);
      var refused := ProposalRefused(signer, now);
      if refused.Some? {
        r := Err(refused.value);
      } else {
        var undo, id := s, s.nextId;
        OpeningKeepsLaws(s, h, signer, action, now);
        EffectsUnchanged(s, Opened(s, signer, action, now), h);
        s := Opened(s, signer, action, now);
        r := Ok(id);
        if s.config.value.required == 1 {
          var executed := ExecuteProposal(id, s.config.value, now, ledger);
          if executed.Err? {
            s, r := undo, Err(executed.error);
          }
        }
      }
    }

    /** Why an approval is refused, in the order of the checks. */
    function ApprovalRefused(signer: Address, id: nat, now: nat): (r: Option<ContractError>)
      reads this
      ensures r.None? <==>
              && s.config.Some? && signer in s.config.value.signers && id in s.proposals
              && var p := s.proposals[id];
              && !p.executed && !p.cancelled && now <= p.expiresAt && p.epoch == s.config.value.epoch
              && signer !in p.approvals
    {
      if s.config.None? then Some(NotInitialized)
      else if signer !in s.config.value.signers then Some(NotAuthorized)
      else if id !in s.proposals then Some(NotFound)
      else if s.proposals[id].executed then Some(AlreadyVerified)
      else if s.proposals[id].cancelled then Some(ProposalExpired)
      else if now > s.proposals[id].expiresAt then Some(ProposalExpired)
      else if s.proposals[id].epoch != s.config.value.epoch then Some(ProposalEpochMismatch)
      else if signer in s.proposals[id].approvals then Some(AlreadyVerified)
      else None
    }

    /** Adds one approval; the approval that completes the quorum executes the proposal. */
    method ApproveAction(signer: Address, id: u32, now: u64, ledger: u32) returns (r: Result<(), ContractError>)
      requires Valid()
      modifies this
      ensures Valid()
      ensures old(ApprovalRefused(signer, id, now)).Some? ==> r == Err(old(ApprovalRefused(signer, id, now)).value)
      ensures old(ApprovalRefused(signer, id, now)).None? ==>
                var config, approved := old(s).config.value, Approved(old(s), id, signer);
                if QuorumOf(config, approved.proposals[id])
                then (r.Ok? <==> Performed(Marked(approved, id), approved.proposals[id].action, ledger).Ok?)
                     && (r.Ok? ==> Performed(Marked(approved, id), approved.proposals[id].action, ledger) == Ok(s)
                                   && h == Executed(old(h), id, approved.proposals[id].action, now, config.epoch))
                else r.Ok? && s == approved && h == old(h)
      ensures r.Ok? ==>
                && id in old(s).proposals && old(s).config.Some?
                && var p := old(s).proposals[id];
                s.proposals == old(s).proposals[id := p.(approvals := p.approvals + [signer],
                                 executed := old(s).config.value.required <= |p.approvals| + 1)]
      ensures r.Err? ==> s == old(s) && h == old(h)
    {
      hide AdminOk, EffectsOk, Performed;
      var refused := ApprovalRefused(signer, id, now);
      if refused.Some? {
        r := Err(refused.value);
      } else {
        var undo := s;
        ApprovalKeepsLaws(s, h, id, signer);
        EffectsUnchanged(s, Approved(s, id, signer), h);
        s := Approved(s, id, signer);
        r := Ok(());
        if |s.proposals[id].approvals| >= s.config.value.required {
          r := ExecuteProposal(id, s.config.value, now, ledger);
          if r.Err? {
            s := undo;
          }
        }
      }
    }

    method CancelProposal(proposer: Address, id: u32) returns (r: Result<(), ContractError>)
      requires Valid()
      modifies this
      ensures Valid() && h == old(h)
      ensures r.Ok? <==> id in old(s).proposals && !old(s).proposals[id].executed && !old(s).proposals[id].cancelled
                         && old(s).proposals[id].proposer == proposer
      ensures r.Ok? ==> s == old(s).(proposals := old(s).proposals[id := old(s).proposals[id].(cancelled := true)])
      ensures r.Err? ==> s == old(s)
    {
      if id !in s.proposals {
        return Err(NotFound);
      }
      var p := s.proposals[id];
      if p.executed || p.cancelled {
        return Err(AlreadyVerified);
      }
      if p.proposer != proposer {
        return Err(NotAuthorized);
      }
      assert ProposalOk(p, h.configs);
      ProposalStored(s, h, id, p.(cancelled := true), s.nextId);
      s := s.(proposals := s.proposals[id := p.(cancelled := true)]);
      return Ok(());
    }

    /** Direct fee calls are closed once multisig is enabled; applying a recorded proposal is not. */
    function DirectRefused(caller: Address): Option<ContractError>
      reads this
    {
      if caller != s.admin then Some(NotAuthorized)
      else if s.config.Some? then Some(MultisigRequired)
      else None
    }

    method ProposeFeeChange(caller: Address, feeBps: u32, ledger: u32) returns (r: Result<(), ContractError>)
      requires Valid()
      modifies this
      ensures Valid() && h == old(h)
      ensures r.Ok? <==> caller == old(s).admin && old(s).config.None?
                         && old(s).pending.None? && feeBps <= 1_000
                         && (feeBps <= old(s).feeBps || ledger + old(s).feeDelay <= U32_MAX)
      ensures r.Ok? ==> s == old(s).(pending := Some(
                               if old(s).feeBps < feeBps
                               then PendingFee(feeBps, ledger + old(s).feeDelay, ledger, false)
                               else PendingFee(feeBps, ledger, ledger, true)))
      ensures r.Err? ==> s == old(s)
    {
      var refused, proposed := DirectRefused(caller), ProposedFee(s, feeBps, ledger);
      if refused.Some? {
        r := Err(refused.value);
      } else if proposed.Err? {
        r := Err(proposed.error);
      } else {
        ActionPerformed(s, h, SetFee(feeBps), ledger);
        s := proposed.value;
        r := Ok(());
      }
    }

    method ApplyFeeChange(caller: Address, ledger: u32) returns (r: Result<(), ContractError>)
      requires Valid()
      modifies this
      ensures Valid()
      ensures r.Ok? <==> caller == old(s).admin && old(s).pending.Some?
                         && (old(s).pending.value.immediate || old(s).pending.value.effectiveLedger <= ledger)
      ensures r.Ok? ==>
                var p := old(s).pending.value;
                && s == old(s).(feeBps := p.feeBps, pending := None)
                && h == old(h).(feeSteps := old(h).feeSteps + [FeeStep(old(s).feeBps, p.feeBps, p.proposedAt, ledger)])
      ensures r.Err? ==> s == old(s) && h == old(h)
    {
      if caller != s.admin {
        return Err(NotAuthorized);
      }
      if s.pending.None? {
        return Err(NotFound);
      }
      var p := s.pending.value;
      if !p.immediate && ledger < p.effectiveLedger {
        return Err(InvalidInput);
      }
      if p.feeBps > MAX_FEE_BPS {
        return Err(InvalidFee);
      }
      FeeApplied(s, h, ledger);
      h := h.(feeSteps := h.feeSteps + [FeeStep(s.feeBps, p.feeBps, p.proposedAt, ledger)]);
      s := s.(feeBps := p.feeBps, pending := None);
      return Ok(());
    }

    /** Proposing and applying in one call: for a raise the second half fails and undoes the first. */
    method SetFeeNow(caller: Address, feeBps: u32, ledger: u32) returns (r: Result<(), ContractError>)
      requires Valid()
      modifies this
      ensures Valid()
      ensures r.Ok? <==> caller == old(s).admin && old(s).config.None? && old(s).pending.None?
                         && feeBps <= old(s).feeBps
      ensures old(s).feeBps < feeBps ==> r.Err?
      ensures r.Ok? ==>
                && s == old(s).(feeBps := feeBps)
                && h == old(h).(feeSteps := old(h).feeSteps + [FeeStep(old(s).feeBps, feeBps, ledger, ledger)])
      ensures r.Err? ==> s == old(s) && h == old(h)
    {
      var undo := s;
      r := ProposeFeeChange(caller, feeBps, ledger);
      if r.Ok? {
        r := ApplyFeeChange(caller, ledger);
        if r.Err? {
          s := undo;
        }
      }
    }

    method CancelFeeChange(caller: Address) returns (r: Result<(), ContractError>)
      requires Valid()
      modifies this
      ensures Valid() && h == old(h)
      ensures r.Ok? <==> caller == old(s).admin && old(s).config.None? && old(s).pending.Some?
      ensures s == if r.Ok? then old(s).(pending := None) else old(s)
    {
      var refused := DirectRefused(caller);
      if refused.Some? {
        return Err(refused.value);
      }
      if s.pending.None? {
        return Err(NotFound);
      }
      s := s.(pending := None);
      return Ok(());
    }

    method SetFeeChangeDelay(caller: Address, delayLedgers: u32) returns (r: Result<(), ContractError>)
      requires Valid()
      modifies this
      ensures Valid() && h == old(h)
      ensures r.Ok? <==> caller == old(s).admin && old(s).config.None? && 24 <= delayLedgers
      ensures s == if r.Ok? then old(s).(feeDelay := delayLedgers) else old(s)
    {
      var refused := DirectRefused(caller);
      if refused.Some? {
        return Err(refused.value);
      }
      if delayLedgers < MIN_FEE_DELAY {
        return Err(InvalidInput);
      }
      s := s.(feeDelay := delayLedgers);
      return Ok(());
    }
  }
}
