/** What every entry point of the settlement contract does to its stored state. An entry point
    either yields the next state or an error; on an error the host keeps the old state. */
module Entry {
  import opened Types
  import opened Multisig
  import opened Fees

  type PayKey = (Address, Reference)

  datatype PaymentRecord = PaymentRecord(
    merchant: Address, amount: i128, platformFee: i128, networkFee: i128, payout: i128,
    platformBps: u32, networkBps: u32, ledger: u32, delayLedger: u32, autoSettle: bool, version: u32)

  datatype Provenance = FromMerchant | FromDefault | FromGovernance | FromBootstrap
  datatype Effective = Effective(rule: Rule, provenance: Provenance)

  datatype Event =
    | GovernanceUpdated(who: Address, governance: Address)
    | RecoveryInitiated(recovery: Address, newAdmin: Address, executeAfter: u64)
    | RecoveryCancelled(who: Address)
    | RecoveryExecuted(oldAdmins: seq<Address>, newAdmins: seq<Address>)
    | RecoveryAddressUpdated(who: Address, recovery: Address)
    | AdminTransferred(oldAdmins: seq<Address>, newAdmins: seq<Address>)
    | ThresholdChanged(who: Address, oldThreshold: u32, newThreshold: u32)
    | ContractUpgraded(who: Address, wasm: WasmHash)
    | PausedEvent(who: Address, reason: u32)
    | UnpausedEvent(who: Address)
    | OpScheduled(hash: Hash, who: Address, executeAt: u64)
    | OpExecuted(hash: Hash)
    | OpCancelled(hash: Hash, who: Address)
    | OpsCancelled(who: Address, count: nat)   // op_cancelled without a hash topic
    | MerchantConsent(merchant: Address)
    | MerchantRegistered(merchant: Address, who: Address)
    | MerchantUnregistered(merchant: Address, who: Address)
    | RuleUpdated(merchant: Address, who: Address, previous: Rule, rule: Rule)
    | RuleCleared(merchant: Address, who: Address, removed: Rule, fallback: Rule)
    | DefaultRuleUpdated(who: Address, previous: Rule, rule: Rule)
    | BootstrapFallback(rule: Rule)
    | PaymentStored(merchant: Address, reference: Reference, record: PaymentRecord)
    | PaymentPruned(merchant: Address, reference: Reference)
    | PaymentsPruned(merchant: Address, who: Address, count: nat)

  /** Instance and persistent storage of an initialized contract, and the events published so far. */
  datatype State = State(
    admins: seq<Address>, threshold: u32, governance: Address, recovery: Address,
    pending: Option<PendingRecovery>, paused: bool,
    queue: map<Hash, ScheduledOp>, queueCount: u32,
    merchants: set<Address>, archived: set<Address>,
    rules: map<Address, Rule>, defaultRule: Option<Rule>, cachedRule: Option<Rule>,
    payments: map<PayKey, PaymentRecord>, counts: map<Address, u32>,
    log: seq<Event>)
  {
    function Emit(e: Event): State { this.(log := log + [e]) }
  }

  datatype Call =
    | UpdateGovernance(signers: seq<Address>, newGovernance: Address)
    | InitiateRecovery(newAdmin: Address)
    | CancelRecovery(signers: seq<Address>)
    | UpdateRecoveryAddress(signers: seq<Address>, newRecovery: Address)
    | ExecuteRecovery
    | TransferAdmin(signers: seq<Address>, newAdmins: seq<Address>, newThreshold: u32)
    | ChangeThreshold(signers: seq<Address>, newThreshold: u32)
    | Upgrade(signers: seq<Address>, wasm: WasmHash)
    | Pause(signers: seq<Address>, reason: u32)
    | Unpause(signers: seq<Address>)
    | Schedule(signers: seq<Address>, operation: Operation, executeIn: u64)
    | Execute(executor: Address, operation: Operation)
    | DryRun(operation: Operation)
    | Cancel(signers: seq<Address>, operation: Operation)
    | CancelAll(signers: seq<Address>, operations: seq<Operation>)
    | RegisterMerchant(signers: seq<Address>, merchant: Address)
    | UnregisterMerchant(signers: seq<Address>, merchant: Address)
    | SetSettlementRule(signers: seq<Address>, merchant: Address, rule: Rule)
    | ClearSettlementRule(signers: seq<Address>, merchant: Address)
    | SetDefaultRule(signers: seq<Address>, rule: Rule)
    | StorePayment(merchant: Address, reference: Reference, amount: i128)
    | CalculateFeeSplit(merchant: Address, amount: i128)
    | PrunePayment(signers: seq<Address>, merchant: Address, reference: Reference)
    | PrunePayments(signers: seq<Address>, merchant: Address, references: seq<Reference>)
    | GetEffectiveRule(merchant: Address)

  // ---- Shared guards --------------------------------------------------------------------

  function Auth(s: State, env: Env, signers: seq<Address>): Guard {
    CheckAuth(s.admins, signers, env.auth, s.threshold)
  }

  function AdminAndNotPaused(s: State, env: Env, signers: seq<Address>): Guard {
    if s.paused then Fail(Paused) else Auth(s, env, signers)
  }

  // ---- Initialization -------------------------------------------------------------------

  function Initialize(env: Env, deployer: Address, admins: seq<Address>, threshold: u32,
                      governance: Address, recovery: Address): Result<State>
  {
    var adminCheck := CheckAdmins(admins, threshold, ZeroAddress);
    if deployer !in env.auth then Err(AuthMissing)
    else if adminCheck.Fail? then Err(adminCheck.error)
    else if governance == Zero then Err(InvalidGovernance)
    else if recovery == Zero then Err(InvalidRecoveryAddress)
    else if exists a | a in admins :: a !in env.auth then Err(AuthMissing)
    else Ok(State(admins, threshold, governance, recovery, None, false, map[], 0, {}, {}, map[], None, None,
                  map[], map[], []))
  }

  // ---- Rule resolution ------------------------------------------------------------------

  /** classify_governance_fee_config. */
  function Classify(raw: Val): Result<Option<(u32, u32)>> {
    if !raw.MapVal? then Ok(None)
    else if |raw.entries| != 2 then Err(GovernanceCallFailed)
    else if "platform_fee_bps" !in raw.entries then Err(GovernanceCallFailed)
    else if !raw.entries["platform_fee_bps"].U32Val? then Err(GovernanceCallFailed)
    else if "network_fee_bps" !in raw.entries then Err(GovernanceCallFailed)
    else if !raw.entries["network_fee_bps"].U32Val? then Err(GovernanceCallFailed)
    else Ok(Some((raw.entries["platform_fee_bps"].n, raw.entries["network_fee_bps"].n)))
  }

  /** read_governance_fee_rule: the rule it yields and the cache it leaves. */
  function GovernanceRule(cached: Option<Rule>, view: GovView): Result<(Option<Rule>, Option<Rule>)> {
    if view.bypass == ParamValue(1) then Ok((None, cached))
    else if view.fee.FeeCallFailed? then Ok((cached, cached))
    else match Classify(view.fee.val)
      case Err(e) => Err(e)
      case Ok(None) => Ok((None, cached))
      case Ok(Some((p, n))) => Ok((Some(Rule(p, n, 0, false)), Some(Rule(p, n, 0, false))))
  }

  /** read_effective_fallback_rule: default, then governance, then bootstrap. */
  function Fallback(s: State, env: Env): (r: Result<(State, Effective)>)
    ensures r.Ok? ==> r.value.0 == s.(cachedRule := r.value.0.cachedRule)
  {
    if s.defaultRule.Some? then Ok((s, Effective(s.defaultRule.value, FromDefault)))
    else match GovernanceRule(s.cachedRule, env.gov(s.governance))
      case Err(e) => Err(e)
      case Ok((Some(rule), cached)) => Ok((s.(cachedRule := cached), Effective(rule, FromGovernance)))
      case Ok((None, cached)) => Ok((s.(cachedRule := cached), Effective(BOOTSTRAP_RULE, FromBootstrap)))
  }

  /** read_effective_rule_no_bump; the bump variant differs only in storage lifetime. */
  function Resolve(s: State, env: Env, merchant: Address): (r: Result<(State, Effective)>)
    ensures r.Ok? ==> r.value.0 == s.(cachedRule := r.value.0.cachedRule)
  {
    if merchant in s.rules then Ok((s, Effective(s.rules[merchant], FromMerchant)))
    else Fallback(s, env)
  }

  /** validate_fee_against_governance. */
  function FeeCeiling(s: State, env: Env, rule: Rule): Guard {
    match env.gov(s.governance).ceiling
    case FeeCallFailed => Fail(GovernanceCallFailed)
    case FeeReturned(raw) =>
      match Classify(raw)
      case Err(e) => Fail(e)
      case Ok(None) => Pass
      case Ok(Some((p, n))) =>
        Need(rule.platformBps <= p && rule.networkBps <= n, FeeExceedsGovernanceConfig)
  }

  /** The five range checks every rule setter runs in this order. */
  function RuleBounds(rule: Rule): (g: Guard)
    ensures g.Pass? <==> RuleInBounds(rule)
  {
    if rule.platformBps > BPS_DENOMINATOR || rule.networkBps > BPS_DENOMINATOR then Fail(InvalidFeeBps)
    else if rule.platformBps < MIN_FEE_BPS || rule.networkBps < MIN_FEE_BPS then Fail(InvalidFeeBps)
    else if rule.platformBps > MAX_FEE_BPS || rule.networkBps > MAX_FEE_BPS then Fail(InvalidFeeBps)
    else if rule.platformBps + rule.networkBps > BPS_DENOMINATOR then Fail(InvalidFeeBps)
    else if rule.delayLedger > MAX_SETTLEMENT_DELAY_LEDGER then Fail(InvalidSettlementDelay)
    else Pass
  }

  /** Previous rule reported by a setter, then the write itself. */
  function WriteRule(s: State, env: Env, who: Address, merchant: Address, rule: Rule): Result<State> {
    match Resolve(s, env, merchant)
    case Err(e) => Err(e)
    case Ok((s', previous)) =>
      Ok(s'.(rules := s'.rules[merchant := rule]).Emit(RuleUpdated(merchant, who, previous.rule, rule)))
  }

  function WriteDefault(s: State, who: Address, rule: Rule): State {
    var previous := if s.defaultRule.Some? then s.defaultRule.value else BOOTSTRAP_RULE;
    s.(defaultRule := Some(rule)).Emit(DefaultRuleUpdated(who, previous, rule))
  }

  /** Removes the merchant's rule and announces the rule it falls back to. */
  function DropRule(s: State, env: Env, who: Address, merchant: Address): Result<State>
    requires merchant in s.rules
  {
    match Fallback(s.(rules := s.rules - {merchant}), env)
    case Err(e) => Err(e)
    case Ok((s', fallback)) => Ok(s'.Emit(RuleCleared(merchant, who, s.rules[merchant], fallback.rule)))
  }

  // ---- Direct rule, merchant and governance administration ---------------------------------

  function DoUpdateGovernance(s: State, env: Env, signers: seq<Address>, newGovernance: Address): Result<State> {
    var g := AdminAndNotPaused(s, env, signers);
    if g.Fail? then Err(g.error)
    else if newGovernance == Zero then Err(InvalidGovernance)
    else if signers == [] then Err(NoFirstSigner)
    else Ok(s.(governance := newGovernance).Emit(GovernanceUpdated(signers[0], newGovernance)))
  }

  function DoRegisterMerchant(s: State, env: Env, signers: seq<Address>, merchant: Address): Result<State> {
    var g := AdminAndNotPaused(s, env, signers);
    if g.Fail? then Err(g.error)
    else if merchant == Zero then Err(ZeroAddress)
    else if signers == [] then Err(NoFirstSigner)
    else if merchant in s.admins then Err(InvalidAdmin)
    else if merchant !in env.auth then Err(AuthMissing)
    else if merchant in s.merchants then Err(MerchantExists)
    else Ok(s.(merchants := s.merchants + {merchant}, archived := s.archived - {merchant})
             .Emit(MerchantConsent(merchant)).Emit(MerchantRegistered(merchant, signers[0])))
  }

  function DoUnregisterMerchant(s: State, env: Env, signers: seq<Address>, merchant: Address): Result<State> {
    var g := AdminAndNotPaused(s, env, signers);
    if g.Fail? then Err(g.error)
    else if signers == [] then Err(NoFirstSigner)
    else Unregister(s, env, signers[0], merchant)
  }

  function Unregister(s: State, env: Env, who: Address, merchant: Address): Result<State> {
    if merchant !in s.merchants then Err(MerchantMissing)
    else
      var s1 := s.(merchants := s.merchants - {merchant}, archived := s.archived + {merchant});
      var dropped := if merchant in s1.rules then DropRule(s1, env, who, merchant) else Ok(s1);
      if dropped.Err? then dropped
      else Ok(dropped.value.Emit(MerchantUnregistered(merchant, who)))
  }

  function DoSetSettlementRule(s: State, env: Env, signers: seq<Address>, merchant: Address, rule: Rule)
    : Result<State>
  {
    var g := AdminAndNotPaused(s, env, signers);
    if g.Fail? then Err(g.error)
    else if signers == [] then Err(NoFirstSigner)
    else if merchant == Zero then Err(ZeroAddress)
    else if merchant !in s.merchants then Err(MerchantMissing)
    else if RuleBounds(rule).Fail? then Err(RuleBounds(rule).error)
    else if FeeCeiling(s, env, rule).Fail? then Err(FeeCeiling(s, env, rule).error)
    else WriteRule(s, env, signers[0], merchant, rule)
  }

  function DoClearSettlementRule(s: State, env: Env, signers: seq<Address>, merchant: Address): Result<State> {
    var g := AdminAndNotPaused(s, env, signers);
    if g.Fail? then Err(g.error)
    else if signers == [] then Err(NoFirstSigner)
    else if merchant !in s.rules then Err(MerchantRuleNotSet)
    else DropRule(s, env, signers[0], merchant)
  }

  function DoSetDefaultRule(s: State, env: Env, signers: seq<Address>, rule: Rule): Result<State> {
    var g := AdminAndNotPaused(s, env, signers);
    if g.Fail? then Err(g.error)
    else if signers == [] then Err(NoFirstSigner)
    else if RuleBounds(rule).Fail? then Err(RuleBounds(rule).error)
    else if FeeCeiling(s, env, rule).Fail? then Err(FeeCeiling(s, env, rule).error)
    else Ok(WriteDefault(s, signers[0], rule))
  }

  // ---- Recovery, admin set and pause --------------------------------------------------------

  function DoInitiateRecovery(s: State, env: Env, newAdmin: Address): Result<State> {
    if s.recovery !in env.auth then Err(AuthMissing)
    else if newAdmin == Zero then Err(InvalidAdmin)
    else if s.pending.Some? then Err(RecoveryAlreadyPending)
    else if env.now + RECOVERY_DELAY_SECONDS > U64_MAX then Err(IntegerTrap)
    else
      var p := PendingRecovery(newAdmin, env.now + RECOVERY_DELAY_SECONDS, s.recovery);
      Ok(s.(pending := Some(p)).Emit(RecoveryInitiated(s.recovery, newAdmin, p.executeAfter)))
  }

  function DoCancelRecovery(s: State, env: Env, signers: seq<Address>): Result<State> {
    if s.pending.None? then Err(RecoveryNotPending)
    else
      var initiator := s.pending.value.initiatedBy;
      var g := if signers == [initiator] then Need(initiator in env.auth, AuthMissing)
               else Auth(s, env, signers);
      if g.Fail? then Err(g.error)
      else if signers == [] then Err(NoFirstSigner)
      else Ok(s.(pending := None).Emit(RecoveryCancelled(signers[0])))
  }

  function DoUpdateRecoveryAddress(s: State, env: Env, signers: seq<Address>, newRecovery: Address): Result<State> {
    var g := Auth(s, env, signers);
    if g.Fail? then Err(g.error)
    else if signers == [] then Err(NoFirstSigner)
    else if newRecovery == Zero then Err(InvalidRecoveryAddress)
    else Ok(s.(recovery := newRecovery).Emit(RecoveryAddressUpdated(signers[0], newRecovery)))
  }

  function DoExecuteRecovery(s: State, env: Env): Result<State> {
    if s.pending.None? then Err(RecoveryNotPending)
    else if env.now < s.pending.value.executeAfter then Err(RecoveryDelayActive)
    else
      var newAdmins := [s.pending.value.newAdmin];
      var g := CheckAdmins(newAdmins, 1, ZeroAddress);
      if g.Fail? then Err(g.error)
      else Ok(s.(admins := newAdmins, threshold := 1, pending := None).Emit(RecoveryExecuted(s.admins, newAdmins)))
  }

  /** Validation and write shared by the direct and the timelocked admin transfer. */
  function ReplaceAdmins(s: State, newAdmins: seq<Address>, newThreshold: u32): Result<State> {
    var g := CheckAdmins(newAdmins, newThreshold, ZeroAddress);
    if exists a | a in newAdmins :: a in s.merchants then Err(InvalidAdmin)
    else if g.Fail? then Err(g.error)
    else Ok(s.(admins := newAdmins, threshold := newThreshold).Emit(AdminTransferred(s.admins, newAdmins)))
  }

  function DoTransferAdmin(s: State, env: Env, signers: seq<Address>, newAdmins: seq<Address>, newThreshold: u32)
    : Result<State>
  {
    var g := Auth(s, env, signers);
    var v := CheckAdmins(newAdmins, newThreshold, ZeroAddress);
    if g.Fail? then Err(g.error)
    else if v.Fail? then Err(v.error)
    else if s.admins == newAdmins && s.threshold == newThreshold then Err(SameAdmin)
    else ReplaceAdmins(s, newAdmins, newThreshold)
  }

  function DoChangeThreshold(s: State, env: Env, signers: seq<Address>, newThreshold: u32): Result<State> {
    if newThreshold == 0 || newThreshold > |s.admins| then Err(InvalidThreshold)
    else if newThreshold == s.threshold then Err(SameAdmin)
    else if s.threshold == U32_MAX then Err(IntegerTrap)
    else
      var g := CheckAuth(s.admins, signers, env.auth, s.threshold + 1);
      if g.Fail? then Err(g.error)
      else if signers == [] then Err(NoFirstSigner)
      else Ok(s.(threshold := newThreshold).Emit(ThresholdChanged(signers[0], s.threshold, newThreshold)))
  }

  function DoUpgrade(s: State, env: Env, signers: seq<Address>, wasm: WasmHash): Result<State> {
    var g := Auth(s, env, signers);
    if g.Fail? then Err(g.error)
    else if signers == [] then Err(NoFirstSigner)
    else if !env.wasmOk(wasm) then Err(InvalidWasmInterface)
    else Ok(s.Emit(ContractUpgraded(signers[0], wasm)))
  }

  function DoPause(s: State, env: Env, signers: seq<Address>, reason: u32): Result<State> {
    var g := Auth(s, env, signers);
    if g.Fail? then Err(g.error)
    else if s.paused then Err(AlreadyPaused)
    else if reason > MAX_PAUSE_REASON then Err(InvalidPauseReason)
    else if signers == [] then Err(NoFirstSigner)
    else Ok(s.(paused := true).Emit(PausedEvent(signers[0], reason)))
  }

  function DoUnpause(s: State, env: Env, signers: seq<Address>): Result<State> {
    var g := Auth(s, env, signers);
    if g.Fail? then Err(g.error)
    else if !s.paused then Err(AlreadyUnpaused)
    else if signers == [] then Err(NoFirstSigner)
    else Ok(s.(paused := false).Emit(UnpausedEvent(signers[0])))
  }

  // ---- Timelock -------------------------------------------------------------------------------

  /** The slot found under the operation's hash holds exactly this operation. */
  predicate SlotMatches(h: Host, queue: map<Hash, ScheduledOp>, op: Operation) {
    h.Key(op) in queue && queue[h.Key(op)].xdr == h.xdr(op)
  }

  function ScheduleBounds(op: Operation): Guard {
    match op
    case TransferAdmin(newAdmins, t) => Need(t != 0 && t <= |newAdmins|, InvalidThreshold)
    case SetSettlementRule(_, r) => Need(r.delayLedger <= MAX_SETTLEMENT_DELAY_LEDGER, InvalidSettlementDelay)
    case _ => Pass
  }

  /** Every check schedule makes before it looks at the queue. */
  function ScheduleGuard(h: Host, s: State, env: Env, signers: seq<Address>, op: Operation, executeIn: u64): Guard {
    var g := AdminAndNotPaused(s, env, signers);
    if g.Fail? then g
    else if signers == [] then Fail(NoFirstSigner)
    else if executeIn < MIN_TIMELOCK_DELAY_SECONDS then Fail(ExecutionNotReady)
    else if executeIn > MAX_TIMELOCK_DELAY_SECONDS then Fail(ExecutionDelayTooLong)
    else if ScheduleBounds(op).Fail? then ScheduleBounds(op)
    else if |h.xdr(op)| > MAX_SCHEDULED_OPERATION_PAYLOAD_LEN then Fail(PayloadTooLarge)
    else Need(!env.gov(s.governance).ceiling.FeeCallFailed?, GovernanceCallFailed)
  }

  function DoSchedule(h: Host, s: State, env: Env, signers: seq<Address>, op: Operation, executeIn: u64)
    : Result<State>
  {
    var g := ScheduleGuard(h, s, env, signers, op, executeIn);
    var key := h.Key(op);
    if g.Fail? then Err(g.error)
    else if SlotMatches(h, s.queue, op) then Err(OperationAlreadyScheduled)
    else if key in s.queue then Err(OperationHashCollision)
    else if env.now + executeIn > U64_MAX then Err(ExecutionDelayTooLong)
    else
      var slot := ScheduledOp(h.xdr(op), env.now + executeIn);
      Ok(s.(queue := s.queue[key := slot], queueCount := SaturatingInc(s.queueCount))
          .Emit(OpScheduled(key, signers[0], slot.executeAt)))
  }

  /** validate_scheduled_execution. */
  function ExecutionGuard(h: Host, s: State, env: Env, op: Operation): Guard {
    if s.paused then Fail(Paused)
    else if !SlotMatches(h, s.queue, op) then Fail(OperationNotScheduled)
    else if env.now < s.queue[h.Key(op)].executeAt then Fail(ExecutionNotReady)
    else if s.pending.Some? && op != Operation.CancelRecovery then Fail(RecoveryDelayActive)
    else Pass
  }

  /** consume_scheduled_operation over a set of slots, one decrement per slot. */
  function Consume(s: State, keys: set<Hash>): State {
    s.(queue := s.queue - keys, queueCount := SaturatingSub(s.queueCount, |keys|))
  }

  function DoExecute(h: Host, s: State, env: Env, executor: Address, op: Operation): Result<State> {
    var g := ExecutionGuard(h, s, env, op);
    if g.Fail? then Err(g.error)
    else
      match Arm(Consume(s, {h.Key(op)}), env, executor, op)
      case Err(e) => Err(e)
      case Ok(s') => Ok(s'.Emit(OpExecuted(h.Key(op))))
  }

  /** The operation arms reached from execute. */
  function Arm(s: State, env: Env, executor: Address, op: Operation): Result<State> {
    match op
    case UpdateGovernance(g) => ArmUpdateGovernance(s, executor, g)
    case CancelRecovery => ArmCancelRecovery(s, executor)
    case TransferAdmin(newAdmins, t) => ArmTransferAdmin(s, newAdmins, t)
    case Upgrade(wasm) => ArmUpgrade(s, env, executor, wasm)
    case RegisterMerchant(m) => ArmRegisterMerchant(s, executor, m)
    case UnregisterMerchant(m) => ArmUnregisterMerchant(s, env, executor, m)
    case SetSettlementRule(m, r) => ArmSetSettlementRule(s, env, executor, m, r)
    case ClearSettlementRule(m) => ArmClearSettlementRule(s, env, executor, m)
    case SetDefaultRule(r) => ArmSetDefaultRule(s, env, executor, r)
  }

  function ArmUpdateGovernance(s: State, executor: Address, g: Address): Result<State> {
    if s.paused then Err(Paused)
    else if g == Zero then Err(InvalidGovernance)
    else Ok(s.(governance := g).Emit(GovernanceUpdated(executor, g)))
  }

  function ArmCancelRecovery(s: State, executor: Address): Result<State> {
    if s.pending.None? then Err(RecoveryNotPending)
    else Ok(s.(pending := None).Emit(RecoveryCancelled(executor)))
  }

  function ArmTransferAdmin(s: State, newAdmins: seq<Address>, newThreshold: u32): Result<State> {
    var g := CheckAdmins(newAdmins, newThreshold, ZeroAddress);
    if g.Fail? then Err(g.error)
    else ReplaceAdmins(s, newAdmins, newThreshold)
  }

  function ArmUpgrade(s: State, env: Env, executor: Address, wasm: WasmHash): Result<State> {
    if wasm == 0 then Err(InvalidWasmInterface)
    else if s.paused then Err(Paused)
    else if !env.wasmOk(wasm) then Err(InvalidWasmInterface)
    else Ok(s.Emit(ContractUpgraded(executor, wasm)))
  }

  function ArmRegisterMerchant(s: State, executor: Address, merchant: Address): Result<State> {
    if s.paused then Err(Paused)
    else if merchant == Zero then Err(ZeroAddress)
    else if merchant in s.admins then Err(InvalidAdmin)
    else if merchant in s.merchants then Err(MerchantExists)
    else Ok(s.(merchants := s.merchants + {merchant}, archived := s.archived - {merchant})
             .Emit(MerchantRegistered(merchant, executor)))
  }

  function ArmUnregisterMerchant(s: State, env: Env, executor: Address, merchant: Address): Result<State> {
    if s.paused then Err(Paused)
    else Unregister(s, env, executor, merchant)
  }

  function ArmSetSettlementRule(s: State, env: Env, executor: Address, merchant: Address, rule: Rule)
    : Result<State>
  {
    if s.paused then Err(Paused)
    else if FeeCeiling(s, env, rule).Fail? then Err(FeeCeiling(s, env, rule).error)
    else if merchant !in s.merchants then Err(MerchantMissing)
    else if RuleBounds(rule).Fail? then Err(RuleBounds(rule).error)
    else WriteRule(s, env, executor, merchant, rule)
  }

  function ArmClearSettlementRule(s: State, env: Env, executor: Address, merchant: Address): Result<State> {
    if s.paused then Err(Paused)
    else if merchant !in s.rules then Err(MerchantRuleNotSet)
    else
      match Resolve(s.(rules := s.rules - {merchant}), env, merchant)
      case Err(e) => Err(e)
      case Ok((s', fallback)) => Ok(s'.Emit(RuleCleared(merchant, executor, s.rules[merchant], fallback.rule)))
  }

  function ArmSetDefaultRule(s: State, env: Env, executor: Address, rule: Rule): Result<State> {
    if s.paused then Err(Paused)
    else if FeeCeiling(s, env, rule).Fail? then Err(FeeCeiling(s, env, rule).error)
    else if RuleBounds(rule).Fail? then Err(RuleBounds(rule).error)
    else Ok(WriteDefault(s, executor, rule))
  }

  function DoCancel(h: Host, s: State, env: Env, signers: seq<Address>, op: Operation): Result<State> {
    var g := Auth(s, env, signers);
    if g.Fail? then Err(g.error)
    else if s.paused then Err(Paused)
    else if signers == [] then Err(NoFirstSigner)
    else if !SlotMatches(h, s.queue, op) then Err(OperationNotScheduled)
    else Ok(Consume(s, {h.Key(op)}).Emit(OpCancelled(h.Key(op), signers[0])))
  }

  /** The slots a list of operations really names. */
  function Hits(h: Host, queue: map<Hash, ScheduledOp>, ops: seq<Operation>): set<Hash> {
    set op | op in ops && SlotMatches(h, queue, op) :: h.Key(op)
  }

  /** Returns the new state and the number of cancelled operations. */
  function DoCancelAll(h: Host, s: State, env: Env, signers: seq<Address>, ops: seq<Operation>)
    : Result<(State, nat)>
  {
    var g := Auth(s, env, signers);
    if g.Fail? then Err(g.error)
    else if s.paused then Err(Paused)
    else if signers == [] then Err(NoFirstSigner)
    else if |ops| > MAX_CANCEL_ALL_BATCH then Err(BatchTooLarge)
    else
      var hits := Hits(h, s.queue, ops);
      Ok((Consume(s, hits).Emit(OpsCancelled(signers[0], |hits|)), |hits|))
  }

  // ---- Payments ---------------------------------------------------------------------------------

  function CountOf(counts: map<Address, u32>, merchant: Address): u32 {
    if merchant in counts then counts[merchant] else 0
  }

  function MinPayment(answer: ParamAnswer): i128 {
    if answer.ParamValue? then answer.value else MIN_PAYMENT_AMOUNT
  }

  /** The placeholder written before the governance call. */
  function Placeholder(merchant: Address): PaymentRecord {
    PaymentRecord(merchant, 0, 0, 0, 0, 0, 0, 0, 0, false, 1)
  }

  function RecordOf(merchant: Address, split: FeeSplit, rule: Rule, sequence: u32): PaymentRecord {
    PaymentRecord(merchant, split.gross, split.platform, split.network, split.merchant,
                  rule.platformBps, rule.networkBps, sequence, rule.delayLedger, rule.autoSettle, 1)
  }

  /** store_payment_reference up to the minimum-amount call. */
  function StoreGuard(s: State, auth: set<Address>, merchant: Address, reference: Reference): Guard {
    if reference == ZeroReference then Fail(InvalidPaymentReference)
    else if s.paused then Fail(Paused)
    else if merchant !in auth then Fail(AuthMissing)
    else Need(merchant in s.merchants, MerchantMissing)
  }

  /** The amount and duplicate checks, then the placeholder write. */
  function Reserve(s: State, minAnswer: ParamAnswer, merchant: Address, reference: Reference, amount: i128)
    : Result<State>
  {
    if amount < MinPayment(minAnswer) then Err(AmountTooSmall)
    else if (merchant, reference) in s.payments then Err(DuplicatePaymentReference)
    else Ok(s.(payments := s.payments[(merchant, reference) := Placeholder(merchant)]))
  }

  /** From the resolved rule and its split to the committed record and counter. */
  function CommitPayment(s: State, sequence: u32, key: PayKey, rule: Rule, computed: Result<FeeSplit>)
    : (r: Result<State>)
    ensures r.Ok? ==>
              && computed.Ok? && CountOf(s.counts, key.0) < U32_MAX
              && r.value == s.(payments := s.payments[key := RecordOf(key.0, computed.value, rule, sequence)],
                               counts := s.counts[key.0 := CountOf(s.counts, key.0) + 1],
                               log := r.value.log)
  {
    var s1 := if rule == BOOTSTRAP_RULE then s.Emit(BootstrapFallback(BOOTSTRAP_RULE)) else s;
    if computed.Err? then Err(computed.error)
    else if CountOf(s1.counts, key.0) == U32_MAX then Err(IntegerTrap)
    else
      var record := RecordOf(key.0, computed.value, rule, sequence);
      Ok(s1.(payments := s1.payments[key := record], counts := s1.counts[key.0 := CountOf(s1.counts, key.0) + 1])
           .Emit(PaymentStored(key.0, key.1, record)))
  }

  function SplitAt(amount: i128, rule: Rule): Result<FeeSplit> {
    CalculateSplit(amount, rule.platformBps, rule.networkBps)
  }

  function DoStorePayment(s: State, env: Env, merchant: Address, reference: Reference, amount: i128): Result<State> {
    var g := StoreGuard(s, env.auth, merchant, reference);
    if g.Fail? then Err(g.error)
    else
      match Reserve(s, env.gov(s.governance).minPayment, merchant, reference, amount)
      case Err(e) => Err(e)
      case Ok(s1) =>
        match Resolve(s1, env, merchant)
        case Err(e) => Err(e)
        case Ok((s2, effective)) =>
          CommitPayment(s2, env.sequence, (merchant, reference), effective.rule, SplitAt(amount, effective.rule))
  }

  function DoCalculateFeeSplit(s: State, env: Env, merchant: Address, amount: i128): Result<(State, FeeSplit)> {
    if merchant !in s.merchants then Err(MerchantMissing)
    else if amount < MinPayment(env.gov(s.governance).minPayment) then Err(AmountTooSmall)
    else
      match Resolve(s, env, merchant)
      case Err(e) => Err(e)
      case Ok((s', effective)) =>
        match SplitAt(amount, effective.rule)
        case Err(e) => Err(e)
        case Ok(split) => Ok((s', split))
  }

  function DoPrunePayment(s: State, env: Env, signers: seq<Address>, merchant: Address, reference: Reference)
    : Result<State>
  {
    var g := AdminAndNotPaused(s, env, signers);
    if g.Fail? then Err(g.error)
    else if (merchant, reference) !in s.payments then Ok(s)
    else Ok(Remove(s, merchant, {(merchant, reference)}).Emit(PaymentPruned(merchant, reference)))
  }

  /** Deletes records and lowers the merchant's counter by their number. */
  function Remove(s: State, merchant: Address, keys: set<PayKey>): State {
    s.(payments := s.payments - keys,
       counts := if keys == {} then s.counts
                 else s.counts[merchant := SaturatingSub(CountOf(s.counts, merchant), |keys|)])
  }

  function Stored(payments: map<PayKey, PaymentRecord>, merchant: Address, references: seq<Reference>): set<PayKey> {
    set r | r in references && (merchant, r) in payments :: (merchant, r)
  }

  function DoPrunePayments(s: State, env: Env, signers: seq<Address>, merchant: Address, references: seq<Reference>)
    : Result<(State, nat)>
  {
    var g := Auth(s, env, signers);
    if g.Fail? then Err(g.error)
    else if |references| > MAX_PAYMENTS_BATCH then Err(BatchTooLarge)
    else if signers == [] then Err(NoFirstSigner)
    else
      var removed := Stored(s.payments, merchant, references);
      Ok((Remove(s, merchant, removed).Emit(PaymentsPruned(merchant, signers[0], |removed|)), |removed|))
  }

  // ---- Payment reads ------------------------------------------------------------------------------

  /** The merchant itself with no signers given, or the admin threshold. */
  function ReadAuth(s: State, env: Env, merchant: Address, signers: seq<Address>): Guard {
    if signers == [] then Need(merchant in env.auth, AuthMissing) else Auth(s, env, signers)
  }

  function ReadGuard(s: State, env: Env, merchant: Address, signers: seq<Address>): Guard {
    var auth := ReadAuth(s, env, merchant, signers);
    if auth.Fail? then auth
    else Need(merchant in s.merchants && merchant !in s.archived, PaymentOrphaned)
  }

  function GetPaymentReference(s: State, env: Env, merchant: Address, reference: Reference, signers: seq<Address>)
    : Result<Option<PaymentRecord>>
  {
    var g := ReadGuard(s, env, merchant, signers);
    if g.Fail? then Err(g.error)
    else Ok(if (merchant, reference) in s.payments then Some(s.payments[(merchant, reference)]) else None)
  }

  /** The stored records among the requested references, in request order. */
  function Found(payments: map<PayKey, PaymentRecord>, merchant: Address, references: seq<Reference>)
    : seq<PaymentRecord>
  {
    if references == [] then []
    else
      var last := references[|references| - 1];
      var before := Found(payments, merchant, references[..|references| - 1]);
      if (merchant, last) in payments then before + [payments[(merchant, last)]] else before
  }

  /** at lists, in increasing order, exactly the positions of the requests that are stored, and
      records what is stored under each. */
  ghost predicate Selects(payments: map<PayKey, PaymentRecord>, merchant: Address, references: seq<Reference>,
                          at: seq<nat>, records: seq<PaymentRecord>)
  {
    && (forall i, j | 0 <= i < j < |at| :: at[i] < at[j])
    && (forall n: nat :: n in at <==> n < |references| && (merchant, references[n]) in payments)
    && |records| == |at|
    && (forall i | 0 <= i < |at| ::
          && at[i] < |references| && (merchant, references[at[i]]) in payments
          && records[i] == payments[(merchant, references[at[i]])])
  }

  lemma SelectsStored(payments: map<PayKey, PaymentRecord>, merchant: Address, references: seq<Reference>,
                      at: seq<nat>, records: seq<PaymentRecord>, next: Reference)
    requires Selects(payments, merchant, references, at, records) && (merchant, next) in payments
    ensures Selects(payments, merchant, references + [next], at + [|references|],
                    records + [payments[(merchant, next)]])
  {}

  lemma SelectsMissing(payments: map<PayKey, PaymentRecord>, merchant: Address, references: seq<Reference>,
                       at: seq<nat>, records: seq<PaymentRecord>, next: Reference)
    requires Selects(payments, merchant, references, at, records) && (merchant, next) !in payments
    ensures Selects(payments, merchant, references + [next], at, records)
  {}

  /** Found is the subsequence of the requests that are stored: each record sits under the request it
      answers, requests keep their order, and no stored request is left out. */
  lemma {:induction false} FoundIsStoredSubsequence(payments: map<PayKey, PaymentRecord>, merchant: Address,
                                                    references: seq<Reference>) returns (at: seq<nat>)
    ensures Selects(payments, merchant, references, at, Found(payments, merchant, references))
  {
    if references == [] {
      at := [];
    } else {
      var n := |references| - 1;
      var before, last := references[..n], references[n];
      at := FoundIsStoredSubsequence(payments, merchant, before);
      assert references == before + [last];
      if (merchant, last) in payments {
        SelectsStored(payments, merchant, before, at, Found(payments, merchant, before), last);
        at := at + [n];
      } else {
        SelectsMissing(payments, merchant, before, at, Found(payments, merchant, before), last);
      }
    }
  }

  function GetPayments(s: State, env: Env, merchant: Address, references: seq<Reference>, cursor: u32,
                       signers: seq<Address>): Result<(seq<PaymentRecord>, Option<u32>)>
  {
    var g := ReadGuard(s, env, merchant, signers);
    if g.Fail? then Err(g.error)
    else if |references| > MAX_PAYMENTS_BATCH then Err(BatchTooLarge)
    else
      var records := Found(s.payments, merchant, references);
      if |references| < MAX_PAYMENTS_BATCH then Ok((records, None))
      else if cursor + |references| > U32_MAX then Err(IntegerTrap)
      else Ok((records, Some(cursor + |references|)))
  }

  function GetPaymentCount(s: State, env: Env, merchant: Address, signers: seq<Address>): Result<u32> {
    var g := ReadGuard(s, env, merchant, signers);
    if g.Fail? then Err(g.error) else Ok(CountOf(s.counts, merchant))
  }

  // ---- One invocation ---------------------------------------------------------------------------------

  function StateOnly<T>(r: Result<(State, T)>): Result<State> {
    match r case Ok((s, _)) => Ok(s) case Err(e) => Err(e)
  }

  function Apply(h: Host, s: State, call: Call, env: Env): Result<State> {
    match call
    case UpdateGovernance(signers, g) => DoUpdateGovernance(s, env, signers, g)
    case InitiateRecovery(a) => DoInitiateRecovery(s, env, a)
    case CancelRecovery(signers) => DoCancelRecovery(s, env, signers)
    case UpdateRecoveryAddress(signers, a) => DoUpdateRecoveryAddress(s, env, signers, a)
    case ExecuteRecovery => DoExecuteRecovery(s, env)
    case TransferAdmin(signers, admins, t) => DoTransferAdmin(s, env, signers, admins, t)
    case ChangeThreshold(signers, t) => DoChangeThreshold(s, env, signers, t)
    case Upgrade(signers, wasm) => DoUpgrade(s, env, signers, wasm)
    case Pause(signers, reason) => DoPause(s, env, signers, reason)
    case Unpause(signers) => DoUnpause(s, env, signers)
    case Schedule(signers, op, delay) => DoSchedule(h, s, env, signers, op, delay)
    case Execute(executor, op) => DoExecute(h, s, env, executor, op)
    case DryRun(op) => (match ExecutionGuard(h, s, env, op) case Pass => Ok(s) case Fail(e) => Err(e))
    case Cancel(signers, op) => DoCancel(h, s, env, signers, op)
    case CancelAll(signers, ops) => StateOnly(DoCancelAll(h, s, env, signers, ops))
    case RegisterMerchant(signers, m) => DoRegisterMerchant(s, env, signers, m)
    case UnregisterMerchant(signers, m) => DoUnregisterMerchant(s, env, signers, m)
    case SetSettlementRule(signers, m, r) => DoSetSettlementRule(s, env, signers, m, r)
    case ClearSettlementRule(signers, m) => DoClearSettlementRule(s, env, signers, m)
    case SetDefaultRule(signers, r) => DoSetDefaultRule(s, env, signers, r)
    case StorePayment(m, r, amount) => DoStorePayment(s, env, m, r, amount)
    case CalculateFeeSplit(m, amount) => StateOnly(DoCalculateFeeSplit(s, env, m, amount))
    case PrunePayment(signers, m, r) => DoPrunePayment(s, env, signers, m, r)
    case PrunePayments(signers, m, rs) => StateOnly(DoPrunePayments(s, env, signers, m, rs))
    case GetEffectiveRule(m) => StateOnly(Resolve(s, env, m))
  }

  /** The committed state after an invocation: an abort rolls everything back. */
  function Step(h: Host, s: State, call: Call, env: Env): State {
    match Apply(h, s, call, env) case Ok(s') => s' case Err(_) => s
  }
}
