/** The settlement contract as it runs: storage fields updated step by step, loops over vectors, and
    the host's rollback around every invocation. Each method is proved against its specification
    in module Entry. */
module Settlement {
  import opened Types
  import opened Multisig
  import opened Fees
  import opened Entry

  /** The method did what the specification says; after a failure storage is left to the rollback. */
  predicate Implements(spec: Result<State>, r: Guard, now: State) {
    match spec
    case Ok(s) => r.Pass? && now == s
    case Err(e) => r == Fail(e)
  }

  predicate ImplementsValue<T(==)>(spec: Result<(State, T)>, r: Result<T>, now: State) {
    match spec
    case Ok((s, value)) => r == Ok(value) && now == s
    case Err(e) => r == Err(e)
  }

  /** The split a stored record carries. */
  function SplitOf(record: PaymentRecord): FeeSplit {
    FeeSplit(record.amount, record.platformFee, record.networkFee, record.payout)
  }

  class SettlementContract {
    const host: Host
    var admins: seq<Address>
    var threshold: u32
    var governance: Address
    var recovery: Address
    var pending: Option<PendingRecovery>
    var paused: bool
    var queue: map<Hash, ScheduledOp>
    var queueCount: u32
    var merchants: set<Address>
    var archived: set<Address>
    var rules: map<Address, Rule>
    var defaultRule: Option<Rule>
    var cachedRule: Option<Rule>
    var payments: map<PayKey, PaymentRecord>
    var counts: map<Address, u32>
    var log: seq<Event>

    function Snapshot(): State
      reads this
    {
      State(admins, threshold, governance, recovery, pending, paused, queue, queueCount, merchants, archived,
            rules, defaultRule, cachedRule, payments, counts, log)
    }

    constructor (host: Host, s: State)
      ensures this.host == host && Snapshot() == s
    {
      this.host := host;
      admins, threshold, governance, recovery := s.admins, s.threshold, s.governance, s.recovery;
      pending, paused, queue, queueCount := s.pending, s.paused, s.queue, s.queueCount;
      merchants, archived, rules := s.merchants, s.archived, s.rules;
      defaultRule, cachedRule, payments, counts, log := s.defaultRule, s.cachedRule, s.payments, s.counts, s.log;
    }

    method RestoreAuthority(s: State)
      modifies this`admins, this`threshold, this`governance, this`recovery, this`pending, this`paused, this`queue,
               this`queueCount
      ensures admins == s.admins && threshold == s.threshold && governance == s.governance && recovery == s.recovery
      ensures pending == s.pending && paused == s.paused && queue == s.queue && queueCount == s.queueCount
    {
      admins, threshold, governance, recovery := s.admins, s.threshold, s.governance, s.recovery;
      pending, paused, queue, queueCount := s.pending, s.paused, s.queue, s.queueCount;
    }

    method RestoreBooks(s: State)
      modifies this`merchants, this`archived, this`rules, this`defaultRule, this`cachedRule, this`payments,
               this`counts, this`log
      ensures merchants == s.merchants && archived == s.archived && rules == s.rules && defaultRule == s.defaultRule
      ensures cachedRule == s.cachedRule && payments == s.payments && counts == s.counts && log == s.log
    {
      merchants, archived, rules, defaultRule := s.merchants, s.archived, s.rules, s.defaultRule;
      cachedRule, payments, counts, log := s.cachedRule, s.payments, s.counts, s.log;
    }

    /** The host discards every write of an aborted invocation. */
    method Rollback(s: State)
      modifies this
      ensures Snapshot() == s
    {
      RestoreAuthority(s);
      RestoreBooks(s);
    }

    static method Init(host: Host, env: Env, deployer: Address, admins: seq<Address>, threshold: u32,
                       governance: Address, recovery: Address) returns (r: Result<SettlementContract>)
      ensures match Initialize(env, deployer, admins, threshold, governance, recovery)
              case Ok(s) => r.Ok? && fresh(r.value) && r.value.host == host && r.value.Snapshot() == s
              case Err(e) => r.Err? && r.error == e
    {
      if deployer !in env.auth { return Err(AuthMissing); }
      var v := ValidateAdmins(admins, threshold, ZeroAddress);
      if v.Fail? { return Err(v.error); }
      if governance == Zero { return Err(InvalidGovernance); }
      if recovery == Zero { return Err(InvalidRecoveryAddress); }
      for i := 0 to |admins|
        invariant forall j | 0 <= j < i :: admins[j] in env.auth
      {
        if admins[i] !in env.auth { return Err(AuthMissing); }
      }
      var c := new SettlementContract(host, State(admins, threshold, governance, recovery, None, false, map[], 0,
                                                  {}, {}, map[], None, None, map[], map[], []));
      return Ok(c);
    }

    method Publish(e: Event)
      modifies this`log
      ensures Snapshot() == old(Snapshot()).Emit(e)
    {
      log := log + [e];
    }

    method AssertAdmin(env: Env, signers: seq<Address>) returns (g: Guard)
      ensures g == Auth(Snapshot(), env, signers)
    {
      g := VerifyAdminAuth(admins, signers, env.auth, threshold);
    }

    method AssertAdminAndNotPaused(env: Env, signers: seq<Address>) returns (g: Guard)
      ensures g == AdminAndNotPaused(Snapshot(), env, signers)
    {
      if paused { return Fail(Paused); }
      g := VerifyAdminAuth(admins, signers, env.auth, threshold);
    }

    // ---- Rules ------------------------------------------------------------------------------------

    /** read_effective_fallback_rule; a good governance answer overwrites the cache. */
    method ReadFallbackRule(env: Env) returns (r: Result<Effective>)
      modifies this`cachedRule
      ensures ImplementsValue(Fallback(old(Snapshot()), env), r, Snapshot())
    {
      if defaultRule.Some? { return Ok(Effective(defaultRule.value, FromDefault)); }
      var view := env.gov(governance);
      if view.bypass == ParamValue(1) { return Ok(Effective(BOOTSTRAP_RULE, FromBootstrap)); }
      if view.fee.FeeCallFailed? {
        return Ok(if cachedRule.Some? then Effective(cachedRule.value, FromGovernance)
                  else Effective(BOOTSTRAP_RULE, FromBootstrap));
      }
      var config := Classify(view.fee.val);
      if config.Err? { return Err(config.error); }
      if config.value.None? { return Ok(Effective(BOOTSTRAP_RULE, FromBootstrap)); }
      var rule := Rule(config.value.value.0, config.value.value.1, 0, false);
      cachedRule := Some(rule);
      return Ok(Effective(rule, FromGovernance));
    }

    /** get_rule_provenance; get_effective_rule and the payment path use its rule. */
    method ReadEffectiveRule(env: Env, merchant: Address) returns (r: Result<Effective>)
      modifies this`cachedRule
      ensures ImplementsValue(Resolve(old(Snapshot()), env, merchant), r, Snapshot())
    {
      if merchant in rules { return Ok(Effective(rules[merchant], FromMerchant)); }
      r := ReadFallbackRule(env);
    }

    method StoreRule(env: Env, who: Address, merchant: Address, rule: Rule) returns (r: Guard)
      modifies this
      ensures Implements(WriteRule(old(Snapshot()), env, who, merchant, rule), r, Snapshot())
    {
      var previous := ReadEffectiveRule(env, merchant);
      if previous.Err? { return Fail(previous.error); }
      rules := rules[merchant := rule];
      Publish(RuleUpdated(merchant, who, previous.value.rule, rule));
      return Pass;
    }

    method StoreDefault(who: Address, rule: Rule)
      modifies this
      ensures Snapshot() == WriteDefault(old(Snapshot()), who, rule)
    {
      var previous := if defaultRule.Some? then defaultRule.value else BOOTSTRAP_RULE;
      defaultRule := Some(rule);
      Publish(DefaultRuleUpdated(who, previous, rule));
    }

    method EraseRule(env: Env, who: Address, merchant: Address) returns (r: Guard)
      requires merchant in rules
      modifies this
      ensures Implements(DropRule(old(Snapshot()), env, who, merchant), r, Snapshot())
    {
      var removed := rules[merchant];
      rules := rules - {merchant};
      var fallback := ReadFallbackRule(env);
      if fallback.Err? { return Fail(fallback.error); }
      Publish(RuleCleared(merchant, who, removed, fallback.value.rule));
      return Pass;
    }

    method SetSettlementRule(env: Env, signers: seq<Address>, merchant: Address, rule: Rule) returns (r: Guard)
      modifies this
      ensures Implements(DoSetSettlementRule(old(Snapshot()), env, signers, merchant, rule), r, Snapshot())
    {
      r := AssertAdminAndNotPaused(env, signers);
      if r.Fail? { return; }
      if signers == [] { return Fail(NoFirstSigner); }
      if merchant == Zero { return Fail(ZeroAddress); }
      if merchant !in merchants { return Fail(MerchantMissing); }
      r := RuleBounds(rule);
      if r.Fail? { return; }
      r := FeeCeiling(Snapshot(), env, rule);
      if r.Fail? { return; }
      r := StoreRule(env, signers[0], merchant, rule);
    }

    method ClearSettlementRule(env: Env, signers: seq<Address>, merchant: Address) returns (r: Guard)
      modifies this
      ensures Implements(DoClearSettlementRule(old(Snapshot()), env, signers, merchant), r, Snapshot())
    {
      r := AssertAdminAndNotPaused(env, signers);
      if r.Fail? { return; }
      if signers == [] { return Fail(NoFirstSigner); }
      if merchant !in rules { return Fail(MerchantRuleNotSet); }
      r := EraseRule(env, signers[0], merchant);
    }

    method SetDefaultRule(env: Env, signers: seq<Address>, rule: Rule) returns (r: Guard)
      modifies this
      ensures Implements(DoSetDefaultRule(old(Snapshot()), env, signers, rule), r, Snapshot())
    {
      r := AssertAdminAndNotPaused(env, signers);
      if r.Fail? { return; }
      if signers == [] { return Fail(NoFirstSigner); }
      r := RuleBounds(rule);
      if r.Fail? { return; }
      r := FeeCeiling(Snapshot(), env, rule);
      if r.Fail? { return; }
      StoreDefault(signers[0], rule);
      return Pass;
    }

    // ---- Merchants and governance --------------------------------------------------------------------

    method UpdateGovernance(env: Env, signers: seq<Address>, newGovernance: Address) returns (r: Guard)
      modifies this
      ensures Implements(DoUpdateGovernance(old(Snapshot()), env, signers, newGovernance), r, Snapshot())
    {
      r := AssertAdminAndNotPaused(env, signers);
      if r.Fail? { return; }
      if newGovernance == Zero { return Fail(InvalidGovernance); }
      if signers == [] { return Fail(NoFirstSigner); }
      governance := newGovernance;
      Publish(GovernanceUpdated(signers[0], newGovernance));
      return Pass;
    }

    method RegisterMerchant(env: Env, signers: seq<Address>, merchant: Address) returns (r: Guard)
      modifies this
      ensures Implements(DoRegisterMerchant(old(Snapshot()), env, signers, merchant), r, Snapshot())
    {
      r := AssertAdminAndNotPaused(env, signers);
      if r.Fail? { return; }
      if merchant == Zero { return Fail(ZeroAddress); }
      if signers == [] { return Fail(NoFirstSigner); }
      var isAdmin := Contains(admins, merchant);
      if isAdmin { return Fail(InvalidAdmin); }
      if merchant !in env.auth { return Fail(AuthMissing); }
      Publish(MerchantConsent(merchant));
      if merchant in merchants { return Fail(MerchantExists); }
      merchants := merchants + {merchant};
      archived := archived - {merchant};
      Publish(MerchantRegistered(merchant, signers[0]));
      return Pass;
    }

    /** Shared by the direct and the timelocked unregistration. */
    method RetireMerchant(env: Env, who: Address, merchant: Address) returns (r: Guard)
      modifies this
      ensures Implements(Unregister(old(Snapshot()), env, who, merchant), r, Snapshot())
    {
      if merchant !in merchants { return Fail(MerchantMissing); }
      merchants := merchants - {merchant};
      archived := archived + {merchant};
      assert Snapshot() == old(Snapshot()).(merchants := old(merchants) - {merchant},
                                            archived := old(archived) + {merchant});
      if merchant in rules {
        r := EraseRule(env, who, merchant);
        if r.Fail? { return; }
      }
      Publish(MerchantUnregistered(merchant, who));
      return Pass;
    }

    method UnregisterMerchant(env: Env, signers: seq<Address>, merchant: Address) returns (r: Guard)
      modifies this
      ensures Implements(DoUnregisterMerchant(old(Snapshot()), env, signers, merchant), r, Snapshot())
    {
      r := AssertAdminAndNotPaused(env, signers);
      if r.Fail? { return; }
      if signers == [] { return Fail(NoFirstSigner); }
      r := RetireMerchant(env, signers[0], merchant);
    }

    // ---- Recovery, admins, pause -----------------------------------------------------------------------

    method InitiateRecovery(env: Env, newAdmin: Address) returns (r: Guard)
      modifies this
      ensures Implements(DoInitiateRecovery(old(Snapshot()), env, newAdmin), r, Snapshot())
    {
      if recovery !in env.auth { return Fail(AuthMissing); }
      if newAdmin == Zero { return Fail(InvalidAdmin); }
      if pending.Some? { return Fail(RecoveryAlreadyPending); }
      if env.now + RECOVERY_DELAY_SECONDS > U64_MAX { return Fail(IntegerTrap); }
      var executeAfter := env.now + RECOVERY_DELAY_SECONDS;
      pending := Some(PendingRecovery(newAdmin, executeAfter, recovery));
      Publish(RecoveryInitiated(recovery, newAdmin, executeAfter));
      return Pass;
    }

    method CancelRecovery(env: Env, signers: seq<Address>) returns (r: Guard)
      modifies this
      ensures Implements(DoCancelRecovery(old(Snapshot()), env, signers), r, Snapshot())
    {
      if pending.None? { return Fail(RecoveryNotPending); }
      if |signers| == 1 && signers[0] == pending.value.initiatedBy {
        if pending.value.initiatedBy !in env.auth { return Fail(AuthMissing); }
      } else {
        r := AssertAdmin(env, signers);
        if r.Fail? { return; }
      }
      if signers == [] { return Fail(NoFirstSigner); }
      pending := None;
      Publish(RecoveryCancelled(signers[0]));
      return Pass;
    }

    method UpdateRecoveryAddress(env: Env, signers: seq<Address>, newRecovery: Address) returns (r: Guard)
      modifies this
      ensures Implements(DoUpdateRecoveryAddress(old(Snapshot()), env, signers, newRecovery), r, Snapshot())
    {
      r := AssertAdmin(env, signers);
      if r.Fail? { return; }
      if signers == [] { return Fail(NoFirstSigner); }
      if newRecovery == Zero { return Fail(InvalidRecoveryAddress); }
      recovery := newRecovery;
      Publish(RecoveryAddressUpdated(signers[0], newRecovery));
      return Pass;
    }

    /** write_admins: validate, then store both values. */
    method WriteAdmins(newAdmins: seq<Address>, newThreshold: u32) returns (r: Guard)
      modifies this`admins, this`threshold
      ensures r == CheckAdmins(newAdmins, newThreshold, ZeroAddress)
      ensures r.Pass? ==> Snapshot() == old(Snapshot()).(admins := newAdmins, threshold := newThreshold)
    {
      r := ValidateAdmins(newAdmins, newThreshold, ZeroAddress);
      if r.Pass? {
        admins, threshold := newAdmins, newThreshold;
      }
    }

    method ExecuteRecovery(env: Env) returns (r: Guard)
      modifies this
      ensures Implements(DoExecuteRecovery(old(Snapshot()), env), r, Snapshot())
    {
      if pending.None? { return Fail(RecoveryNotPending); }
      if env.now < pending.value.executeAfter { return Fail(RecoveryDelayActive); }
      var oldAdmins, newAdmins := admins, [pending.value.newAdmin];
      r := WriteAdmins(newAdmins, 1);
      if r.Fail? { return; }
      pending := None;
      Publish(RecoveryExecuted(oldAdmins, newAdmins));
    }

    /** The scan that keeps a merchant out of the admin set, then the write. */
    method InstallAdmins(newAdmins: seq<Address>, newThreshold: u32) returns (r: Guard)
      modifies this
      ensures Implements(ReplaceAdmins(old(Snapshot()), newAdmins, newThreshold), r, Snapshot())
    {
      for i := 0 to |newAdmins|
        invariant Snapshot() == old(Snapshot())
        invariant forall j | 0 <= j < i :: newAdmins[j] !in merchants
      {
        if newAdmins[i] in merchants { return Fail(InvalidAdmin); }
      }
      var oldAdmins := admins;
      r := WriteAdmins(newAdmins, newThreshold);
      if r.Fail? { return; }
      Publish(AdminTransferred(oldAdmins, newAdmins));
    }

    method TransferAdmin(env: Env, signers: seq<Address>, newAdmins: seq<Address>, newThreshold: u32)
      returns (r: Guard)
      modifies this
      ensures Implements(DoTransferAdmin(old(Snapshot()), env, signers, newAdmins, newThreshold), r, Snapshot())
    {
      r := AssertAdmin(env, signers);
      if r.Fail? { return; }
      r := ValidateAdmins(newAdmins, newThreshold, ZeroAddress);
      if r.Fail? { return; }
      if admins == newAdmins && threshold == newThreshold { return Fail(SameAdmin); }
      r := InstallAdmins(newAdmins, newThreshold);
    }

    method ChangeThreshold(env: Env, signers: seq<Address>, newThreshold: u32) returns (r: Guard)
      modifies this
      ensures Implements(DoChangeThreshold(old(Snapshot()), env, signers, newThreshold), r, Snapshot())
    {
      if newThreshold == 0 || newThreshold > |admins| { return Fail(InvalidThreshold); }
      if newThreshold == threshold { return Fail(SameAdmin); }
      if threshold == U32_MAX { return Fail(IntegerTrap); }
      r := VerifyAdminAuth(admins, signers, env.auth, threshold + 1);
      if r.Fail? { return; }
      var current := threshold;
      threshold := newThreshold;
      if signers == [] { return Fail(NoFirstSigner); }
      Publish(ThresholdChanged(signers[0], current, newThreshold));
    }

    method Upgrade(env: Env, signers: seq<Address>, wasm: WasmHash) returns (r: Guard)
      modifies this
      ensures Implements(DoUpgrade(old(Snapshot()), env, signers, wasm), r, Snapshot())
    {
      r := AssertAdmin(env, signers);
      if r.Fail? { return; }
      if signers == [] { return Fail(NoFirstSigner); }
      if !env.wasmOk(wasm) { return Fail(InvalidWasmInterface); }
      Publish(ContractUpgraded(signers[0], wasm));
    }

    method Pause(env: Env, signers: seq<Address>, reason: u32) returns (r: Guard)
      modifies this
      ensures Implements(DoPause(old(Snapshot()), env, signers, reason), r, Snapshot())
    {
      r := AssertAdmin(env, signers);
      if r.Fail? { return; }
      if paused { return Fail(AlreadyPaused); }
      if reason > MAX_PAUSE_REASON { return Fail(InvalidPauseReason); }
      if signers == [] { return Fail(NoFirstSigner); }
      paused := true;
      Publish(PausedEvent(signers[0], reason));
    }

    method Unpause(env: Env, signers: seq<Address>) returns (r: Guard)
      modifies this
      ensures Implements(DoUnpause(old(Snapshot()), env, signers), r, Snapshot())
    {
      r := AssertAdmin(env, signers);
      if r.Fail? { return; }
      if !paused { return Fail(AlreadyUnpaused); }
      if signers == [] { return Fail(NoFirstSigner); }
      paused := false;
      Publish(UnpausedEvent(signers[0]));
    }

    // ---- Timelock ---------------------------------------------------------------------------------------

    method Schedule(env: Env, signers: seq<Address>, op: Operation, executeIn: u64) returns (r: Guard)
      modifies this
      ensures Implements(DoSchedule(host, old(Snapshot()), env, signers, op, executeIn), r, Snapshot())
    {
      r := AssertAdminAndNotPaused(env, signers);
      if r.Fail? { return; }
      if signers == [] { return Fail(NoFirstSigner); }
      if executeIn < MIN_TIMELOCK_DELAY_SECONDS { return Fail(ExecutionNotReady); }
      if executeIn > MAX_TIMELOCK_DELAY_SECONDS { return Fail(ExecutionDelayTooLong); }
      r := ScheduleBounds(op);
      if r.Fail? { return; }
      var xdr := host.xdr(op);
      if |xdr| > MAX_SCHEDULED_OPERATION_PAYLOAD_LEN { return Fail(PayloadTooLarge); }
      if env.gov(governance).ceiling.FeeCallFailed? { return Fail(GovernanceCallFailed); }
      var key := host.sha256(xdr);
      if key in queue {
        return Fail(if queue[key].xdr == xdr then OperationAlreadyScheduled else OperationHashCollision);
      }
      if env.now + executeIn > U64_MAX { return Fail(ExecutionDelayTooLong); }
      var executeAt := env.now + executeIn;
      FillSlot(key, ScheduledOp(xdr, executeAt));
      Publish(OpScheduled(key, signers[0], executeAt));
      return Pass;
    }

    method FillSlot(key: Hash, slot: ScheduledOp)
      modifies this`queue, this`queueCount
      ensures Snapshot() == old(Snapshot()).(queue := old(queue)[key := slot],
                                             queueCount := SaturatingInc(old(queueCount)))
    {
      queue := queue[key := slot];
      queueCount := SaturatingInc(queueCount);
    }

    /** validate_scheduled_execution, the whole of dry_run. */
    method DryRun(env: Env, op: Operation) returns (r: Guard)
      ensures r == ExecutionGuard(host, Snapshot(), env, op)
    {
      if paused { return Fail(Paused); }
      var xdr := host.xdr(op);
      var key := host.sha256(xdr);
      if key !in queue { return Fail(OperationNotScheduled); }
      if queue[key].xdr != xdr { return Fail(OperationNotScheduled); }
      if env.now < queue[key].executeAt { return Fail(ExecutionNotReady); }
      if pending.Some? && !op.CancelRecovery? { return Fail(RecoveryDelayActive); }
      return Pass;
    }

    method ConsumeSlot(key: Hash)
      modifies this`queue, this`queueCount
      ensures Snapshot() == Consume(old(Snapshot()), {key})
    {
      queue := queue - {key};
      queueCount := SaturatingSub(queueCount, 1);
    }

    method Execute(env: Env, executor: Address, op: Operation) returns (r: Guard)
      modifies this
      ensures Implements(DoExecute(host, old(Snapshot()), env, executor, op), r, Snapshot())
    {
      r := DryRun(env, op);
      if r.Fail? { return; }
      ConsumeSlot(host.Key(op));
      r := Dispatch(env, executor, op);
      if r.Fail? { return; }
      Publish(OpExecuted(host.Key(op)));
    }

    method Dispatch(env: Env, executor: Address, op: Operation) returns (r: Guard)
      modifies this
      ensures Implements(Arm(old(Snapshot()), env, executor, op), r, Snapshot())
    {
      match op
      case UpdateGovernance(g) => r := ScheduledUpdateGovernance(executor, g);
      case CancelRecovery => r := ScheduledCancelRecovery(executor);
      case TransferAdmin(newAdmins, t) => r := ScheduledTransferAdmin(newAdmins, t);
      case Upgrade(wasm) => r := ScheduledUpgrade(env, executor, wasm);
      case RegisterMerchant(m) => r := ScheduledRegisterMerchant(executor, m);
      case UnregisterMerchant(m) => r := ScheduledUnregisterMerchant(env, executor, m);
      case SetSettlementRule(m, rule) => r := ScheduledSetSettlementRule(env, executor, m, rule);
      case ClearSettlementRule(m) => r := ScheduledClearSettlementRule(env, executor, m);
      case SetDefaultRule(rule) => r := ScheduledSetDefaultRule(env, executor, rule);
    }

    method ScheduledUpdateGovernance(executor: Address, g: Address) returns (r: Guard)
      modifies this
      ensures Implements(ArmUpdateGovernance(old(Snapshot()), executor, g), r, Snapshot())
    {
      if paused { return Fail(Paused); }
      if g == Zero { return Fail(InvalidGovernance); }
      governance := g;
      Publish(GovernanceUpdated(executor, g));
      return Pass;
    }

    method ScheduledCancelRecovery(executor: Address) returns (r: Guard)
      modifies this
      ensures Implements(ArmCancelRecovery(old(Snapshot()), executor), r, Snapshot())
    {
      if pending.None? { return Fail(RecoveryNotPending); }
      pending := None;
      Publish(RecoveryCancelled(executor));
      return Pass;
    }

    method ScheduledTransferAdmin(newAdmins: seq<Address>, newThreshold: u32) returns (r: Guard)
      modifies this
      ensures Implements(ArmTransferAdmin(old(Snapshot()), newAdmins, newThreshold), r, Snapshot())
    {
      r := ValidateAdmins(newAdmins, newThreshold, ZeroAddress);
      if r.Fail? { return; }
      r := InstallAdmins(newAdmins, newThreshold);
    }

    method ScheduledUpgrade(env: Env, executor: Address, wasm: WasmHash) returns (r: Guard)
      modifies this
      ensures Implements(ArmUpgrade(old(Snapshot()), env, executor, wasm), r, Snapshot())
    {
      if wasm == 0 { return Fail(InvalidWasmInterface); }
      if paused { return Fail(Paused); }
      if !env.wasmOk(wasm) { return Fail(InvalidWasmInterface); }
      Publish(ContractUpgraded(executor, wasm));
      return Pass;
    }

    method ScheduledRegisterMerchant(executor: Address, merchant: Address) returns (r: Guard)
      modifies this
      ensures Implements(ArmRegisterMerchant(old(Snapshot()), executor, merchant), r, Snapshot())
    {
      if paused { return Fail(Paused); }
      if merchant == Zero { return Fail(ZeroAddress); }
      var isAdmin := Contains(admins, merchant);
      if isAdmin { return Fail(InvalidAdmin); }
      if merchant in merchants { return Fail(MerchantExists); }
      merchants := merchants + {merchant};
      archived := archived - {merchant};
      Publish(MerchantRegistered(merchant, executor));
      return Pass;
    }

    method ScheduledUnregisterMerchant(env: Env, executor: Address, merchant: Address) returns (r: Guard)
      modifies this
      ensures Implements(ArmUnregisterMerchant(old(Snapshot()), env, executor, merchant), r, Snapshot())
    {
      if paused { return Fail(Paused); }
      r := RetireMerchant(env, executor, merchant);
    }

    method ScheduledSetSettlementRule(env: Env, executor: Address, merchant: Address, rule: Rule) returns (r: Guard)
      modifies this
      ensures Implements(ArmSetSettlementRule(old(Snapshot()), env, executor, merchant, rule), r, Snapshot())
    {
      if paused { return Fail(Paused); }
      r := FeeCeiling(Snapshot(), env, rule);
      if r.Fail? { return; }
      if merchant !in merchants { return Fail(MerchantMissing); }
      r := RuleBounds(rule);
      if r.Fail? { return; }
      r := StoreRule(env, executor, merchant, rule);
    }

    method ScheduledClearSettlementRule(env: Env, executor: Address, merchant: Address) returns (r: Guard)
      modifies this
      ensures Implements(ArmClearSettlementRule(old(Snapshot()), env, executor, merchant), r, Snapshot())
    {
      if paused { return Fail(Paused); }
      if merchant !in rules { return Fail(MerchantRuleNotSet); }
      var removed := rules[merchant];
      rules := rules - {merchant};
      var fallback := ReadEffectiveRule(env, merchant);
      if fallback.Err? { return Fail(fallback.error); }
      Publish(RuleCleared(merchant, executor, removed, fallback.value.rule));
      return Pass;
    }

    method ScheduledSetDefaultRule(env: Env, executor: Address, rule: Rule) returns (r: Guard)
      modifies this
      ensures Implements(ArmSetDefaultRule(old(Snapshot()), env, executor, rule), r, Snapshot())
    {
      if paused { return Fail(Paused); }
      r := FeeCeiling(Snapshot(), env, rule);
      if r.Fail? { return; }
      r := RuleBounds(rule);
      if r.Fail? { return; }
      StoreDefault(executor, rule);
      return Pass;
    }

    method Cancel(env: Env, signers: seq<Address>, op: Operation) returns (r: Guard)
      modifies this
      ensures Implements(DoCancel(host, old(Snapshot()), env, signers, op), r, Snapshot())
    {
      r := AssertAdmin(env, signers);
      if r.Fail? { return; }
      if paused { return Fail(Paused); }
      if signers == [] { return Fail(NoFirstSigner); }
      var xdr := host.xdr(op);
      var key := host.sha256(xdr);
      if key !in queue { return Fail(OperationNotScheduled); }
      if queue[key].xdr != xdr { return Fail(OperationNotScheduled); }
      ConsumeSlot(key);
      Publish(OpCancelled(key, signers[0]));
      return Pass;
    }

    method CancelAll(env: Env, signers: seq<Address>, ops: seq<Operation>) returns (r: Result<nat>)
      modifies this
      ensures ImplementsValue(DoCancelAll(host, old(Snapshot()), env, signers, ops), r, Snapshot())
    {
      var g := AssertAdmin(env, signers);
      if g.Fail? { return Err(g.error); }
      if paused { return Err(Paused); }
      if signers == [] { return Err(NoFirstSigner); }
      if |ops| > MAX_CANCEL_ALL_BATCH { return Err(BatchTooLarge); }
      var cancelled := CancelEach(ops);
      Publish(OpsCancelled(signers[0], cancelled));
      return Ok(cancelled);
    }

    /** The loop of cancel_all: one pass, each hit consumed at most once. */
    method CancelEach(ops: seq<Operation>) returns (cancelled: nat)
      modifies this`queue, this`queueCount
      ensures Snapshot() == Consume(old(Snapshot()), Hits(host, old(queue), ops))
      ensures cancelled == |Hits(host, old(queue), ops)|
    {
      cancelled := 0;
      assert Hits(host, queue, ops[..0]) == {};
      for i := 0 to |ops|
        invariant queue == old(queue) - Hits(host, old(queue), ops[..i])
        invariant cancelled == |Hits(host, old(queue), ops[..i])|
        invariant queueCount == SaturatingSub(old(queueCount), cancelled)
      {
        var xdr := host.xdr(ops[i]);
        var key := host.sha256(xdr);
        HitsStep(host, old(queue), ops, i);
        if key in queue && queue[key].xdr == xdr {
          ConsumeSlot(key);
          cancelled := cancelled + 1;
        }
      }
      assert ops[..|ops|] == ops;
    }

    // ---- Payments -----------------------------------------------------------------------------------------

    method StorePayment(env: Env, merchant: Address, reference: Reference, amount: i128) returns (r: Result<FeeSplit>)
      modifies this
      ensures match DoStorePayment(old(Snapshot()), env, merchant, reference, amount)
              case Ok(s) => && Snapshot() == s && (merchant, reference) in payments
                            && r == Ok(SplitOf(payments[(merchant, reference)]))
              case Err(e) => r == Err(e)
    {
      if reference == ZeroReference { return Err(InvalidPaymentReference); }
      if paused { return Err(Paused); }
      if merchant !in env.auth { return Err(AuthMissing); }
      if merchant !in merchants { return Err(MerchantMissing); }
      if amount < MinPayment(env.gov(governance).minPayment) { return Err(AmountTooSmall); }
      var key := (merchant, reference);
      if key in payments { return Err(DuplicatePaymentReference); }
      payments := payments[key := Placeholder(merchant)];
      var effective := ReadEffectiveRule(env, merchant);
      if effective.Err? { return Err(effective.error); }
      r := RecordPayment(env.sequence, key, effective.value.rule, SplitAt(amount, effective.value.rule));
    }

    /** From the resolved rule to the stored record and counter. */
    method RecordPayment(sequence: u32, key: PayKey, rule: Rule, split: Result<FeeSplit>) returns (r: Result<FeeSplit>)
      modifies this
      ensures match CommitPayment(old(Snapshot()), sequence, key, rule, split)
              case Ok(s) => r == split && r.Ok? && Snapshot() == s
              case Err(e) => r == Err(e)
    {
      if rule == BOOTSTRAP_RULE {
        Publish(BootstrapFallback(BOOTSTRAP_RULE));
      }
      if split.Err? { return split; }
      var record := RecordOf(key.0, split.value, rule, sequence);
      payments := payments[key := record];
      var count := CountOf(counts, key.0);
      if count == U32_MAX { return Err(IntegerTrap); }
      counts := counts[key.0 := count + 1];
      Publish(PaymentStored(key.0, key.1, record));
      return split;
    }

    method CalculateFeeSplit(env: Env, merchant: Address, amount: i128) returns (r: Result<FeeSplit>)
      modifies this`cachedRule
      ensures ImplementsValue(DoCalculateFeeSplit(old(Snapshot()), env, merchant, amount), r, Snapshot())
    {
      if merchant !in merchants { return Err(MerchantMissing); }
      if amount < MinPayment(env.gov(governance).minPayment) { return Err(AmountTooSmall); }
      var effective := ReadEffectiveRule(env, merchant);
      if effective.Err? { return Err(effective.error); }
      r := SplitAt(amount, effective.value.rule);
    }

    method PrunePayment(env: Env, signers: seq<Address>, merchant: Address, reference: Reference) returns (r: Guard)
      modifies this
      ensures Implements(DoPrunePayment(old(Snapshot()), env, signers, merchant, reference), r, Snapshot())
    {
      r := AssertAdminAndNotPaused(env, signers);
      if r.Fail? { return; }
      var key := (merchant, reference);
      if key in payments {
        payments := payments - {key};
        counts := counts[merchant := SaturatingSub(CountOf(counts, merchant), 1)];
        Publish(PaymentPruned(merchant, reference));
      }
      return Pass;
    }

    method PrunePayments(env: Env, signers: seq<Address>, merchant: Address, references: seq<Reference>)
      returns (r: Result<nat>)
      modifies this
      ensures ImplementsValue(DoPrunePayments(old(Snapshot()), env, signers, merchant, references), r, Snapshot())
    {
      var g := AssertAdmin(env, signers);
      if g.Fail? { return Err(g.error); }
      if |references| > MAX_PAYMENTS_BATCH { return Err(BatchTooLarge); }
      var removed := RemoveRecords(merchant, references);
      if signers == [] { return Err(NoFirstSigner); }
      Publish(PaymentsPruned(merchant, signers[0], removed));
      return Ok(removed);
    }

    /** The deletions of prune_payments and the one counter update after them. */
    method RemoveRecords(merchant: Address, references: seq<Reference>) returns (removed: nat)
      modifies this`payments, this`counts
      ensures Snapshot() == Remove(old(Snapshot()), merchant, Stored(old(payments), merchant, references))
      ensures removed == |Stored(old(payments), merchant, references)|
    {
      removed := PruneEach(merchant, references);
      if removed > 0 {
        counts := counts[merchant := SaturatingSub(CountOf(counts, merchant), removed)];
      }
    }

    /** The loop of prune_payments: missing and repeated references remove nothing. */
    method PruneEach(merchant: Address, references: seq<Reference>) returns (removed: nat)
      modifies this`payments
      ensures payments == old(payments) - Stored(old(payments), merchant, references)
      ensures removed == |Stored(old(payments), merchant, references)|
    {
      removed := 0;
      assert Stored(payments, merchant, references[..0]) == {};
      for i := 0 to |references|
        invariant payments == old(payments) - Stored(old(payments), merchant, references[..i])
        invariant removed == |Stored(old(payments), merchant, references[..i])|
      {
        StoredStep(old(payments), merchant, references, i);
        var key := (merchant, references[i]);
        if key in payments {
          payments := payments - {key};
          removed := removed + 1;
        }
      }
      assert references[..|references|] == references;
    }

    method ReadPayments(env: Env, merchant: Address, references: seq<Reference>, cursor: u32, signers: seq<Address>)
      returns (r: Result<(seq<PaymentRecord>, Option<u32>)>)
      ensures r == GetPayments(Snapshot(), env, merchant, references, cursor, signers)
    {
      var g := Pass;
      if signers == [] {
        g := Need(merchant in env.auth, AuthMissing);
      } else {
        g := AssertAdmin(env, signers);
      }
      if g.Fail? { return Err(g.error); }
      if merchant !in merchants || merchant in archived { return Err(PaymentOrphaned); }
      if |references| > MAX_PAYMENTS_BATCH { return Err(BatchTooLarge); }
      var records: seq<PaymentRecord> := [];
      for i := 0 to |references|
        invariant records == Found(payments, merchant, references[..i])
      {
        assert references[..i + 1][..i] == references[..i];
        if (merchant, references[i]) in payments {
          records := records + [payments[(merchant, references[i])]];
        }
      }
      assert references[..|references|] == references;
      if |references| < MAX_PAYMENTS_BATCH { return Ok((records, None)); }
      if cursor + |references| > U32_MAX { return Err(IntegerTrap); }
      return Ok((records, Some(cursor + |references|)));
    }

    // ---- Invocation -----------------------------------------------------------------------------------------

    /** One invocation: dispatch, and roll every write back if it aborts. */
    method Invoke(call: Call, env: Env) returns (r: Guard)
      modifies this
      ensures Snapshot() == Step(host, old(Snapshot()), call, env)
      ensures r == (match Apply(host, old(Snapshot()), call, env) case Ok(_) => Pass case Err(e) => Fail(e))
    {
      var before := Snapshot();
      if call.Schedule? || call.Execute? || call.DryRun? || call.Cancel? || call.CancelAll? {
        r := CallTimelock(call, env);
      } else if call.StorePayment? {
        r := CallStore(call, env);
      } else if call.PrunePayment? || call.PrunePayments? {
        r := CallPrune(call, env);
      } else if call.CalculateFeeSplit? || call.GetEffectiveRule? {
        r := CallReads(call, env);
      } else if call.UpdateGovernance? || call.RegisterMerchant? || call.UnregisterMerchant? {
        r := CallRegistry(call, env);
      } else if call.SetSettlementRule? || call.ClearSettlementRule? || call.SetDefaultRule? {
        r := CallRules(call, env);
      } else {
        r := CallAuthority(call, env);
      }
      if r.Fail? {
        Rollback(before);
      }
    }

    method CallTimelock(call: Call, env: Env) returns (r: Guard)
      requires call.Schedule? || call.Execute? || call.DryRun? || call.Cancel? || call.CancelAll?
      modifies this
      ensures Implements(Apply(host, old(Snapshot()), call, env), r, Snapshot())
    {
      match call
      case Schedule(signers, op, delay) => r := Schedule(env, signers, op, delay);
      case Execute(executor, op) => r := Execute(env, executor, op);
      case DryRun(op) => r := DryRun(env, op);
      case Cancel(signers, op) => r := Cancel(env, signers, op);
      case CancelAll(signers, ops) =>
        var n := CancelAll(env, signers, ops);
        r := if n.Ok? then Pass else Fail(n.error);
    }

    method CallStore(call: Call, env: Env) returns (r: Guard)
      requires call.StorePayment?
      modifies this
      ensures Implements(Apply(host, old(Snapshot()), call, env), r, Snapshot())
    {
      var split := StorePayment(env, call.merchant, call.reference, call.amount);
      r := if split.Ok? then Pass else Fail(split.error);
    }

    method CallPrune(call: Call, env: Env) returns (r: Guard)
      requires call.PrunePayment? || call.PrunePayments?
      modifies this
      ensures Implements(Apply(host, old(Snapshot()), call, env), r, Snapshot())
    {
      match call
      case PrunePayment(signers, m, reference) => r := PrunePayment(env, signers, m, reference);
      case PrunePayments(signers, m, references) =>
        var n := PrunePayments(env, signers, m, references);
        r := if n.Ok? then Pass else Fail(n.error);
    }

    method CallReads(call: Call, env: Env) returns (r: Guard)
      requires call.CalculateFeeSplit? || call.GetEffectiveRule?
      modifies this
      ensures Implements(Apply(host, old(Snapshot()), call, env), r, Snapshot())
    {
      match call
      case CalculateFeeSplit(m, amount) =>
        var split := CalculateFeeSplit(env, m, amount);
        r := if split.Ok? then Pass else Fail(split.error);
      case GetEffectiveRule(m) =>
        var effective := ReadEffectiveRule(env, m);
        r := if effective.Ok? then Pass else Fail(effective.error);
    }

    method CallRegistry(call: Call, env: Env) returns (r: Guard)
      requires call.UpdateGovernance? || call.RegisterMerchant? || call.UnregisterMerchant?
      modifies this
      ensures Implements(Apply(host, old(Snapshot()), call, env), r, Snapshot())
    {
      match call
      case UpdateGovernance(signers, g) => r := UpdateGovernance(env, signers, g);
      case RegisterMerchant(signers, m) => r := RegisterMerchant(env, signers, m);
      case UnregisterMerchant(signers, m) => r := UnregisterMerchant(env, signers, m);
    }

    method CallRules(call: Call, env: Env) returns (r: Guard)
      requires call.SetSettlementRule? || call.ClearSettlementRule? || call.SetDefaultRule?
      modifies this
      ensures Implements(Apply(host, old(Snapshot()), call, env), r, Snapshot())
    {
      match call
      case SetSettlementRule(signers, m, rule) => r := SetSettlementRule(env, signers, m, rule);
      case ClearSettlementRule(signers, m) => r := ClearSettlementRule(env, signers, m);
      case SetDefaultRule(signers, rule) => r := SetDefaultRule(env, signers, rule);
    }

    method CallAuthority(call: Call, env: Env) returns (r: Guard)
      requires call.InitiateRecovery? || call.CancelRecovery? || call.UpdateRecoveryAddress? || call.ExecuteRecovery?
               || call.TransferAdmin? || call.ChangeThreshold? || call.Upgrade? || call.Pause? || call.Unpause?
      modifies this
      ensures Implements(Apply(host, old(Snapshot()), call, env), r, Snapshot())
    {
      match call
      case InitiateRecovery(a) => r := InitiateRecovery(env, a);
      case CancelRecovery(signers) => r := CancelRecovery(env, signers);
      case UpdateRecoveryAddress(signers, a) => r := UpdateRecoveryAddress(env, signers, a);
      case ExecuteRecovery => r := ExecuteRecovery(env);
      case TransferAdmin(signers, newAdmins, t) => r := TransferAdmin(env, signers, newAdmins, t);
      case ChangeThreshold(signers, t) => r := ChangeThreshold(env, signers, t);
      case Upgrade(signers, wasm) => r := Upgrade(env, signers, wasm);
      case Pause(signers, reason) => r := Pause(env, signers, reason);
      case Unpause(signers) => r := Unpause(env, signers);
    }
  }

  /** One more operation of a batch adds at most its own slot, and only if it is still there. */
  lemma HitsStep(h: Host, queue: map<Hash, ScheduledOp>, ops: seq<Operation>, i: nat)
    requires i < |ops|
    ensures var before, after := Hits(h, queue, ops[..i]), Hits(h, queue, ops[..i + 1]);
            if SlotMatches(h, queue - before, ops[i])
            then && |after| == |before| + 1 && h.Key(ops[i]) in queue - before
                 && queue - after == queue - before - {h.Key(ops[i])}
            else after == before
  {
    assert ops[..i + 1] == ops[..i] + [ops[i]];
    if SlotMatches(h, queue - Hits(h, queue, ops[..i]), ops[i]) {
      assert Hits(h, queue, ops[..i + 1]) == Hits(h, queue, ops[..i]) + {h.Key(ops[i])};
    }
  }

  lemma StoredStep(payments: map<PayKey, PaymentRecord>, merchant: Address, references: seq<Reference>, i: nat)
    requires i < |references|
    ensures var before := Stored(payments, merchant, references[..i]);
            var after := Stored(payments, merchant, references[..i + 1]);
            if (merchant, references[i]) in payments - before
            then && |after| == |before| + 1
                 && payments - after == payments - before - {(merchant, references[i])}
            else after == before
  {
    assert references[..i + 1] == references[..i] + [references[i]];
    var before := Stored(payments, merchant, references[..i]);
    if (merchant, references[i]) in payments - before {
      assert Stored(payments, merchant, references[..i + 1]) == before + {(merchant, references[i])};
    }
  }
}
