/** What each accepted entry point of the settlement contract leaves behind: which fields change, to
    what, and which events are announced. Everything not named stays as it was. */
module Effects {
  import opened Types
  import opened Fees
  import opened Entry
  import opened Frames
  import opened Verdicts

  // ---- What a payment costs ---------------------------------------------------------------------------------

  /** The split due on an amount at a rule: the whole-number legs, or nothing below a zero amount. */
  function Due(amount: i128, rule: Rule): FeeSplit {
    if amount < 0 then FeeSplit(amount, 0, 0, 0)
    else FeeSplit(amount, PlatformLeg(amount, rule.platformBps), NetworkLeg(amount, rule.platformBps, rule.networkBps),
                  Payout(amount, rule.platformBps, rule.networkBps))
  }

  /** The record of a payment, field by field. */
  function PaidRecord(m: Address, amount: i128, rule: Rule, env: Env): PaymentRecord {
    var due := Due(amount, rule);
    PaymentRecord(
      merchant := m, amount := amount,
      platformFee := due.platform, networkFee := due.network, payout := due.merchant,
      platformBps := rule.platformBps, networkBps := rule.networkBps,
      ledger := env.sequence, delayLedger := rule.delayLedger, autoSettle := rule.autoSettle, version := 1)
  }

  lemma SplitIsDue(amount: i128, rule: Rule)
    ensures SplitAt(amount, rule).Ok? ==> SplitAt(amount, rule).value == Due(amount, rule)
  {
    SplitRefinesInteger(amount, rule.platformBps, rule.networkBps);
  }

  // ---- The state an accepted call leaves ----------------------------------------------------------------------

  ghost predicate AuthorityLeaves(s: State, call: Call, env: Env, s': State)
    requires IsAuthorityCall(call)
  {
    match call
    case InitiateRecovery(a) =>
      && env.now + 604_800 <= U64_MAX
      && s' == s.(pending := Some(PendingRecovery(newAdmin := a, executeAfter := env.now + 604_800,
                                                  initiatedBy := s.recovery)),
                  log := s.log + [RecoveryInitiated(s.recovery, a, env.now + 604_800)])
    case CancelRecovery(signers) =>
      && signers != []
      && s' == s.(pending := None, log := s.log + [RecoveryCancelled(signers[0])])
    case UpdateRecoveryAddress(signers, a) =>
      && signers != []
      && s' == s.(recovery := a, log := s.log + [RecoveryAddressUpdated(signers[0], a)])
    case ExecuteRecovery =>
      && s.pending.Some?
      && s' == s.(admins := [s.pending.value.newAdmin], threshold := 1, pending := None,
                  log := s.log + [RecoveryExecuted(oldAdmins := s.admins, newAdmins := [s.pending.value.newAdmin])])
    case TransferAdmin(_, newAdmins, t) =>
      s' == s.(admins := newAdmins, threshold := t,
               log := s.log + [AdminTransferred(oldAdmins := s.admins, newAdmins := newAdmins)])
    case ChangeThreshold(signers, t) =>
      && signers != []
      && s' == s.(threshold := t,
                  log := s.log + [ThresholdChanged(signers[0], oldThreshold := s.threshold, newThreshold := t)])
    case Upgrade(signers, wasm) =>
      && signers != []
      && s' == s.(log := s.log + [ContractUpgraded(signers[0], wasm)])
    case Pause(signers, reason) =>
      && signers != []
      && s' == s.(paused := true, log := s.log + [PausedEvent(signers[0], reason)])
    case Unpause(signers) =>
      && signers != []
      && s' == s.(paused := false, log := s.log + [UnpausedEvent(signers[0])])
  }

  /** The hashes of the listed operations that are really queued. */
  function Named(h: Host, s: State, ops: seq<Operation>): set<Hash> {
    set op | op in ops && Queued(h, s, op) :: h.sha256(h.xdr(op))
  }

  ghost predicate QueueLeaves(h: Host, s: State, call: Call, env: Env, s': State)
    requires IsQueueCall(call)
  {
    match call
    case Schedule(signers, op, delay) =>
      var key := h.sha256(h.xdr(op));
      && signers != [] && env.now + delay <= U64_MAX
      && s' == s.(queue := s.queue[key := ScheduledOp(xdr := h.xdr(op), executeAt := env.now + delay)],
                  queueCount := SaturatingInc(s.queueCount),
                  log := s.log + [OpScheduled(key, signers[0], env.now + delay)])
    case DryRun(_) => s' == s
    case Cancel(signers, op) =>
      var key := h.sha256(h.xdr(op));
      && signers != []
      && s' == s.(queue := s.queue - {key}, queueCount := SaturatingSub(s.queueCount, 1),
                  log := s.log + [OpCancelled(key, signers[0])])
    case CancelAll(signers, ops) =>
      var named := Named(h, s, ops);
      && signers != []
      && s' == s.(queue := s.queue - named, queueCount := SaturatingSub(s.queueCount, |named|),
                  log := s.log + [OpsCancelled(signers[0], |named|)])
  }

  /** The rule that applies to m once its own is gone. */
  ghost function WithoutOwn(s: State, env: Env, m: Address): Rule {
    RuleInForce(s.(rules := s.rules - {m}), env, m)
  }

  ghost function CacheWithoutOwn(s: State, env: Env, m: Address): Option<Rule> {
    CacheLeft(s.(rules := s.rules - {m}), env, m)
  }

  /** A merchant's own rule, if any, is dropped and its successor announced. */
  ghost function Dropped(s: State, env: Env, who: Address, m: Address): seq<Event> {
    if m in s.rules then [RuleCleared(merchant := m, who := who, removed := s.rules[m],
                                      fallback := WithoutOwn(s, env, m))]
    else []
  }

  ghost function PreviousDefault(s: State): Rule {
    if s.defaultRule.Some? then s.defaultRule.value else BOOTSTRAP_RULE
  }

  ghost predicate Retires(s: State, env: Env, who: Address, m: Address, s': State) {
    s' == s.(merchants := s.merchants - {m}, archived := s.archived + {m}, rules := s.rules - {m},
             cachedRule := if m in s.rules then CacheWithoutOwn(s, env, m) else s.cachedRule,
             log := s.log + Dropped(s, env, who, m) + [MerchantUnregistered(merchant := m, who := who)])
  }

  ghost predicate SetsRule(s: State, env: Env, who: Address, m: Address, rule: Rule, s': State) {
    s' == s.(rules := s.rules[m := rule], cachedRule := CacheLeft(s, env, m),
             log := s.log + [RuleUpdated(merchant := m, who := who, previous := RuleInForce(s, env, m), rule := rule)])
  }

  ghost predicate ClearsRule(s: State, env: Env, who: Address, m: Address, s': State) {
    && m in s.rules
    && s' == s.(rules := s.rules - {m}, cachedRule := CacheWithoutOwn(s, env, m),
                log := s.log + Dropped(s, env, who, m))
  }

  ghost predicate SetsDefault(s: State, who: Address, rule: Rule, s': State) {
    s' == s.(defaultRule := Some(rule),
             log := s.log + [DefaultRuleUpdated(who := who, previous := PreviousDefault(s), rule := rule)])
  }

  ghost predicate RegistryLeaves(s: State, call: Call, env: Env, s': State)
    requires IsRegistryCall(call)
  {
    call.signers != [] &&
    var who := call.signers[0];
    match call
    case UpdateGovernance(_, g) => s' == s.(governance := g, log := s.log + [GovernanceUpdated(who, g)])
    case RegisterMerchant(_, m) =>
      s' == s.(merchants := s.merchants + {m}, archived := s.archived - {m},
               log := s.log + [MerchantConsent(m), MerchantRegistered(merchant := m, who := who)])
    case UnregisterMerchant(_, m) => Retires(s, env, who, m, s')
    case SetSettlementRule(_, m, rule) => SetsRule(s, env, who, m, rule, s')
    case ClearSettlementRule(_, m) => ClearsRule(s, env, who, m, s')
    case SetDefaultRule(_, rule) => SetsDefault(s, who, rule, s')
  }

  function Requested(s: State, m: Address, references: seq<Reference>): set<PayKey> {
    set r | r in references && (m, r) in s.payments :: (m, r)
  }

  ghost predicate PaymentLeaves(s: State, call: Call, env: Env, s': State)
    requires IsLedgerCall(call) || IsReadCall(call)
  {
    match call
    case StorePayment(m, r, amount) =>
      var rule := RuleInForce(s, env, m);
      var record := PaidRecord(m, amount, rule, env);
      && CountOf(s.counts, m) < U32_MAX
      && s' == s.(payments := s.payments[(m, r) := record],
                  counts := s.counts[m := CountOf(s.counts, m) + 1],
                  cachedRule := CacheLeft(s, env, m),
                  log := s.log + (if rule == BOOTSTRAP_RULE then [BootstrapFallback(BOOTSTRAP_RULE)] else [])
                         + [PaymentStored(m, r, record)])
    case CalculateFeeSplit(m, _) => s' == s.(cachedRule := CacheLeft(s, env, m))
    case GetEffectiveRule(m) => s' == s.(cachedRule := CacheLeft(s, env, m))
    case PrunePayment(_, m, r) =>
      if (m, r) !in s.payments then s' == s
      else s' == s.(payments := s.payments - {(m, r)},
                    counts := s.counts[m := SaturatingSub(CountOf(s.counts, m), 1)],
                    log := s.log + [PaymentPruned(m, r)])
    case PrunePayments(signers, m, references) =>
      var gone := Requested(s, m, references);
      && signers != []
      && s' == s.(payments := s.payments - gone,
                  counts := if gone == {} then s.counts
                            else s.counts[m := SaturatingSub(CountOf(s.counts, m), |gone|)],
                  log := s.log + [PaymentsPruned(merchant := m, who := signers[0], count := |gone|)])
  }

  ghost predicate ArmLeaves(s: State, env: Env, who: Address, op: Operation, s': State) {
    match op
    case UpdateGovernance(g) => s' == s.(governance := g, log := s.log + [GovernanceUpdated(who, g)])
    case CancelRecovery => s' == s.(pending := None, log := s.log + [RecoveryCancelled(who)])
    case TransferAdmin(newAdmins, t) =>
      s' == s.(admins := newAdmins, threshold := t,
               log := s.log + [AdminTransferred(oldAdmins := s.admins, newAdmins := newAdmins)])
    case Upgrade(wasm) => s' == s.(log := s.log + [ContractUpgraded(who, wasm)])
    case RegisterMerchant(m) =>
      s' == s.(merchants := s.merchants + {m}, archived := s.archived - {m},
               log := s.log + [MerchantRegistered(merchant := m, who := who)])
    case UnregisterMerchant(m) => Retires(s, env, who, m, s')
    case SetSettlementRule(m, rule) => SetsRule(s, env, who, m, rule, s')
    case ClearSettlementRule(m) => ClearsRule(s, env, who, m, s')
    case SetDefaultRule(rule) => SetsDefault(s, who, rule, s')
  }

  ghost predicate ExecuteLeaves(h: Host, s: State, env: Env, who: Address, op: Operation, s': State) {
    var key := h.sha256(h.xdr(op));
    exists mid ::
      && ArmLeaves(s.(queue := s.queue - {key}, queueCount := SaturatingSub(s.queueCount, 1)), env, who, op, mid)
      && s' == mid.(log := mid.log + [OpExecuted(key)])
  }

  /** The state an accepted call leaves, whole. */
  ghost predicate Leaves(h: Host, s: State, call: Call, env: Env, s': State) {
    if IsAuthorityCall(call) then AuthorityLeaves(s, call, env, s')
    else if IsQueueCall(call) then QueueLeaves(h, s, call, env, s')
    else if IsRegistryCall(call) then RegistryLeaves(s, call, env, s')
    else if call.Execute? then ExecuteLeaves(h, s, env, call.executor, call.operation, s')
    else PaymentLeaves(s, call, env, s')
  }

  lemma AuthorityEffect(h: Host, s: State, call: Call, env: Env)
    requires IsAuthorityCall(call) && Apply(h, s, call, env).Ok?
    ensures AuthorityLeaves(s, call, env, Apply(h, s, call, env).value)
  {}

  lemma QueueCallEffect(h: Host, s: State, call: Call, env: Env)
    requires IsQueueCall(call) && Apply(h, s, call, env).Ok?
    ensures QueueLeaves(h, s, call, env, Apply(h, s, call, env).value)
  {
    if call.CancelAll? {
      assert Hits(h, s.queue, call.operations) == Named(h, s, call.operations);
    }
  }

  lemma DropRuleEffect(s: State, env: Env, who: Address, m: Address)
    requires m in s.rules && DropRule(s, env, who, m).Ok?
    ensures ClearsRule(s, env, who, m, DropRule(s, env, who, m).value)
    ensures Resolve(s.(rules := s.rules - {m}), env, m).Ok?
    ensures Resolve(s.(rules := s.rules - {m}), env, m).value.1.rule == WithoutOwn(s, env, m)
  {
    ResolutionMeaning(s.(rules := s.rules - {m}), env, m);
    FallbackLeaves(s.(rules := s.rules - {m}), env, m);
  }

  lemma UnregisterEffect(s: State, env: Env, who: Address, m: Address)
    requires Unregister(s, env, who, m).Ok?
    ensures Retires(s, env, who, m, Unregister(s, env, who, m).value)
  {
    var s1 := s.(merchants := s.merchants - {m}, archived := s.archived + {m});
    if m in s.rules {
      DropRuleEffect(s1, env, who, m);
      SameWithoutOwn(s, s1, env, m);
    } else {
      assert s.rules - {m} == s.rules;
    }
  }

  lemma SameWithoutOwn(s: State, s1: State, env: Env, m: Address)
    requires s1 == s.(merchants := s1.merchants, archived := s1.archived)
    ensures WithoutOwn(s1, env, m) == WithoutOwn(s, env, m) && CacheWithoutOwn(s1, env, m) == CacheWithoutOwn(s, env, m)
  {}

  lemma WriteRuleEffect(s: State, env: Env, who: Address, m: Address, rule: Rule)
    requires WriteRule(s, env, who, m, rule).Ok?
    ensures SetsRule(s, env, who, m, rule, WriteRule(s, env, who, m, rule).value)
  {
    ResolutionLeaves(s, env, m);
  }

  lemma RegistryEffect(h: Host, s: State, call: Call, env: Env)
    requires IsRegistryCall(call) && Apply(h, s, call, env).Ok?
    ensures RegistryLeaves(s, call, env, Apply(h, s, call, env).value)
  {
    if call.UnregisterMerchant? {
      UnregisterEffect(s, env, call.signers[0], call.merchant);
    } else if call.SetSettlementRule? {
      WriteRuleEffect(s, env, call.signers[0], call.merchant, call.rule);
    } else if call.ClearSettlementRule? {
      DropRuleEffect(s, env, call.signers[0], call.merchant);
    }
  }

  lemma ArmEffect(s: State, env: Env, who: Address, op: Operation)
    requires Arm(s, env, who, op).Ok?
    ensures ArmLeaves(s, env, who, op, Arm(s, env, who, op).value)
  {
    if op.UnregisterMerchant? {
      UnregisterEffect(s, env, who, op.merchant);
    } else if op.SetSettlementRule? {
      WriteRuleEffect(s, env, who, op.merchant, op.rule);
    } else if op.ClearSettlementRule? {
      DropRuleOutcome(s, env, who, op.merchant);
      DropRuleEffect(s, env, who, op.merchant);
    }
  }

  lemma ExecuteEffect(h: Host, s: State, call: Call, env: Env)
    requires call.Execute? && Apply(h, s, call, env).Ok?
    ensures ExecuteLeaves(h, s, env, call.executor, call.operation, Apply(h, s, call, env).value)
  {
    var s0 := Consume(s, {h.Key(call.operation)});
    ArmEffect(s0, env, call.executor, call.operation);
    var mid := Arm(s0, env, call.executor, call.operation).value;
    assert Apply(h, s, call, env).value == mid.(log := mid.log + [OpExecuted(h.Key(call.operation))]);
  }

  lemma CommitLeaves(s2: State, m: Address, r: Reference, amount: i128, rule: Rule, env: Env,
                     computed: Result<FeeSplit>)
    requires CommitPayment(s2, env.sequence, (m, r), rule, computed).Ok?
    requires computed.Ok? ==> computed.value == Due(amount, rule)
    ensures var record := PaidRecord(m, amount, rule, env);
            CommitPayment(s2, env.sequence, (m, r), rule, computed).value ==
              s2.(payments := s2.payments[(m, r) := record], counts := s2.counts[m := CountOf(s2.counts, m) + 1],
                  log := s2.log + (if rule == BOOTSTRAP_RULE then [BootstrapFallback(BOOTSTRAP_RULE)] else [])
                         + [PaymentStored(m, r, record)])
  {}

  lemma StoreChecks(h: Host, s: State, call: Call, env: Env)
    requires call.StorePayment? && Apply(h, s, call, env).Ok?
    ensures call.reference != ZeroReference && !s.paused && call.merchant in env.auth && call.merchant in s.merchants
    ensures call.amount >= Minimum(s, env) && (call.merchant, call.reference) !in s.payments
    ensures call.merchant in s.rules || Resolvable(s, env)
  {
    StoreAsVerdict(h, s, call, env);
  }

  lemma ReservedThenPaid(s: State, s2: State, key: PayKey, record: PaymentRecord)
    requires s2.payments == s.payments[key := Placeholder(key.0)]
    ensures s2.payments[key := record] == s.payments[key := record]
  {}

  lemma StoreCallEffect(h: Host, s: State, call: Call, env: Env)
    requires call.StorePayment? && Apply(h, s, call, env).Ok?
    ensures PaymentLeaves(s, call, env, Apply(h, s, call, env).value)
  {
    StoreChecks(h, s, call, env);
    var s2 := StoreStages(s, env, call.merchant, call.reference, call.amount);
    var rule := RuleInForce(s, env, call.merchant);
    SplitIsDue(call.amount, rule);
    StoreLeaves(s, s2, call, env, rule, SplitAt(call.amount, rule), Apply(h, s, call, env).value);
  }

  lemma StoreLeaves(s: State, s2: State, call: Call, env: Env, rule: Rule, computed: Result<FeeSplit>, s': State)
    requires call.StorePayment? && rule == RuleInForce(s, env, call.merchant)
    requires var key := (call.merchant, call.reference);
             && s2 == s.(payments := s.payments[key := Placeholder(key.0)], cachedRule := CacheLeft(s, env, key.0))
             && CommitPayment(s2, env.sequence, key, rule, computed) == Ok(s')
    requires computed.Ok? ==> computed.value == Due(call.amount, rule)
    ensures PaymentLeaves(s, call, env, s')
  {
    CommitLeaves(s2, call.merchant, call.reference, call.amount, rule, env, computed);
    ReservedThenPaid(s, s2, (call.merchant, call.reference), PaidRecord(call.merchant, call.amount, rule, env));
  }

  lemma PruneCallEffect(h: Host, s: State, call: Call, env: Env)
    requires (call.PrunePayment? || call.PrunePayments?) && Apply(h, s, call, env).Ok?
    ensures PaymentLeaves(s, call, env, Apply(h, s, call, env).value)
  {
    if call.PrunePayments? {
      assert Stored(s.payments, call.merchant, call.references) == Requested(s, call.merchant, call.references);
    }
  }

  lemma PaymentCallEffect(h: Host, s: State, call: Call, env: Env)
    requires (IsLedgerCall(call) || IsReadCall(call)) && Apply(h, s, call, env).Ok?
    ensures PaymentLeaves(s, call, env, Apply(h, s, call, env).value)
  {
    if call.StorePayment? {
      StoreCallEffect(h, s, call, env);
    } else if IsLedgerCall(call) {
      PruneCallEffect(h, s, call, env);
    } else if Resolve(s, env, call.merchant).Ok? {
      ResolutionLeaves(s, env, call.merchant);
    }
  }

  /** Every accepted entry point stores exactly what it was given, announces exactly that, and changes
      nothing else. */
  lemma LeavesExactly(h: Host, s: State, call: Call, env: Env)
    requires Apply(h, s, call, env).Ok?
    ensures Leaves(h, s, call, env, Apply(h, s, call, env).value)
  {
    if IsAuthorityCall(call) {
      AuthorityEffect(h, s, call, env);
    } else if IsQueueCall(call) {
      QueueCallEffect(h, s, call, env);
    } else if IsRegistryCall(call) {
      RegistryEffect(h, s, call, env);
    } else if call.Execute? {
      ExecuteEffect(h, s, call, env);
    } else {
      PaymentCallEffect(h, s, call, env);
    }
  }
}
