/** Exactly when each entry point of the settlement contract is accepted, and with which error it is
    refused otherwise: its conditions on the stored fields and the host's answers, in order. */
module Verdicts {
  import opened Types
  import opened Multisig
  import opened Fees
  import opened Entry
  import opened Frames
  import opened Rules

  // ---- What governance answers -----------------------------------------------------------------------------

  /** The value governance returns for a fee configuration. */
  function Config(p: u32, n: u32): Val { MapVal(map[PLATFORM_KEY := U32Val(p), NETWORK_KEY := U32Val(n)]) }

  /** Resolution below the merchant tier yields a rule: only a malformed map from a consulted governance
      does not. */
  ghost predicate ResolvableUnder(s: State, view: GovView) {
    || s.defaultRule.Some? || view.bypass == ParamValue(1) || view.fee.FeeCallFailed? || !view.fee.val.MapVal?
    || exists p, n :: view.fee.val == Config(p, n)
  }

  ghost predicate Resolvable(s: State, env: Env) { ResolvableUnder(s, env.gov(s.governance)) }

  /** The rule in force for a merchant under governance's answers: its own, the default, governance's, the
      last good one of governance while its call fails, or bootstrap. */
  ghost function RuleUnder(s: State, view: GovView, m: Address): Rule {
    if m in s.rules then s.rules[m]
    else if s.defaultRule.Some? then s.defaultRule.value
    else if view.bypass == ParamValue(1) then BOOTSTRAP_RULE
    else if view.fee.FeeCallFailed? then (if s.cachedRule.Some? then s.cachedRule.value else BOOTSTRAP_RULE)
    else if exists p, n :: view.fee.val == Config(p, n) then
      var p, n :| view.fee.val == Config(p, n);
      Rule(p, n, 0, false)
    else BOOTSTRAP_RULE
  }

  ghost function RuleInForce(s: State, env: Env, m: Address): Rule { RuleUnder(s, env.gov(s.governance), m) }

  lemma ConfigIsUnique(p: u32, n: u32, p': u32, n': u32)
    requires Config(p, n) == Config(p', n')
    ensures p == p' && n == n'
  {
    assert |PLATFORM_KEY| == 16 && |NETWORK_KEY| == 15;
    assert Config(p, n).entries[PLATFORM_KEY] == U32Val(p) && Config(p', n').entries[PLATFORM_KEY] == U32Val(p');
    assert Config(p, n).entries[NETWORK_KEY] == U32Val(n) && Config(p', n').entries[NETWORK_KEY] == U32Val(n');
  }

  lemma ClassifyMeaning(raw: Val)
    ensures match Classify(raw)
            case Ok(Some((p, n))) => raw == Config(p, n)
            case Ok(None) => !raw.MapVal?
            case Err(e) => e == GovernanceCallFailed && raw.MapVal? && forall p, n :: raw != Config(p, n)
  {
    match Classify(raw)
    case Ok(Some((p, n))) => ClassifyAcceptsExactly(raw, p, n);
    case Ok(None) => ClassifyAcceptsExactly(raw, 0, 0);
    case Err(_) =>
      forall p, n ensures raw != Config(p, n) {
        ClassifyAcceptsExactly(raw, p, n);
      }
      ClassifyAcceptsExactly(raw, 0, 0);
  }

  /** Resolution, in those terms: it fails only on a malformed map, and yields the rule in force. */
  lemma ResolutionMeaning(s: State, env: Env, m: Address)
    ensures Fallback(s, env).Ok? <==> Resolvable(s, env)
    ensures Resolve(s, env, m).Ok? <==> m in s.rules || Resolvable(s, env)
    ensures Fallback(s, env).Err? ==> Fallback(s, env) == Err(GovernanceCallFailed)
    ensures Resolve(s, env, m).Err? ==> Resolve(s, env, m) == Err(GovernanceCallFailed)
    ensures Resolve(s, env, m).Ok? ==> Resolve(s, env, m).value.1.rule == RuleInForce(s, env, m)
    ensures m !in s.rules && Fallback(s, env).Ok? ==> Fallback(s, env).value.1.rule == RuleInForce(s, env, m)
  {
    var view := env.gov(s.governance);
    if view.fee.FeeReturned? {
      ClassifyMeaning(view.fee.val);
      if exists p, n :: view.fee.val == Config(p, n) {
        forall p, n, p', n' | view.fee.val == Config(p, n) && view.fee.val == Config(p', n')
          ensures p == p' && n == n'
        {
          ConfigIsUnique(p, n, p', n');
        }
      }
    }
  }

  /** Governance is asked for its fee config and names one. */
  ghost predicate NamesConfig(s: State, view: GovView, m: Address) {
    && m !in s.rules && s.defaultRule.None? && view.bypass != ParamValue(1)
    && view.fee.FeeReturned? && exists p, n :: view.fee.val == Config(p, n)
  }

  /** The last good config once the rule of m has been looked up. */
  ghost function CacheLeft(s: State, env: Env, m: Address): Option<Rule> {
    if NamesConfig(s, env.gov(s.governance), m) then Some(RuleInForce(s, env, m)) else s.cachedRule
  }

  /** Where the rule in force comes from; the last good config counts as governance's. */
  ghost function OriginOf(s: State, env: Env, m: Address): Provenance {
    var view := env.gov(s.governance);
    if m in s.rules then FromMerchant
    else if s.defaultRule.Some? then FromDefault
    else if view.bypass != ParamValue(1) && view.fee.FeeCallFailed? && s.cachedRule.Some? then FromGovernance
    else if NamesConfig(s, view, m) then FromGovernance
    else FromBootstrap
  }

  lemma FallbackLeaves(s: State, env: Env, m: Address)
    requires m !in s.rules && Fallback(s, env).Ok?
    ensures Fallback(s, env).value.0 == s.(cachedRule := CacheLeft(s, env, m))
    ensures Fallback(s, env).value.1.provenance == OriginOf(s, env, m)
  {
    var view := env.gov(s.governance);
    ResolutionMeaning(s, env, m);
    if view.fee.FeeReturned? {
      ClassifyMeaning(view.fee.val);
    }
  }

  /** Resolution yields the rule in force with its origin, and changes nothing but the last good config. */
  lemma ResolutionLeaves(s: State, env: Env, m: Address)
    requires Resolve(s, env, m).Ok?
    ensures Resolve(s, env, m).value == (s.(cachedRule := CacheLeft(s, env, m)),
                                         Effective(RuleInForce(s, env, m), OriginOf(s, env, m)))
  {
    ResolutionMeaning(s, env, m);
    if m !in s.rules {
      FallbackLeaves(s, env, m);
    }
  }

  /** The governance ceiling on a rule: none without a config, otherwise each rate under its own. */
  ghost function Ceiling(answer: FeeAnswer, rule: Rule): Guard {
    if answer.FeeCallFailed? then Fail(GovernanceCallFailed)
    else if !answer.val.MapVal? then Pass
    else if forall p, n :: answer.val != Config(p, n) then Fail(GovernanceCallFailed)
    else Need(forall p, n | answer.val == Config(p, n) :: rule.platformBps <= p && rule.networkBps <= n,
              FeeExceedsGovernanceConfig)
  }

  lemma CeilingMeaning(s: State, env: Env, rule: Rule)
    ensures FeeCeiling(s, env, rule) == Ceiling(env.gov(s.governance).ceiling, rule)
  {
    var answer := env.gov(s.governance).ceiling;
    if answer.FeeReturned? {
      ClassifyMeaning(answer.val);
      forall p, n, p', n' | answer.val == Config(p, n) && answer.val == Config(p', n') ensures p == p' && n == n' {
        ConfigIsUnique(p, n, p', n');
      }
    }
  }

  /** Under a configured governance, the ceiling is the comparison rate by rate. */
  lemma ConfiguredCeiling(rule: Rule, p: u32, n: u32)
    ensures Ceiling(FeeReturned(Config(p, n)), rule) ==
              Need(rule.platformBps <= p && rule.networkBps <= n, FeeExceedsGovernanceConfig)
  {
    forall p', n' | Config(p, n) == Config(p', n') ensures p == p' && n == n' {
      ConfigIsUnique(p, n, p', n');
    }
  }

  /** The smallest payment governance lets through, or 100 when it names none. */
  function Least(answer: ParamAnswer): i128 { if answer.ParamValue? then answer.value else 100 }

  function Minimum(s: State, env: Env): i128 { Least(env.gov(s.governance).minPayment) }

  // ---- Shared conditions ----------------------------------------------------------------------------------

  function InBounds(r: Rule): Guard {
    Need(5 <= r.platformBps <= 5_000 && 5 <= r.networkBps <= 5_000 && r.platformBps + r.networkBps <= 10_000,
         InvalidFeeBps)
    .Then(Need(r.delayLedger <= 100_000, InvalidSettlementDelay))
  }

  /** Enough admins signed; then some first signer exists. */
  function Signed(s: State, env: Env, signers: seq<Address>): Guard {
    CheckAuth(s.admins, signers, env.auth, s.threshold).Then(Need(signers != [], NoFirstSigner))
  }

  predicate Queued(h: Host, s: State, op: Operation) {
    h.sha256(h.xdr(op)) in s.queue && s.queue[h.sha256(h.xdr(op))].xdr == h.xdr(op)
  }

  /** The operation is queued, due and not vetoed. */
  function Ready(h: Host, s: State, env: Env, op: Operation): Guard {
    Need(!s.paused, Paused)
    .Then(Need(Queued(h, s, op), OperationNotScheduled))
    .Then(Need(Queued(h, s, op) ==> s.queue[h.sha256(h.xdr(op))].executeAt <= env.now, ExecutionNotReady))
    .Then(Need(s.pending == None || op == Operation.CancelRecovery, RecoveryDelayActive))
  }

  predicate NoMerchant(s: State, admins: seq<Address>) { forall a | a in admins :: a !in s.merchants }

  // ---- The verdict of every entry point -------------------------------------------------------------------

  function AuthorityVerdict(s: State, call: Call, env: Env): Guard
    requires IsAuthorityCall(call)
  {
    match call
    case InitiateRecovery(a) =>
      Need(s.recovery in env.auth, AuthMissing)
      .Then(Need(a != Zero, InvalidAdmin))
      .Then(Need(s.pending == None, RecoveryAlreadyPending))
      .Then(Need(env.now + 604_800 <= U64_MAX, IntegerTrap))
    case CancelRecovery(signers) =>
      Need(s.pending.Some?, RecoveryNotPending)
      .Then(if s.pending.Some? && signers == [s.pending.value.initiatedBy]
            then Need(s.pending.value.initiatedBy in env.auth, AuthMissing)
            else Signed(s, env, signers))
    case UpdateRecoveryAddress(signers, a) =>
      Signed(s, env, signers)
      .Then(Need(a != Zero, InvalidRecoveryAddress))
    case ExecuteRecovery =>
      Need(s.pending.Some?, RecoveryNotPending)
      .Then(Need(s.pending.Some? ==> s.pending.value.executeAfter <= env.now, RecoveryDelayActive))
      .Then(Need(s.pending.Some? ==> s.pending.value.newAdmin != Zero, ZeroAddress))
    case TransferAdmin(signers, newAdmins, t) =>
      CheckAuth(s.admins, signers, env.auth, s.threshold)
      .Then(CheckAdmins(newAdmins, t, ZeroAddress))
      .Then(Need(newAdmins != s.admins || t != s.threshold, SameAdmin))
      .Then(Need(NoMerchant(s, newAdmins), InvalidAdmin))
    case ChangeThreshold(signers, t) =>
      Need(1 <= t <= |s.admins|, InvalidThreshold)
      .Then(Need(t != s.threshold, SameAdmin))
      .Then(Need(s.threshold < U32_MAX, IntegerTrap))
      .Then(CheckAuth(s.admins, signers, env.auth, s.threshold + 1))
      .Then(Need(signers != [], NoFirstSigner))
    case Upgrade(signers, wasm) =>
      Signed(s, env, signers)
      .Then(Need(env.wasmOk(wasm), InvalidWasmInterface))
    case Pause(signers, reason) =>
      CheckAuth(s.admins, signers, env.auth, s.threshold)
      .Then(Need(!s.paused, AlreadyPaused))
      .Then(Need(reason <= 99, InvalidPauseReason))
      .Then(Need(signers != [], NoFirstSigner))
    case Unpause(signers) =>
      CheckAuth(s.admins, signers, env.auth, s.threshold)
      .Then(Need(s.paused, AlreadyUnpaused))
      .Then(Need(signers != [], NoFirstSigner))
  }

  function QueueVerdict(h: Host, s: State, call: Call, env: Env): Guard
    requires IsQueueCall(call)
  {
    match call
    case Schedule(signers, op, delay) =>
      Need(!s.paused, Paused)
      .Then(Signed(s, env, signers))
      .Then(Need(604_800 <= delay, ExecutionNotReady))
      .Then(Need(delay <= 2_592_000, ExecutionDelayTooLong))
      .Then(Need(op.TransferAdmin? ==> 1 <= op.newThreshold <= |op.newAdmins|, InvalidThreshold))
      .Then(Need(op.SetSettlementRule? ==> op.rule.delayLedger <= 100_000, InvalidSettlementDelay))
      .Then(Need(|h.xdr(op)| <= 4_096, PayloadTooLarge))
      .Then(Need(!env.gov(s.governance).ceiling.FeeCallFailed?, GovernanceCallFailed))
      .Then(Need(!Queued(h, s, op), OperationAlreadyScheduled))
      .Then(Need(h.sha256(h.xdr(op)) !in s.queue, OperationHashCollision))
      .Then(Need(env.now + delay <= U64_MAX, ExecutionDelayTooLong))
    case DryRun(op) => Ready(h, s, env, op)
    case Cancel(signers, op) =>
      CheckAuth(s.admins, signers, env.auth, s.threshold)
      .Then(Need(!s.paused, Paused))
      .Then(Need(signers != [], NoFirstSigner))
      .Then(Need(Queued(h, s, op), OperationNotScheduled))
    case CancelAll(signers, ops) =>
      CheckAuth(s.admins, signers, env.auth, s.threshold)
      .Then(Need(!s.paused, Paused))
      .Then(Need(signers != [], NoFirstSigner))
      .Then(Need(|ops| <= 50, BatchTooLarge))
  }

  ghost function RegistryVerdict(s: State, call: Call, env: Env): Guard
    requires IsRegistryCall(call)
  {
    Need(!s.paused, Paused)
    .Then(CheckAuth(s.admins, call.signers, env.auth, s.threshold))
    .Then(match call
          case UpdateGovernance(signers, g) =>
            Need(g != Zero, InvalidGovernance)
            .Then(Need(signers != [], NoFirstSigner))
          case RegisterMerchant(signers, m) =>
            Need(m != Zero, ZeroAddress)
            .Then(Need(signers != [], NoFirstSigner))
            .Then(Need(m !in s.admins, InvalidAdmin))
            .Then(Need(m in env.auth, AuthMissing))
            .Then(Need(m !in s.merchants, MerchantExists))
          case UnregisterMerchant(signers, m) =>
            Need(signers != [], NoFirstSigner)
            .Then(Need(m in s.merchants, MerchantMissing))
            .Then(Need(m in s.rules ==> Resolvable(s, env), GovernanceCallFailed))
          case SetSettlementRule(signers, m, rule) =>
            Need(signers != [], NoFirstSigner)
            .Then(Need(m != Zero, ZeroAddress))
            .Then(Need(m in s.merchants, MerchantMissing))
            .Then(InBounds(rule))
            .Then(Ceiling(env.gov(s.governance).ceiling, rule))
            .Then(Need(m in s.rules || Resolvable(s, env), GovernanceCallFailed))
          case ClearSettlementRule(signers, m) =>
            Need(signers != [], NoFirstSigner)
            .Then(Need(m in s.rules, MerchantRuleNotSet))
            .Then(Need(Resolvable(s, env), GovernanceCallFailed))
          case SetDefaultRule(signers, rule) =>
            Need(signers != [], NoFirstSigner)
            .Then(InBounds(rule))
            .Then(Ceiling(env.gov(s.governance).ceiling, rule)))
  }

  ghost function PaymentVerdict(s: State, call: Call, env: Env): Guard
    requires IsLedgerCall(call) || IsReadCall(call)
  {
    match call
    case StorePayment(m, r, amount) =>
      var rule := RuleInForce(s, env, m);
      Need(r != ZeroReference, InvalidPaymentReference)
      .Then(Need(!s.paused, Paused))
      .Then(Need(m in env.auth, AuthMissing))
      .Then(Need(m in s.merchants, MerchantMissing))
      .Then(Need(amount >= Minimum(s, env), AmountTooSmall))
      .Then(Need((m, r) !in s.payments, DuplicatePaymentReference))
      .Then(Need(m in s.rules || Resolvable(s, env), GovernanceCallFailed))
      .Then(Need(SumFits(amount, rule.platformBps, rule.networkBps), AmountOverflow))
      .Then(Need(CountOf(s.counts, m) < U32_MAX, IntegerTrap))
    case CalculateFeeSplit(m, amount) =>
      var rule := RuleInForce(s, env, m);
      Need(m in s.merchants, MerchantMissing)
      .Then(Need(amount >= Minimum(s, env), AmountTooSmall))
      .Then(Need(m in s.rules || Resolvable(s, env), GovernanceCallFailed))
      .Then(Need(SumFits(amount, rule.platformBps, rule.networkBps), AmountOverflow))
    case GetEffectiveRule(m) => Need(m in s.rules || Resolvable(s, env), GovernanceCallFailed)
    case PrunePayment(signers, _, _) =>
      Need(!s.paused, Paused)
      .Then(CheckAuth(s.admins, signers, env.auth, s.threshold))
    case PrunePayments(signers, _, references) =>
      CheckAuth(s.admins, signers, env.auth, s.threshold)
      .Then(Need(|references| <= 100, BatchTooLarge))
      .Then(Need(signers != [], NoFirstSigner))
  }

  /** What an operation's arm asks of the state, once the operation is ready. */
  ghost function ArmVerdict(s: State, env: Env, op: Operation): Guard {
    match op
    case UpdateGovernance(g) => Need(!s.paused, Paused).Then(Need(g != Zero, InvalidGovernance))
    case CancelRecovery => Need(s.pending.Some?, RecoveryNotPending)
    case TransferAdmin(newAdmins, t) =>
      CheckAdmins(newAdmins, t, ZeroAddress)
      .Then(Need(NoMerchant(s, newAdmins), InvalidAdmin))
    case Upgrade(wasm) =>
      Need(wasm != 0, InvalidWasmInterface)
      .Then(Need(!s.paused, Paused))
      .Then(Need(env.wasmOk(wasm), InvalidWasmInterface))
    case RegisterMerchant(m) =>
      Need(!s.paused, Paused)
      .Then(Need(m != Zero, ZeroAddress))
      .Then(Need(m !in s.admins, InvalidAdmin))
      .Then(Need(m !in s.merchants, MerchantExists))
    case UnregisterMerchant(m) =>
      Need(!s.paused, Paused)
      .Then(Need(m in s.merchants, MerchantMissing))
      .Then(Need(m in s.rules ==> Resolvable(s, env), GovernanceCallFailed))
    case SetSettlementRule(m, rule) =>
      Need(!s.paused, Paused)
      .Then(Ceiling(env.gov(s.governance).ceiling, rule))
      .Then(Need(m in s.merchants, MerchantMissing))
      .Then(InBounds(rule))
      .Then(Need(m in s.rules || Resolvable(s, env), GovernanceCallFailed))
    case ClearSettlementRule(m) =>
      Need(!s.paused, Paused)
      .Then(Need(m in s.rules, MerchantRuleNotSet))
      .Then(Need(Resolvable(s, env), GovernanceCallFailed))
    case SetDefaultRule(rule) =>
      Need(!s.paused, Paused)
      .Then(Ceiling(env.gov(s.governance).ceiling, rule))
      .Then(InBounds(rule))
  }

  ghost function Verdict(h: Host, s: State, call: Call, env: Env): Guard {
    if IsAuthorityCall(call) then AuthorityVerdict(s, call, env)
    else if IsQueueCall(call) then QueueVerdict(h, s, call, env)
    else if IsRegistryCall(call) then RegistryVerdict(s, call, env)
    else if call.Execute? then Ready(h, s, env, call.operation).Then(ArmVerdict(s, env, call.operation))
    else PaymentVerdict(s, call, env)
  }

  function OutcomeOf<T>(r: Result<T>): Guard { match r case Ok(_) => Pass case Err(e) => Fail(e) }

  /** The conditions of init, in order. */
  lemma InitializeAsVerdict(env: Env, deployer: Address, admins: seq<Address>, threshold: u32, governance: Address,
                            recovery: Address)
    ensures OutcomeOf(Initialize(env, deployer, admins, threshold, governance, recovery)) ==
              Need(deployer in env.auth, AuthMissing)
              .Then(CheckAdmins(admins, threshold, ZeroAddress))
              .Then(Need(governance != Zero, InvalidGovernance))
              .Then(Need(recovery != Zero, InvalidRecoveryAddress))
              .Then(Need(forall a | a in admins :: a in env.auth, AuthMissing))
  {}

  lemma AuthorityAsVerdict(h: Host, s: State, call: Call, env: Env)
    requires IsAuthorityCall(call)
    ensures OutcomeOf(Apply(h, s, call, env)) == AuthorityVerdict(s, call, env)
  {
    if call.ExecuteRecovery? && s.pending.Some? {
      SoleAdmin(s.pending.value.newAdmin);
    }
  }

  lemma SoleAdmin(a: Address)
    ensures CheckAdmins([a], 1, ZeroAddress) == Need(a != Zero, ZeroAddress)
  {
    assert AdminFault([a], ZeroAddress, 1) == Pass;
  }

  lemma QueueAsVerdict(h: Host, s: State, call: Call, env: Env)
    requires IsQueueCall(call)
    ensures OutcomeOf(Apply(h, s, call, env)) == QueueVerdict(h, s, call, env)
  {}

  lemma BoundsMeaning(rule: Rule)
    ensures RuleBounds(rule) == InBounds(rule)
  {}

  /** Removing a rule does not change whether resolution below the merchant tier succeeds. */
  lemma ResolvableIgnores(s: State, env: Env, s': State)
    requires s'.defaultRule == s.defaultRule && s'.governance == s.governance
    ensures Resolvable(s', env) == Resolvable(s, env)
  {}

  lemma UnregisterOutcome(s: State, env: Env, who: Address, m: Address)
    ensures OutcomeOf(Unregister(s, env, who, m)) ==
              Need(m in s.merchants, MerchantMissing)
              .Then(Need(m in s.rules ==> Resolvable(s, env), GovernanceCallFailed))
  {
    var dropped := s.(merchants := s.merchants - {m}, archived := s.archived + {m}, rules := s.rules - {m});
    ResolutionMeaning(dropped, env, m);
    ResolvableIgnores(s, env, dropped);
  }

  lemma WriteRuleOutcome(s: State, env: Env, who: Address, m: Address, rule: Rule)
    ensures OutcomeOf(WriteRule(s, env, who, m, rule)) == Need(m in s.rules || Resolvable(s, env), GovernanceCallFailed)
  {
    ResolutionMeaning(s, env, m);
  }

  lemma DropRuleOutcome(s: State, env: Env, who: Address, m: Address)
    requires m in s.rules
    ensures OutcomeOf(DropRule(s, env, who, m)) == Need(Resolvable(s, env), GovernanceCallFailed)
    ensures Resolve(s.(rules := s.rules - {m}), env, m).Ok? <==> Resolvable(s, env)
    ensures Resolve(s.(rules := s.rules - {m}), env, m).Err? ==>
              Resolve(s.(rules := s.rules - {m}), env, m) == Err(GovernanceCallFailed)
  {
    var dropped := s.(rules := s.rules - {m});
    ResolutionMeaning(dropped, env, m);
    ResolvableIgnores(s, env, dropped);
  }

  lemma SetterAsVerdict(h: Host, s: State, call: Call, env: Env)
    requires call.SetSettlementRule? || call.SetDefaultRule?
    ensures OutcomeOf(Apply(h, s, call, env)) == RegistryVerdict(s, call, env)
  {
    BoundsMeaning(call.rule);
    CeilingMeaning(s, env, call.rule);
    if call.SetSettlementRule? && call.signers != [] {
      WriteRuleOutcome(s, env, call.signers[0], call.merchant, call.rule);
    }
  }

  lemma RemovalAsVerdict(h: Host, s: State, call: Call, env: Env)
    requires call.UnregisterMerchant? || call.ClearSettlementRule?
    ensures OutcomeOf(Apply(h, s, call, env)) == RegistryVerdict(s, call, env)
  {
    if call.signers != [] {
      if call.UnregisterMerchant? {
        UnregisterOutcome(s, env, call.signers[0], call.merchant);
      } else if call.merchant in s.rules {
        DropRuleOutcome(s, env, call.signers[0], call.merchant);
      }
    }
  }

  lemma RegistryAsVerdict(h: Host, s: State, call: Call, env: Env)
    requires IsRegistryCall(call)
    ensures OutcomeOf(Apply(h, s, call, env)) == RegistryVerdict(s, call, env)
  {
    if call.SetSettlementRule? || call.SetDefaultRule? {
      SetterAsVerdict(h, s, call, env);
    } else if call.UnregisterMerchant? || call.ClearSettlementRule? {
      RemovalAsVerdict(h, s, call, env);
    }
  }

  lemma CommitOutcome(s: State, sequence: u32, key: PayKey, rule: Rule, computed: Result<FeeSplit>)
    ensures OutcomeOf(CommitPayment(s, sequence, key, rule, computed)) ==
              OutcomeOf(computed).Then(Need(CountOf(s.counts, key.0) < U32_MAX, IntegerTrap))
  {}

  lemma SplitOutcome(amount: i128, rule: Rule)
    ensures OutcomeOf(SplitAt(amount, rule)) == Need(SumFits(amount, rule.platformBps, rule.networkBps), AmountOverflow)
  {
    SplitRefinesInteger(amount, rule.platformBps, rule.networkBps);
  }

  /** Reserving the key changes nothing that resolution reads. */
  lemma ReservedResolution(s: State, env: Env, m: Address, s1: State)
    requires s1 == s.(payments := s1.payments)
    ensures Resolvable(s1, env) == Resolvable(s, env) && RuleInForce(s1, env, m) == RuleInForce(s, env, m)
    ensures CacheLeft(s1, env, m) == CacheLeft(s, env, m)
  {}

  /** A store whose earlier checks pass comes down to the commit at the rule in force. */
  lemma StoreStages(s: State, env: Env, m: Address, r: Reference, amount: i128) returns (s2: State)
    requires r != ZeroReference && !s.paused && m in env.auth && m in s.merchants
    requires amount >= Minimum(s, env) && (m, r) !in s.payments && (m in s.rules || Resolvable(s, env))
    ensures s2 == s.(payments := s.payments[(m, r) := Placeholder(m)], cachedRule := CacheLeft(s, env, m))
    ensures DoStorePayment(s, env, m, r, amount) ==
              CommitPayment(s2, env.sequence, (m, r), RuleInForce(s, env, m), SplitAt(amount, RuleInForce(s, env, m)))
  {
    var s1 := s.(payments := s.payments[(m, r) := Placeholder(m)]);
    ResolutionMeaning(s1, env, m);
    ResolutionLeaves(s1, env, m);
    ReservedResolution(s, env, m, s1);
    s2 := Resolve(s1, env, m).value.0;
  }

  lemma StoreAsVerdict(h: Host, s: State, call: Call, env: Env)
    requires call.StorePayment?
    ensures OutcomeOf(Apply(h, s, call, env)) == PaymentVerdict(s, call, env)
  {
    var m, r, amount := call.merchant, call.reference, call.amount;
    if && r != ZeroReference && !s.paused && m in env.auth && m in s.merchants
       && amount >= Minimum(s, env) && (m, r) !in s.payments {
      if m in s.rules || Resolvable(s, env) {
        var s2 := StoreStages(s, env, m, r, amount);
        var rule := RuleInForce(s, env, m);
        CommitOutcome(s2, env.sequence, (m, r), rule, SplitAt(amount, rule));
        SplitOutcome(amount, rule);
      } else {
        var s1 := s.(payments := s.payments[(m, r) := Placeholder(m)]);
        ResolutionMeaning(s1, env, m);
        ReservedResolution(s, env, m, s1);
      }
    }
  }

  lemma QuoteAsVerdict(h: Host, s: State, call: Call, env: Env)
    requires call.CalculateFeeSplit?
    ensures OutcomeOf(Apply(h, s, call, env)) == PaymentVerdict(s, call, env)
  {
    ResolutionMeaning(s, env, call.merchant);
    SplitOutcome(call.amount, RuleInForce(s, env, call.merchant));
  }

  lemma PaymentAsVerdict(h: Host, s: State, call: Call, env: Env)
    requires IsLedgerCall(call) || IsReadCall(call)
    ensures OutcomeOf(Apply(h, s, call, env)) == PaymentVerdict(s, call, env)
  {
    if call.StorePayment? {
      StoreAsVerdict(h, s, call, env);
    } else if call.CalculateFeeSplit? {
      QuoteAsVerdict(h, s, call, env);
    } else if call.GetEffectiveRule? {
      ResolutionMeaning(s, env, call.merchant);
    }
  }

  lemma SetterArmAsVerdict(s: State, env: Env, executor: Address, op: Operation)
    requires op.SetSettlementRule? || op.SetDefaultRule?
    ensures OutcomeOf(Arm(s, env, executor, op)) == ArmVerdict(s, env, op)
  {
    BoundsMeaning(op.rule);
    CeilingMeaning(s, env, op.rule);
    if op.SetSettlementRule? {
      WriteRuleOutcome(s, env, executor, op.merchant, op.rule);
    }
  }

  lemma ArmAsVerdict(s: State, env: Env, executor: Address, op: Operation)
    ensures OutcomeOf(Arm(s, env, executor, op)) == ArmVerdict(s, env, op)
  {
    if op.SetSettlementRule? || op.SetDefaultRule? {
      SetterArmAsVerdict(s, env, executor, op);
    } else if op.UnregisterMerchant? {
      UnregisterOutcome(s, env, executor, op.merchant);
    } else if op.ClearSettlementRule? && op.merchant in s.rules {
      DropRuleOutcome(s, env, executor, op.merchant);
    }
  }

  /** The arm asks the same of the state with the slot consumed. */
  lemma SlotDoesNotMatter(h: Host, s: State, env: Env, op: Operation)
    ensures ArmVerdict(Consume(s, {h.Key(op)}), env, op) == ArmVerdict(s, env, op)
  {
    ResolvableIgnores(s, env, Consume(s, {h.Key(op)}));
  }

  lemma ExecuteAsVerdict(h: Host, s: State, call: Call, env: Env)
    requires call.Execute?
    ensures OutcomeOf(Apply(h, s, call, env)) == Verdict(h, s, call, env)
  {
    ArmAsVerdict(Consume(s, {h.Key(call.operation)}), env, call.executor, call.operation);
    SlotDoesNotMatter(h, s, env, call.operation);
  }

  /** For every entry point, state, input and host answer: the call is accepted exactly when each of its
      conditions holds, and is refused with the error of the first that does not. */
  lemma AcceptedExactly(h: Host, s: State, call: Call, env: Env)
    ensures OutcomeOf(Apply(h, s, call, env)) == Verdict(h, s, call, env)
  {
    if IsAuthorityCall(call) {
      AuthorityAsVerdict(h, s, call, env);
    } else if IsQueueCall(call) {
      QueueAsVerdict(h, s, call, env);
    } else if IsRegistryCall(call) {
      RegistryAsVerdict(h, s, call, env);
    } else if call.Execute? {
      ExecuteAsVerdict(h, s, call, env);
    } else {
      PaymentAsVerdict(h, s, call, env);
    }
  }
}
