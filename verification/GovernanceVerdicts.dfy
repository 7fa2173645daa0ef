/** Exactly when each entry point of the governance contract is accepted, what it leaves, and what the
    settlement contract then sees. */
module GovernanceVerdicts {
  import opened Types
  import opened Multisig
  import Entry
  import V = Verdicts
  import opened Governance

  function Signed(g: GovState, auth: set<Address>, signers: seq<Address>): Guard {
    CheckAuth(g.admins, signers, auth, g.threshold).Then(Need(signers != [], NoFirstSigner))
  }

  /** The conditions of each entry point, in order. */
  function Verdict(g: GovState, call: GovCall, now: u64, auth: set<Address>): Guard {
    match call
    case UpdateRecoveryAddress(signers, a) =>
      Signed(g, auth, signers)
      .Then(Need(a != Zero, InvalidRecoveryAddress))
    case InitiateRecovery(a) =>
      Need(g.recovery in auth, AuthMissing)
      .Then(Need(a != Zero, InvalidAdmin))
      .Then(Need(g.pending == None, RecoveryAlreadyPending))
      .Then(Need(now + 604_800 <= U64_MAX, IntegerTrap))
    case CancelRecovery(signers) =>
      Need(g.pending.Some?, RecoveryNotPending)
      .Then(if g.pending.Some? && signers == [g.pending.value.initiatedBy]
            then Need(g.pending.value.initiatedBy in auth, AuthMissing)
            else Signed(g, auth, signers))
    case ExecuteRecovery =>
      Need(g.pending.Some?, RecoveryNotPending)
      .Then(Need(g.pending.Some? ==> g.pending.value.executeAfter <= now, RecoveryDelayActive))
    case TransferAdmin(signers, newAdmins, t) =>
      CheckAuth(g.admins, signers, auth, g.threshold)
      .Then(CheckAdmins(newAdmins, t, InvalidAdmin))
      .Then(Need(newAdmins != g.admins || t != g.threshold, SameAdmin))
    case ChangeThreshold(signers, t) =>
      Need(1 <= t <= |g.admins|, InvalidThreshold)
      .Then(CheckAuth(g.admins, signers, auth, g.threshold))
    case Pause(signers) =>
      CheckAuth(g.admins, signers, auth, g.threshold)
      .Then(Need(!g.paused, AlreadyPaused))
      .Then(Need(signers != [], NoFirstSigner))
    case Unpause(signers) =>
      CheckAuth(g.admins, signers, auth, g.threshold)
      .Then(Need(g.paused, AlreadyUnpaused))
      .Then(Need(signers != [], NoFirstSigner))
    case UpdateSystemParam(signers, key, value) =>
      Need(!g.paused, Paused)
      .Then(CheckAuth(g.admins, signers, auth, g.threshold))
      .Then(Need(value >= 0, InvalidParamValue))
      .Then(Need(key == "bypass_gov_fees" ==> value <= 1, InvalidParamValue))
      .Then(Need(signers != [], NoFirstSigner))
    case SetFeeConfig(signers, config) =>
      Need(!g.paused, Paused)
      .Then(CheckAuth(g.admins, signers, auth, g.threshold))
      .Then(Need(&& 5 <= config.platformBps <= 5_000 && 5 <= config.networkBps <= 5_000
                 && config.platformBps + config.networkBps <= 10_000, InvalidFeeBps))
      .Then(Need(signers != [], NoFirstSigner))
  }

  /** The state an accepted call leaves: what it was given, and nothing else changed. */
  predicate Leaves(g: GovState, call: GovCall, now: u64, g': GovState) {
    match call
    case UpdateRecoveryAddress(_, a) => g' == g.(recovery := a)
    case InitiateRecovery(a) =>
      && now + 604_800 <= U64_MAX
      && g' == g.(pending := Some(PendingRecovery(newAdmin := a, executeAfter := now + 604_800,
                                                  initiatedBy := g.recovery)))
    case CancelRecovery(_) => g' == g.(pending := None)
    case ExecuteRecovery =>
      g.pending.Some? && g' == g.(admins := [g.pending.value.newAdmin], threshold := 1, pending := None)
    case TransferAdmin(_, newAdmins, t) => g' == g.(admins := newAdmins, threshold := t)
    case ChangeThreshold(_, t) => g' == g.(threshold := t)
    case Pause(_) => g' == g.(paused := true)
    case Unpause(_) => g' == g.(paused := false)
    case UpdateSystemParam(_, key, value) => g' == g.(params := g.params[key := value])
    case SetFeeConfig(_, config) => g' == g.(fee := Some(config))
  }

  /** Who has to have agreed: a quorum of the stored admins, or for a recovery the recovery address, which
      may also cancel alone what it initiated; anyone may complete a due recovery. */
  ghost predicate Consented(g: GovState, call: GovCall, auth: set<Address>) {
    match call
    case InitiateRecovery(_) => g.recovery in auth
    case CancelRecovery(signers) =>
      && g.pending.Some?
      && (|| (signers == [g.pending.value.initiatedBy] && g.pending.value.initiatedBy in auth)
          || AuthOk(g.admins, signers, auth, g.threshold))
    case ExecuteRecovery => g.pending.Some?
    case UpdateRecoveryAddress(signers, _) => AuthOk(g.admins, signers, auth, g.threshold)
    case TransferAdmin(signers, _, _) => AuthOk(g.admins, signers, auth, g.threshold)
    case ChangeThreshold(signers, _) => AuthOk(g.admins, signers, auth, g.threshold)
    case Pause(signers) => AuthOk(g.admins, signers, auth, g.threshold)
    case Unpause(signers) => AuthOk(g.admins, signers, auth, g.threshold)
    case UpdateSystemParam(signers, _, _) => AuthOk(g.admins, signers, auth, g.threshold)
    case SetFeeConfig(signers, _) => AuthOk(g.admins, signers, auth, g.threshold)
  }

  /** Every governance entry point, from every state: accepted exactly when each condition holds, refused
      with the error of the first that does not; and an accepted call leaves what it was given, with the
      consent it needs. */
  lemma AcceptedExactly(g: GovState, call: GovCall, now: u64, auth: set<Address>)
    ensures match Apply(g, call, now, auth)
            case Ok(g') => Verdict(g, call, now, auth).Pass? && Leaves(g, call, now, g') && Consented(g, call, auth)
            case Err(e) => Verdict(g, call, now, auth) == Fail(e)
  {}

  /** The conditions of init, in order. */
  lemma InitializeAsVerdict(auth: set<Address>, deployer: Address, admins: seq<Address>, threshold: u32,
                            recovery: Address)
    ensures V.OutcomeOf(Initialize(auth, deployer, admins, threshold, recovery)) ==
              Need(deployer in auth, AuthMissing)
              .Then(CheckAdmins(admins, threshold, InvalidAdmin))
              .Then(Need(recovery != Zero, InvalidRecoveryAddress))
              .Then(Need(forall a | a in admins :: a in auth, AuthMissing))
  {}

  // ---- Over runs ---------------------------------------------------------------------------------------------------

  /** An accepted call stored this value for the parameter, or this fee config. */
  predicate Stores(r: GovRec, key: Symbol, value: i128) {
    r.ok && r.call.UpdateSystemParam? && r.call.key == key && r.call.value == value
  }

  predicate Configures(r: GovRec, config: FeeConfig) { r.ok && r.call.SetFeeConfig? && r.call.config == config }

  predicate Overwrites(r: GovRec, key: Symbol) { r.ok && r.call.UpdateSystemParam? && r.call.key == key }

  predicate Reconfigures(r: GovRec) { r.ok && r.call.SetFeeConfig? }

  lemma StepStores(r: GovRec, key: Symbol, value: i128, config: FeeConfig)
    requires GovLegit(r)
    ensures key in r.post.params && r.post.params[key] == value <==>
              Stores(r, key, value) || (key in r.pre.params && r.pre.params[key] == value && !Overwrites(r, key))
    ensures r.post.fee == Some(config) <==>
              Configures(r, config) || (r.pre.fee == Some(config) && !Reconfigures(r))
  {
    AcceptedExactly(r.pre, r.call, r.now, r.auth);
  }

  // ---- What settlement sees -----------------------------------------------------------------------------------

  /** Settlement under a governance contract that answers: the smallest payment is its min_payment or 100;
      the rule of a merchant under neither rule nor default is bootstrap while bypass_gov_fees is one,
      else its fee config rate by rate, else bootstrap; and a rule setter's ceiling is that config. */
  lemma SettlementFollowsGovernance(s: Entry.State, env: Env, g: GovState, m: Address, rule: Rule)
    requires env.gov(s.governance) == ViewOf(g)
    ensures V.Minimum(s, env) == if "min_payment" in g.params then g.params["min_payment"] else 100
    ensures m !in s.rules && s.defaultRule == None ==>
              && V.Resolvable(s, env)
              && V.RuleInForce(s, env, m) ==
                   if "bypass_gov_fees" in g.params && g.params["bypass_gov_fees"] == 1 then BOOTSTRAP_RULE
                   else match g.fee
                        case Some(c) => Rule(platformBps := c.platformBps, networkBps := c.networkBps,
                                             delayLedger := 0, autoSettle := false)
                        case None => BOOTSTRAP_RULE
    ensures V.Ceiling(env.gov(s.governance).ceiling, rule) ==
              match g.fee
              case Some(c) => Need(rule.platformBps <= c.platformBps && rule.networkBps <= c.networkBps,
                                   FeeExceedsGovernanceConfig)
              case None => Pass
  {
    if g.fee.Some? {
      var p, n := g.fee.value.platformBps, g.fee.value.networkBps;
      assert EncodeFee(g.fee) == V.Config(p, n);
      V.ConfiguredCeiling(rule, p, n);
      forall p', n' | V.Config(p, n) == V.Config(p', n') ensures p == p' && n == n' {
        V.ConfigIsUnique(p, n, p', n');
      }
    }
  }
}
