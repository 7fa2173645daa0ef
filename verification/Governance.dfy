/** The governance contract: what its entry points do, its invariants and its recovery. */
module Governance {
  import opened Types
  import opened Multisig
  import opened Recovery

  const BYPASS_GOV_FEES: Symbol := "bypass_gov_fees"
  const MIN_PAYMENT: Symbol := "min_payment"

  datatype FeeConfig = FeeConfig(platformBps: u32, networkBps: u32)

  datatype GovState = GovState(
    admins: seq<Address>, threshold: u32, recovery: Address, pending: Option<PendingRecovery>, paused: bool,
    fee: Option<FeeConfig>, params: map<Symbol, i128>)

  datatype GovCall =
    | UpdateRecoveryAddress(signers: seq<Address>, newRecovery: Address)
    | InitiateRecovery(newAdmin: Address)
    | CancelRecovery(signers: seq<Address>)
    | ExecuteRecovery
    | TransferAdmin(signers: seq<Address>, newAdmins: seq<Address>, newThreshold: u32)
    | ChangeThreshold(signers: seq<Address>, newThreshold: u32)
    | Pause(signers: seq<Address>)
    | Unpause(signers: seq<Address>)
    | UpdateSystemParam(signers: seq<Address>, key: Symbol, value: i128)
    | SetFeeConfig(signers: seq<Address>, config: FeeConfig)

  function Initialize(auth: set<Address>, deployer: Address, admins: seq<Address>, threshold: u32,
                      recovery: Address): Result<GovState>
  {
    var v := CheckAdmins(admins, threshold, InvalidAdmin);
    if deployer !in auth then Err(AuthMissing)
    else if v.Fail? then Err(v.error)
    else if recovery == Zero then Err(InvalidRecoveryAddress)
    else if exists a | a in admins :: a !in auth then Err(AuthMissing)
    else Ok(GovState(admins, threshold, recovery, None, false, None, map[]))
  }

  function Auth(g: GovState, auth: set<Address>, signers: seq<Address>): Guard {
    CheckAuth(g.admins, signers, auth, g.threshold)
  }

  function AdminAndNotPaused(g: GovState, auth: set<Address>, signers: seq<Address>): Guard {
    if g.paused then Fail(Paused) else Auth(g, auth, signers)
  }

  predicate ConfigInBounds(c: FeeConfig) {
    && MIN_FEE_BPS <= c.platformBps <= MAX_FEE_BPS
    && MIN_FEE_BPS <= c.networkBps <= MAX_FEE_BPS
    && c.platformBps + c.networkBps <= BPS_DENOMINATOR
  }

  function Apply(g: GovState, call: GovCall, now: u64, auth: set<Address>): Result<GovState> {
    match call
    case UpdateRecoveryAddress(signers, a) =>
      var guard := Auth(g, auth, signers);
      if guard.Fail? then Err(guard.error)
      else if signers == [] then Err(NoFirstSigner)
      else if a == Zero then Err(InvalidRecoveryAddress)
      else Ok(g.(recovery := a))
    case InitiateRecovery(a) =>
      if g.recovery !in auth then Err(AuthMissing)
      else if a == Zero then Err(InvalidAdmin)
      else if g.pending.Some? then Err(RecoveryAlreadyPending)
      else if now + RECOVERY_DELAY_SECONDS > U64_MAX then Err(IntegerTrap)
      else Ok(g.(pending := Some(PendingRecovery(a, now + RECOVERY_DELAY_SECONDS, g.recovery))))
    case CancelRecovery(signers) =>
      if g.pending.None? then Err(RecoveryNotPending)
      else
        var initiator := g.pending.value.initiatedBy;
        var guard := if signers == [initiator] then Need(initiator in auth, AuthMissing) else Auth(g, auth, signers);
        if guard.Fail? then Err(guard.error)
        else if signers == [] then Err(NoFirstSigner)
        else Ok(g.(pending := None))
    case ExecuteRecovery =>
      if g.pending.None? then Err(RecoveryNotPending)
      else if now < g.pending.value.executeAfter then Err(RecoveryDelayActive)
      else Ok(g.(admins := [g.pending.value.newAdmin], threshold := 1, pending := None))
    case TransferAdmin(signers, newAdmins, newThreshold) =>
      var guard := Auth(g, auth, signers);
      var v := CheckAdmins(newAdmins, newThreshold, InvalidAdmin);
      if guard.Fail? then Err(guard.error)
      else if v.Fail? then Err(v.error)
      else if g.admins == newAdmins && g.threshold == newThreshold then Err(SameAdmin)
      else Ok(g.(admins := newAdmins, threshold := newThreshold))
    case ChangeThreshold(signers, newThreshold) =>
      var guard := Auth(g, auth, signers);
      if newThreshold == 0 || newThreshold > |g.admins| then Err(InvalidThreshold)
      else if guard.Fail? then Err(guard.error)
      else Ok(g.(threshold := newThreshold))
    case Pause(signers) =>
      var guard := Auth(g, auth, signers);
      if guard.Fail? then Err(guard.error)
      else if g.paused then Err(AlreadyPaused)
      else if signers == [] then Err(NoFirstSigner)
      else Ok(g.(paused := true))
    case Unpause(signers) =>
      var guard := Auth(g, auth, signers);
      if guard.Fail? then Err(guard.error)
      else if !g.paused then Err(AlreadyUnpaused)
      else if signers == [] then Err(NoFirstSigner)
      else Ok(g.(paused := false))
    case UpdateSystemParam(signers, key, value) =>
      var guard := AdminAndNotPaused(g, auth, signers);
      if guard.Fail? then Err(guard.error)
      else if value < 0 then Err(InvalidParamValue)
      else if key == BYPASS_GOV_FEES && value > 1 then Err(InvalidParamValue)
      else if signers == [] then Err(NoFirstSigner)
      else Ok(g.(params := g.params[key := value]))
    case SetFeeConfig(signers, config) =>
      var guard := AdminAndNotPaused(g, auth, signers);
      if guard.Fail? then Err(guard.error)
      else if || config.platformBps < MIN_FEE_BPS || config.platformBps > MAX_FEE_BPS
              || config.networkBps < MIN_FEE_BPS || config.networkBps > MAX_FEE_BPS then Err(InvalidFeeBps)
      else if config.platformBps + config.networkBps > BPS_DENOMINATOR then Err(InvalidFeeBps)
      else if signers == [] then Err(NoFirstSigner)
      else Ok(g.(fee := Some(config)))
  }

  function Step(g: GovState, call: GovCall, now: u64, auth: set<Address>): GovState {
    match Apply(g, call, now, auth) case Ok(g') => g' case Err(_) => g
  }

  // ---- What settlement sees -----------------------------------------------------------------------

  function EncodeFee(fee: Option<FeeConfig>): Val {
    match fee
    case None => Void
    case Some(c) => MapVal(map["platform_fee_bps" := U32Val(c.platformBps), "network_fee_bps" := U32Val(c.networkBps)])
  }

  function Param(g: GovState, key: Symbol): ParamAnswer {
    if key in g.params then ParamValue(g.params[key]) else ParamUnset
  }

  function ViewOf(g: GovState): GovView {
    GovView(Param(g, BYPASS_GOV_FEES), Param(g, MIN_PAYMENT), FeeReturned(EncodeFee(g.fee)),
            FeeReturned(EncodeFee(g.fee)))
  }

  // ---- Invariant --------------------------------------------------------------------------------------

  predicate GovInv(g: GovState) {
    && AdminsOk(g.admins, g.threshold)
    && g.recovery != Zero
    && (g.pending.Some? ==> g.pending.value.newAdmin != Zero)
    && (g.fee.Some? ==> ConfigInBounds(g.fee.value))
    && (forall k | k in g.params :: g.params[k] >= 0)
    && (BYPASS_GOV_FEES in g.params ==> g.params[BYPASS_GOV_FEES] <= 1)
  }

  lemma InitializeEstablishes(auth: set<Address>, deployer: Address, admins: seq<Address>, threshold: u32,
                              recovery: Address)
    ensures var r := Initialize(auth, deployer, admins, threshold, recovery);
            && (r.Ok? <==> AdminsOk(admins, threshold) && recovery != Zero && deployer in auth
                           && forall a | a in admins :: a in auth)
            && (r.Ok? ==> GovInv(r.value) && r.value.admins == admins && r.value.threshold == threshold
                          && r.value.recovery == recovery && r.value.pending == None && !r.value.paused)
  {}

  /** Every entry point keeps the admin set usable, the pending target nonzero, the fee config in
      bounds and every parameter nonnegative; and no first-signer read traps. */
  lemma StepKeepsGovInv(g: GovState, call: GovCall, now: u64, auth: set<Address>)
    requires GovInv(g)
    ensures GovInv(Step(g, call, now, auth))
    ensures Apply(g, call, now, auth) != Err(NoFirstSigner)
  {
    if call.ExecuteRecovery? && g.pending.Some? {
      assert AdminsOk([g.pending.value.newAdmin], 1);
    }
  }

  // ---- Runs ----------------------------------------------------------------------------------------------

  datatype GovRec = GovRec(pre: GovState, call: GovCall, now: u64, auth: set<Address>, post: GovState, ok: bool)

  predicate GovLegit(r: GovRec) {
    match Apply(r.pre, r.call, r.now, r.auth)
    case Ok(g) => r.ok && r.post == g
    case Err(_) => !r.ok && r.post == r.pre
  }

  ghost predicate GovRun(t: seq<GovRec>) {
    && (forall i | 0 <= i < |t| :: GovLegit(t[i]))
    && (forall i, j | 0 <= i < j < |t| && j == i + 1 :: t[j].pre == t[i].post && t[i].now <= t[j].now)
    && (|t| > 0 ==> GovInv(t[0].pre) && t[0].pre.pending == None)
  }

  function ActOf(r: GovRec): Act {
    if !r.ok then Other
    else match r.call
      case InitiateRecovery(a) => Start(a, r.pre.recovery)
      case CancelRecovery(_) => Stop
      case ExecuteRecovery => Finish(r.post.admins, r.post.threshold)
      case _ => Other
  }

  function BeatOf(r: GovRec): Beat { Beat(r.pre.pending, ActOf(r), r.now, r.post.pending) }

  function Beats(t: seq<GovRec>): (bs: seq<Beat>)
    ensures |bs| == |t| && forall i | 0 <= i < |t| :: bs[i] == BeatOf(t[i])
  {
    seq(|t|, i requires 0 <= i < |t| => BeatOf(t[i]))
  }

  lemma StepBeat(r: GovRec)
    requires GovLegit(r)
    ensures BeatOk(BeatOf(r))
  {}

  lemma RunIsRecoveryRun(t: seq<GovRec>)
    requires GovRun(t)
    ensures RecoveryRun(Beats(t))
  {
    forall i | 0 <= i < |t| ensures BeatOk(Beats(t)[i]) {
      StepBeat(t[i]);
    }
  }

  lemma {:induction false} GovInvariant(t: seq<GovRec>, n: nat)
    requires GovRun(t) && n < |t|
    ensures GovInv(t[n].pre) && GovInv(t[n].post)
  {
    if n == 0 {
    } else {
      GovInvariant(t, n - 1);
    }
    StepKeepsGovInv(t[n].pre, t[n].call, t[n].now, t[n].auth);
  }

  /** Recovery safety for the governance contract. */
  lemma ExecutedRecoveryInstallsLatestTarget(t: seq<GovRec>, i: nat) returns (k: nat)
    requires GovRun(t) && i < |t| && t[i].ok && t[i].call.ExecuteRecovery?
    ensures k < i && t[k].ok && t[k].call.InitiateRecovery?
    ensures t[i].post.admins == [t[k].call.newAdmin] && t[i].post.threshold == 1 && t[i].post.pending == None
    ensures t[k].now + RECOVERY_DELAY_SECONDS <= t[i].now
    ensures forall j | k < j < i :: ActOf(t[j]).Other?
  {
    RunIsRecoveryRun(t);
    assert BeatOk(Beats(t)[i]);
    k := RecoverySafety(Beats(t), i);
    forall j | k < j < i ensures ActOf(t[j]).Other? {
      assert Beats(t)[j].act.Other?;
    }
  }

  /** A pending record never changes while it exists, and once mature its execution always succeeds
      and leaves a usable admin set. */
  lemma PendingRecoveryIsFrozenAndExecutable(t: seq<GovRec>, i: nat, j: nat, now: u64, auth: set<Address>)
    requires GovRun(t) && i <= j < |t|
    requires forall m | i <= m <= j :: t[m].pre.pending.Some?
    ensures t[j].pre.pending == t[i].pre.pending
    ensures Apply(t[j].pre, ExecuteRecovery, now, auth).Ok? <==> t[i].pre.pending.value.executeAfter <= now
    ensures Apply(t[j].pre, ExecuteRecovery, now, auth).Ok? ==>
              GovInv(Apply(t[j].pre, ExecuteRecovery, now, auth).value)
  {
    RunIsRecoveryRun(t);
    PendingFrozenBetween(t, i, j);
    GovInvariant(t, j);
    MatureRecoveryCompletes(t[j].pre, now, auth);
  }

  lemma PendingFrozenBetween(t: seq<GovRec>, i: nat, j: nat)
    requires RecoveryRun(Beats(t)) && i <= j < |t|
    requires forall m | i <= m <= j :: t[m].pre.pending.Some?
    ensures t[j].pre.pending == t[i].pre.pending
  {
    forall m | i <= m <= j ensures PendingAt(Beats(t), m) == t[m].pre.pending {}
    PendingIsFrozen(Beats(t), i, j);
  }

  lemma MatureRecoveryCompletes(g: GovState, now: u64, auth: set<Address>)
    requires GovInv(g) && g.pending.Some?
    ensures Apply(g, ExecuteRecovery, now, auth).Ok? <==> g.pending.value.executeAfter <= now
    ensures Apply(g, ExecuteRecovery, now, auth).Ok? ==> GovInv(Apply(g, ExecuteRecovery, now, auth).value)
  {
    StepKeepsGovInv(g, ExecuteRecovery, now, auth);
  }
}
