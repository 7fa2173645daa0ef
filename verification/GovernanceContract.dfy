/** The governance contract as it runs, proved against module Governance. */
module GovernanceRuntime {
  import opened Types
  import opened Multisig
  import G = Governance

  predicate Implements(spec: Result<G.GovState>, r: Guard, now: G.GovState) {
    match spec
    case Ok(g) => r.Pass? && now == g
    case Err(e) => r == Fail(e)
  }

  class GovernanceContract {
    var admins: seq<Address>
    var threshold: u32
    var recovery: Address
    var pending: Option<PendingRecovery>
    var paused: bool
    var fee: Option<G.FeeConfig>
    var params: map<Symbol, i128>

    function Snapshot(): G.GovState
      reads this
    {
      G.GovState(admins, threshold, recovery, pending, paused, fee, params)
    }

    constructor (g: G.GovState)
      ensures Snapshot() == g
    {
      admins, threshold, recovery, pending := g.admins, g.threshold, g.recovery, g.pending;
      paused, fee, params := g.paused, g.fee, g.params;
    }

    method Rollback(g: G.GovState)
      modifies this
      ensures Snapshot() == g
    {
      admins, threshold, recovery, pending := g.admins, g.threshold, g.recovery, g.pending;
      paused, fee, params := g.paused, g.fee, g.params;
    }

    static method Init(auth: set<Address>, deployer: Address, admins: seq<Address>, threshold: u32, recovery: Address)
      returns (r: Result<GovernanceContract>)
      ensures match G.Initialize(auth, deployer, admins, threshold, recovery)
              case Ok(g) => r.Ok? && fresh(r.value) && r.value.Snapshot() == g
              case Err(e) => r.Err? && r.error == e
    {
      if deployer !in auth { return Err(AuthMissing); }
      var v := ValidateAdmins(admins, threshold, InvalidAdmin);
      if v.Fail? { return Err(v.error); }
      if recovery == Zero { return Err(InvalidRecoveryAddress); }
      for i := 0 to |admins|
        invariant forall j | 0 <= j < i :: admins[j] in auth
      {
        if admins[i] !in auth { return Err(AuthMissing); }
      }
      var c := new GovernanceContract(G.GovState(admins, threshold, recovery, None, false, None, map[]));
      return Ok(c);
    }

    method AssertAdmin(auth: set<Address>, signers: seq<Address>) returns (g: Guard)
      ensures g == G.Auth(Snapshot(), auth, signers)
    {
      g := VerifyAdminAuth(admins, signers, auth, threshold);
    }

    method AssertAdminAndNotPaused(auth: set<Address>, signers: seq<Address>) returns (g: Guard)
      ensures g == G.AdminAndNotPaused(Snapshot(), auth, signers)
    {
      if paused { return Fail(Paused); }
      g := VerifyAdminAuth(admins, signers, auth, threshold);
    }

    method UpdateRecoveryAddress(auth: set<Address>, signers: seq<Address>, newRecovery: Address) returns (r: Guard)
      modifies this
      ensures Implements(G.Apply(old(Snapshot()), G.UpdateRecoveryAddress(signers, newRecovery), 0, auth), r,
                         Snapshot())
    {
      r := AssertAdmin(auth, signers);
      if r.Fail? { return; }
      if signers == [] { return Fail(NoFirstSigner); }
      if newRecovery == Zero { return Fail(InvalidRecoveryAddress); }
      recovery := newRecovery;
    }

    method InitiateRecovery(now: u64, auth: set<Address>, newAdmin: Address) returns (r: Guard)
      modifies this
      ensures Implements(G.Apply(old(Snapshot()), G.InitiateRecovery(newAdmin), now, auth), r, Snapshot())
    {
      if recovery !in auth { return Fail(AuthMissing); }
      if newAdmin == Zero { return Fail(InvalidAdmin); }
      if pending.Some? { return Fail(RecoveryAlreadyPending); }
      if now + RECOVERY_DELAY_SECONDS > U64_MAX { return Fail(IntegerTrap); }
      pending := Some(PendingRecovery(newAdmin, now + RECOVERY_DELAY_SECONDS, recovery));
      return Pass;
    }

    method CancelRecovery(auth: set<Address>, signers: seq<Address>) returns (r: Guard)
      modifies this
      ensures Implements(G.Apply(old(Snapshot()), G.CancelRecovery(signers), 0, auth), r, Snapshot())
    {
      if pending.None? { return Fail(RecoveryNotPending); }
      if |signers| == 1 && signers[0] == pending.value.initiatedBy {
        if pending.value.initiatedBy !in auth { return Fail(AuthMissing); }
      } else {
        r := AssertAdmin(auth, signers);
        if r.Fail? { return; }
      }
      if signers == [] { return Fail(NoFirstSigner); }
      pending := None;
      return Pass;
    }

    method ExecuteRecovery(now: u64, auth: set<Address>) returns (r: Guard)
      modifies this
      ensures Implements(G.Apply(old(Snapshot()), G.ExecuteRecovery, now, auth), r, Snapshot())
    {
      if pending.None? { return Fail(RecoveryNotPending); }
      if now < pending.value.executeAfter { return Fail(RecoveryDelayActive); }
      admins := [pending.value.newAdmin];
      threshold := 1;
      pending := None;
      return Pass;
    }

    method TransferAdmin(auth: set<Address>, signers: seq<Address>, newAdmins: seq<Address>, newThreshold: u32)
      returns (r: Guard)
      modifies this
      ensures Implements(G.Apply(old(Snapshot()), G.TransferAdmin(signers, newAdmins, newThreshold), 0, auth), r,
                         Snapshot())
    {
      r := AssertAdmin(auth, signers);
      if r.Fail? { return; }
      r := ValidateAdmins(newAdmins, newThreshold, InvalidAdmin);
      if r.Fail? { return; }
      if admins == newAdmins && threshold == newThreshold { return Fail(SameAdmin); }
      admins, threshold := newAdmins, newThreshold;
    }

    method ChangeThreshold(auth: set<Address>, signers: seq<Address>, newThreshold: u32) returns (r: Guard)
      modifies this
      ensures Implements(G.Apply(old(Snapshot()), G.ChangeThreshold(signers, newThreshold), 0, auth), r, Snapshot())
    {
      if newThreshold == 0 || newThreshold > |admins| { return Fail(InvalidThreshold); }
      r := AssertAdmin(auth, signers);
      if r.Fail? { return; }
      threshold := newThreshold;
    }

    method SetPaused(auth: set<Address>, signers: seq<Address>, value: bool) returns (r: Guard)
      modifies this
      ensures Implements(G.Apply(old(Snapshot()), if value then G.Pause(signers) else G.Unpause(signers), 0, auth), r,
                         Snapshot())
    {
      r := AssertAdmin(auth, signers);
      if r.Fail? { return; }
      if paused == value { return Fail(if value then AlreadyPaused else AlreadyUnpaused); }
      if signers == [] { return Fail(NoFirstSigner); }
      paused := value;
    }

    method UpdateSystemParam(auth: set<Address>, signers: seq<Address>, key: Symbol, value: i128) returns (r: Guard)
      modifies this
      ensures Implements(G.Apply(old(Snapshot()), G.UpdateSystemParam(signers, key, value), 0, auth), r, Snapshot())
    {
      r := AssertAdminAndNotPaused(auth, signers);
      if r.Fail? { return; }
      if value < 0 { return Fail(InvalidParamValue); }
      if key == G.BYPASS_GOV_FEES && value > 1 { return Fail(InvalidParamValue); }
      if signers == [] { return Fail(NoFirstSigner); }
      params := params[key := value];
    }

    method SetFeeConfig(auth: set<Address>, signers: seq<Address>, config: G.FeeConfig) returns (r: Guard)
      modifies this
      ensures Implements(G.Apply(old(Snapshot()), G.SetFeeConfig(signers, config), 0, auth), r, Snapshot())
    {
      r := AssertAdminAndNotPaused(auth, signers);
      if r.Fail? { return; }
      if || config.platformBps < MIN_FEE_BPS || config.platformBps > MAX_FEE_BPS
         || config.networkBps < MIN_FEE_BPS || config.networkBps > MAX_FEE_BPS { return Fail(InvalidFeeBps); }
      if config.platformBps + config.networkBps > BPS_DENOMINATOR { return Fail(InvalidFeeBps); }
      if signers == [] { return Fail(NoFirstSigner); }
      fee := Some(config);
    }

    /** One invocation: dispatch, and roll every write back if it aborts. */
    method Invoke(call: G.GovCall, now: u64, auth: set<Address>) returns (r: Guard)
      modifies this
      ensures Snapshot() == G.Step(old(Snapshot()), call, now, auth)
      ensures r == (match G.Apply(old(Snapshot()), call, now, auth) case Ok(_) => Pass case Err(e) => Fail(e))
    {
      var before := Snapshot();
      match call {
        case UpdateRecoveryAddress(signers, a) => r := UpdateRecoveryAddress(auth, signers, a);
        case InitiateRecovery(a) => r := InitiateRecovery(now, auth, a);
        case CancelRecovery(signers) => r := CancelRecovery(auth, signers);
        case ExecuteRecovery => r := ExecuteRecovery(now, auth);
        case TransferAdmin(signers, newAdmins, t) => r := TransferAdmin(auth, signers, newAdmins, t);
        case ChangeThreshold(signers, t) => r := ChangeThreshold(auth, signers, t);
        case Pause(signers) => r := SetPaused(auth, signers, true);
        case Unpause(signers) => r := SetPaused(auth, signers, false);
        case UpdateSystemParam(signers, key, value) => r := UpdateSystemParam(auth, signers, key, value);
        case SetFeeConfig(signers, config) => r := SetFeeConfig(auth, signers, config);
      }
      if r.Fail? {
        Rollback(before);
      }
    }
  }
}
