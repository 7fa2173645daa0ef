/** Whose consent stands behind every change. */
module Consent {
  import opened Types
  import opened Multisig
  import opened Entry
  import opened Runs
  import opened Frames
  import opened Timelock
  import opened SettlementRecovery

  /** At least as many distinct stored admins as the threshold signed, all authenticated. */
  ghost predicate Quorum(s: State, env: Env, signers: seq<Address>) {
    AuthOk(s.admins, signers, env.auth, s.threshold)
  }

  /** Who has to have agreed to the call. */
  ghost predicate Consented(s: State, call: Call, env: Env) {
    match call
    case InitiateRecovery(_) => s.recovery in env.auth
    case CancelRecovery(signers) =>
      && s.pending.Some?
      && (|| (signers == [s.pending.value.initiatedBy] && s.pending.value.initiatedBy in env.auth)
          || Quorum(s, env, signers))
    case ChangeThreshold(signers, _) => AuthOk(s.admins, signers, env.auth, s.threshold + 1)
    case RegisterMerchant(signers, m) => Quorum(s, env, signers) && m in env.auth
    case StorePayment(m, _, _) => m in env.auth
    case UpdateGovernance(signers, _) => Quorum(s, env, signers)
    case UpdateRecoveryAddress(signers, _) => Quorum(s, env, signers)
    case TransferAdmin(signers, _, _) => Quorum(s, env, signers)
    case Upgrade(signers, _) => Quorum(s, env, signers)
    case Pause(signers, _) => Quorum(s, env, signers)
    case Unpause(signers) => Quorum(s, env, signers)
    case Schedule(signers, _, _) => Quorum(s, env, signers)
    case Cancel(signers, _) => Quorum(s, env, signers)
    case CancelAll(signers, _) => Quorum(s, env, signers)
    case UnregisterMerchant(signers, _) => Quorum(s, env, signers)
    case SetSettlementRule(signers, _, _) => Quorum(s, env, signers)
    case ClearSettlementRule(signers, _) => Quorum(s, env, signers)
    case SetDefaultRule(signers, _) => Quorum(s, env, signers)
    case PrunePayment(signers, _, _) => Quorum(s, env, signers)
    case PrunePayments(signers, _, _) => Quorum(s, env, signers)
    // Anyone may call these: what they carry out was agreed to earlier, or they change nothing.
    case Execute(_, _) => true
    case ExecuteRecovery => true
    case DryRun(_) => true
    case CalculateFeeSplit(_, _) => true
    case GetEffectiveRule(_) => true
  }

  /** Every accepted call has the consent it needs. */
  lemma AcceptedIsConsented(h: Host, r: Rec)
    requires Legit(h, r) && r.ok
    ensures Consented(r.pre, r.call, r.env)
  {}

  /** k is a schedule of op by a quorum, fully elapsed and in force at i. */
  ghost predicate AgreedEarlier(h: Host, t: seq<Rec>, k: nat, i: nat, op: Operation)
    requires i < |t|
  {
    && InForce(h, t, k, i, op) && SignedByQuorum(t[k])
    && MIN_TIMELOCK_DELAY_SECONDS <= t[k].call.executeIn <= MAX_TIMELOCK_DELAY_SECONDS
    && t[k].env.now + t[k].call.executeIn <= t[i].env.now
  }

  /** k is the initiation by the recovery address of the time that the recovery at i completes. */
  ghost predicate RecoveredEarlier(t: seq<Rec>, k: nat, i: nat)
    requires i < |t|
  {
    && k < i && t[k].ok && t[k].call.InitiateRecovery? && t[k].pre.recovery in t[k].env.auth
    && t[k].env.now + RECOVERY_DELAY_SECONDS <= t[i].env.now
    && t[i].post.admins == [t[k].call.newAdmin]
    && forall j | k < j < i :: ActOf(t[j]).Other?
  }

  /** The end-to-end account: whatever step of a run changes anything but the rule cache, either those
      concerned agreed to it there and then, or it executes what a quorum scheduled at least seven days
      before, or it completes what the recovery address initiated at least seven days before. */
  lemma EveryChangeWasAgreedTo(h: Host, t: seq<Rec>, i: nat)
    requires ValidRun(h, t) && h.Faithful() && i < |t|
    requires t[i].post != t[i].pre.(cachedRule := t[i].post.cachedRule)
    ensures t[i].ok && !t[i].call.DryRun? && !t[i].call.CalculateFeeSplit? && !t[i].call.GetEffectiveRule?
    ensures Consented(t[i].pre, t[i].call, t[i].env)
    ensures t[i].call.Execute? ==> exists k :: AgreedEarlier(h, t, k, i, t[i].call.operation)
    ensures t[i].call.ExecuteRecovery? ==> exists k :: RecoveredEarlier(t, k, i)
  {
    var r := t[i];
    if !r.ok {
      AbortFrame(h, r);
    }
    NoticeableCall(h, r);
    AcceptedIsConsented(h, r);
    if r.call.Execute? {
      var k := TimelockSafety(h, t, i, r.call.operation);
      assert AgreedEarlier(h, t, k, i, r.call.operation);
    } else if r.call.ExecuteRecovery? {
      var k := ExecutedRecoveryInstallsLatestTarget(h, t, i);
      AcceptedIsConsented(h, t[k]);
      assert RecoveredEarlier(t, k, i);
    }
  }

  lemma NoticeableCall(h: Host, r: Rec)
    requires Legit(h, r) && r.post != r.pre.(cachedRule := r.post.cachedRule)
    ensures !r.call.DryRun? && !r.call.CalculateFeeSplit? && !r.call.GetEffectiveRule?
  {}
}
