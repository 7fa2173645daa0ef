/** Admin sets, admin/merchant exclusivity and the pause window over whole runs. */
module Authority {
  import opened Types
  import opened Multisig
  import opened Entry
  import opened Runs
  import opened Frames
  import opened Timelock
  import opened Registry
  import SettlementRecovery

  /** No admin is a merchant, except that a recovered sole admin may be one. */
  predicate Exclusive(s: State) {
    (exists a :: a in s.admins && a in s.merchants) ==> |s.admins| == 1 && s.threshold == 1
  }

  predicate AuthorityInv(s: State) { AdminsOk(s.admins, s.threshold) && Exclusive(s) }

  lemma ArmKeepsAuthority(s: State, env: Env, executor: Address, op: Operation)
    requires AuthorityInv(s) && Arm(s, env, executor, op).Ok?
    ensures AuthorityInv(Arm(s, env, executor, op).value)
  {
    ArmFrame(s, env, executor, op);
  }

  lemma AuthorityCallKeepsAuthority(h: Host, r: Rec)
    requires Legit(h, r) && AuthorityInv(r.pre) && IsAuthorityCall(r.call)
    ensures AuthorityInv(r.post)
  {
    AuthorityFrame(h, r);
  }

  lemma RegistryCallKeepsAuthority(h: Host, r: Rec)
    requires Legit(h, r) && AuthorityInv(r.pre) && IsRegistryCall(r.call)
    ensures AuthorityInv(r.post)
  {
    RegistryFrame(h, r);
    assert r.post.merchants <= r.pre.merchants + if r.call.RegisterMerchant? then {r.call.merchant} else {};
  }

  lemma StepKeepsAuthority(h: Host, r: Rec)
    requires Legit(h, r) && AuthorityInv(r.pre)
    ensures AuthorityInv(r.post)
  {
    if !r.ok {
      AbortFrame(h, r);
    } else if IsAuthorityCall(r.call) {
      AuthorityCallKeepsAuthority(h, r);
    } else if IsRegistryCall(r.call) {
      RegistryCallKeepsAuthority(h, r);
    } else if IsQueueCall(r.call) {
      QueueFrame(h, r);
    } else if IsLedgerCall(r.call) {
      LedgerFrame(h, r);
    } else if IsReadCall(r.call) {
      ReadFrame(h, r);
    } else {
      ExecuteFrame(h, r);
      ArmKeepsAuthority(Consume(r.pre, {h.Key(r.call.operation)}), r.env, r.call.executor, r.call.operation);
    }
  }

  /** In every reachable state the admins are nonempty, distinct and nonzero with a threshold
      between one and their number; an admin is a merchant only as a sole admin with threshold 1. */
  lemma {:induction false} AuthorityInvariant(h: Host, t: seq<Rec>, n: nat)
    requires ValidRun(h, t) && 0 < |t| && n <= |t|
    ensures AuthorityInv(StateAt(t, n))
  {
    if n == 0 {
    } else {
      AuthorityInvariant(h, t, n - 1);
      assert StateAt(t, n - 1) == t[n - 1].pre && StateAt(t, n) == t[n - 1].post;
      StepKeepsAuthority(h, t[n - 1]);
    }
  }

  /** So in every reachable state some signers meet the threshold, and every accepted signer list has
      a first element. */
  lemma QuorumAlwaysReachable(h: Host, t: seq<Rec>, n: nat)
    requires ValidRun(h, t) && 0 < |t| && n <= |t|
    ensures var s := StateAt(t, n);
            && (exists signers, auth :: AuthOk(s.admins, signers, auth, s.threshold))
            && (forall signers, auth :: AuthOk(s.admins, signers, auth, s.threshold) ==> signers != [])
  {
    AuthorityInvariant(h, t, n);
    ThresholdIsSatisfiable(StateAt(t, n).admins, StateAt(t, n).threshold);
  }

  // ---- When an admin is a merchant ----------------------------------------------------------------

  predicate Overlaps(s: State, m: Address) { m in s.admins && m in s.merchants }

  predicate NoOverlap(s: State) { forall a | a in s.admins :: a !in s.merchants }

  /** A completed recovery whose target is registered. */
  predicate Installs(r: Rec, m: Address) {
    r.ok && r.call.ExecuteRecovery? && r.pre.pending.Some? && r.pre.pending.value.newAdmin == m && m in r.pre.merchants
  }

  predicate WritesAdmins(r: Rec) {
    r.ok && (r.call.TransferAdmin? || r.call.ExecuteRecovery? || (r.call.Execute? && r.call.operation.TransferAdmin?))
  }

  predicate Unregisters(r: Rec, m: Address) {
    && r.ok
    && (|| (r.call.UnregisterMerchant? && r.call.merchant == m)
        || (r.call.Execute? && r.call.operation == Operation.UnregisterMerchant(m)))
  }

  /** What the step does to m being both. */
  ghost predicate OverlapEffect(r: Rec, m: Address) {
    Overlaps(r.post, m) <==> Installs(r, m) || (Overlaps(r.pre, m) && !WritesAdmins(r) && !Unregisters(r, m))
  }

  lemma AuthorityOverlap(h: Host, r: Rec, m: Address)
    requires Legit(h, r) && r.ok && IsAuthorityCall(r.call)
    ensures OverlapEffect(r, m)
  {
    AuthorityFrame(h, r);
  }

  lemma RegistryOverlap(h: Host, r: Rec, m: Address)
    requires Legit(h, r) && r.ok && IsRegistryCall(r.call)
    ensures OverlapEffect(r, m)
  {
    RegistryFrame(h, r);
    MembershipStep(h, r);
  }

  /** The marker set after a direct registry call. */
  lemma MembershipStep(h: Host, r: Rec)
    requires Legit(h, r) && r.ok && IsRegistryCall(r.call)
    ensures r.call.RegisterMerchant? ==> r.call.merchant !in r.pre.admins
    ensures r.post.merchants ==
              if r.call.RegisterMerchant? then r.pre.merchants + {r.call.merchant}
              else if r.call.UnregisterMerchant? then r.pre.merchants - {r.call.merchant}
              else r.pre.merchants
  {}

  lemma ArmOverlap(s: State, env: Env, executor: Address, op: Operation, m: Address)
    requires Arm(s, env, executor, op).Ok?
    ensures Overlaps(Arm(s, env, executor, op).value, m) <==>
              Overlaps(s, m) && !op.TransferAdmin? && op != Operation.UnregisterMerchant(m)
  {
    ArmFrame(s, env, executor, op);
    ArmMembership(s, env, executor, op);
  }

  /** The marker set after a timelocked operation. */
  lemma ArmMembership(s: State, env: Env, executor: Address, op: Operation)
    requires Arm(s, env, executor, op).Ok?
    ensures op.RegisterMerchant? ==> op.merchant !in s.admins
    ensures op.TransferAdmin? ==>
              && Arm(s, env, executor, op).value.admins == op.newAdmins
              && forall a | a in op.newAdmins :: a !in s.merchants
    ensures Arm(s, env, executor, op).value.merchants ==
              if op.RegisterMerchant? then s.merchants + {op.merchant}
              else if op.UnregisterMerchant? then s.merchants - {op.merchant}
              else s.merchants
  {}

  lemma StepOverlap(h: Host, r: Rec, m: Address)
    requires Legit(h, r)
    ensures OverlapEffect(r, m)
  {
    if !r.ok {
      AbortFrame(h, r);
    } else if IsAuthorityCall(r.call) {
      AuthorityOverlap(h, r, m);
    } else if IsRegistryCall(r.call) {
      RegistryOverlap(h, r, m);
    } else if IsQueueCall(r.call) {
      QueueFrame(h, r);
    } else if IsLedgerCall(r.call) {
      LedgerFrame(h, r);
    } else if IsReadCall(r.call) {
      ReadFrame(h, r);
    } else {
      ExecuteFrame(h, r);
      ArmOverlap(Consume(r.pre, {h.Key(r.call.operation)}), r.env, r.call.executor, r.call.operation, m);
    }
  }

  /** One step breaks exclusivity exactly when it is an execute_recovery, due, to a registered merchant. */
  lemma OnlyRecoveryBreaksExclusivity(h: Host, r: Rec)
    requires Legit(h, r) && NoOverlap(r.pre)
    ensures !NoOverlap(r.post) <==>
              && r.call.ExecuteRecovery? && r.pre.pending.Some? && r.pre.pending.value.executeAfter <= r.env.now
              && r.pre.pending.value.newAdmin != Zero && r.pre.pending.value.newAdmin in r.pre.merchants
  {
    if r.call.ExecuteRecovery? {
      SettlementRecovery.CompletionCondition(r.pre, r.env);
    }
    forall m ensures OverlapEffect(r, m) {
      StepOverlap(h, r, m);
    }
    if r.pre.pending.Some? && Installs(r, r.pre.pending.value.newAdmin) {
      assert Overlaps(r.post, r.pre.pending.value.newAdmin);
    }
    if !NoOverlap(r.post) {
      var m :| m in r.post.admins && m in r.post.merchants;
      assert OverlapEffect(r, m) && Overlaps(r.post, m);
    }
  }

  /** Step k installed the merchant, and since then nobody wrote the admins or unregistered it. */
  predicate InstalledSince(t: seq<Rec>, k: int, n: nat, m: Address)
    requires n <= |t|
  {
    0 <= k < n && Installs(t[k], m) && forall j | k < j < n :: !WritesAdmins(t[j]) && !Unregisters(t[j], m)
  }

  ghost predicate OverlapRun(t: seq<Rec>, m: Address) {
    && Chained(t) && (forall i | 0 <= i < |t| :: OverlapEffect(t[i], m))
    && (|t| > 0 ==> !Overlaps(t[0].pre, m))
  }

  /** An address is admin and merchant at once exactly when the current admins were written by a
      recovery that found it registered, and it has stayed registered since. */
  lemma AdminMerchantsComeFromRecovery(h: Host, t: seq<Rec>, n: nat, m: Address)
    requires ValidRun(h, t) && 0 < |t| && n <= |t|
    ensures m in StateAt(t, n).admins && m in StateAt(t, n).merchants <==> exists k :: InstalledSince(t, k, n, m)
  {
    forall i | 0 <= i < |t| ensures OverlapEffect(t[i], m) {
      StepOverlap(h, t[i], m);
    }
    OverlapHistory(t, n, m);
  }

  lemma {:induction false} OverlapHistory(t: seq<Rec>, n: nat, m: Address)
    requires OverlapRun(t, m) && 0 < |t| && n <= |t|
    ensures Overlaps(StateAt(t, n), m) <==> exists k :: InstalledSince(t, k, n, m)
  {
    if n == 0 {
    } else {
      OverlapHistory(t, n - 1, m);
      var r := t[n - 1];
      assert StateAt(t, n - 1) == r.pre && StateAt(t, n) == r.post && OverlapEffect(r, m);
      var before: nat := n - 1;
      forall k ensures InstalledSince(t, k, n, m) <==>
                       || (k == before && Installs(r, m))
                       || (InstalledSince(t, k, before, m) && !WritesAdmins(r) && !Unregisters(r, m))
      {
        InstalledStep(t, k, before, m);
      }
      if Installs(r, m) {
        assert InstalledSince(t, before, n, m);
      } else if k :| InstalledSince(t, k, before, m) {
        assert InstalledSince(t, k, n, m) <==> !WritesAdmins(r) && !Unregisters(r, m);
      }
    }
  }

  lemma InstalledStep(t: seq<Rec>, k: int, n: nat, m: Address)
    requires n < |t|
    ensures InstalledSince(t, k, n + 1, m) <==>
              || (k == n && Installs(t[n], m))
              || (InstalledSince(t, k, n, m) && !WritesAdmins(t[n]) && !Unregisters(t[n], m))
  {}

  /** It does happen, from every initial state and for every nonzero address that is no admin:
      register it, start a recovery to it, complete the recovery seven days later. */
  lemma RecoveryMayInstallMerchant(h: Host, s: State, env: Env, m: Address) returns (t: seq<Rec>)
    requires Initial(s) && m != Zero && m !in s.admins && env.now + RECOVERY_DELAY_SECONDS <= U64_MAX
    ensures ValidRun(h, t) && |t| == 3 && t[0].pre == s
    ensures t[0].ok && t[0].call == Call.RegisterMerchant(s.admins, m)
    ensures t[1].ok && t[1].call == InitiateRecovery(m) && t[1].env.now == env.now
    ensures t[2].ok && t[2].call == ExecuteRecovery && t[2].env.now == env.now + RECOVERY_DELAY_SECONDS
    ensures StateAt(t, 3).admins == [m] && m in StateAt(t, 3).merchants
  {
    var now := env.(auth := (set a | a in s.admins) + {m, s.recovery});
    var later := now.(now := env.now + RECOVERY_DELAY_SECONDS);
    var r0 := AdminsRegister(h, s, now, m);
    var r1 := Invocation(h, r0.post, InitiateRecovery(m), now);
    var r2 := Invocation(h, r1.post, ExecuteRecovery, later);
    RecoverySucceeds(r0.post, now, m, later);
    RunOfThree(h, r0, r1, r2);
    t := [r0, r1, r2];
  }

  lemma RecoverySucceeds(s: State, env: Env, m: Address, later: Env)
    requires s.pending == None && m != Zero && s.recovery in env.auth
    requires env.now + RECOVERY_DELAY_SECONDS <= U64_MAX && later.now == env.now + RECOVERY_DELAY_SECONDS
    ensures DoInitiateRecovery(s, env, m).Ok?
    ensures var r := DoExecuteRecovery(DoInitiateRecovery(s, env, m).value, later);
            r.Ok? && r.value.admins == [m] && r.value.merchants == s.merchants
  {
    assert AdminsOk([m], 1);
  }

  /** With a usable admin set, unwrapping the first signer never traps, in any entry point. */
  lemma FirstSignerNeverTraps(h: Host, s: State, call: Call, env: Env)
    requires AdminsOk(s.admins, s.threshold)
    ensures Apply(h, s, call, env) != Err(NoFirstSigner)
  {
    if call.Execute? {
      ArmNeverTraps(Consume(s, {h.Key(call.operation)}), env, call.executor, call.operation);
    } else if IsAuthorityCall(call) {
      AuthorityCallNeverTraps(h, s, call, env);
    } else if IsRegistryCall(call) {
      RegistryCallNeverTraps(h, s, call, env);
    }
  }

  lemma AuthorityCallNeverTraps(h: Host, s: State, call: Call, env: Env)
    requires AdminsOk(s.admins, s.threshold) && IsAuthorityCall(call)
    ensures Apply(h, s, call, env) != Err(NoFirstSigner)
  {}

  lemma RegistryCallNeverTraps(h: Host, s: State, call: Call, env: Env)
    requires AdminsOk(s.admins, s.threshold) && IsRegistryCall(call)
    ensures Apply(h, s, call, env) != Err(NoFirstSigner)
  {}

  lemma ArmNeverTraps(s: State, env: Env, executor: Address, op: Operation)
    ensures Arm(s, env, executor, op) != Err(NoFirstSigner)
  {}

  /** change_threshold asks for one signer more than the threshold, so some signer set can make
      a change exactly when the threshold is below the number of admins (and a different valid
      threshold exists to move to). A unanimous set can never change its threshold directly, and a
      list of no more signers than the threshold is always refused. */
  lemma ChangeThresholdNeedsASpareAdmin(s: State, env: Env, newThreshold: u32)
    requires AdminsOk(s.admins, s.threshold)
    ensures (exists signers, auth :: DoChangeThreshold(s, env.(auth := auth), signers, newThreshold).Ok?)
            <==> && 1 <= newThreshold <= |s.admins| && newThreshold != s.threshold
                 && s.threshold < |s.admins| && s.threshold < U32_MAX
    ensures forall signers, auth | |signers| <= s.threshold ::
              DoChangeThreshold(s, env.(auth := auth), signers, newThreshold).Err?
  {
    QuorumExists(s.admins, s.threshold + 1);
    if && 1 <= newThreshold <= |s.admins| && newThreshold != s.threshold
       && s.threshold < |s.admins| && s.threshold < U32_MAX {
      var signers, auth :| AuthOk(s.admins, signers, auth, s.threshold + 1);
      assert DoChangeThreshold(s, env.(auth := auth), signers, newThreshold).Ok?;
    }
    forall signers, auth | DoChangeThreshold(s, env.(auth := auth), signers, newThreshold).Ok?
      ensures AuthOk(s.admins, signers, auth, s.threshold + 1)
    {}
  }

  // ---- Pause -------------------------------------------------------------------------------------

  predicate SubMap<K, V(==)>(a: map<K, V>, b: map<K, V>) {
    forall k | k in a :: k in b && a[k] == b[k]
  }

  predicate PausedFrame(a: State, b: State) {
    SameRegistry(a, b) && SameQueue(a, b) && SubMap(b.payments, a.payments)
  }

  lemma PausedCallAborts(h: Host, r: Rec)
    requires Legit(h, r) && r.pre.paused
    requires || r.call.Execute? || IsRegistryCall(r.call) || IsQueueCall(r.call)
             || r.call.StorePayment? || r.call.PrunePayment?
    ensures r.post == r.pre
  {}

  lemma PausedStep(h: Host, r: Rec)
    requires Legit(h, r) && r.pre.paused
    ensures PausedFrame(r.pre, r.post)
    ensures r.post.paused || (r.ok && r.call.Unpause?)
  {
    if IsAuthorityCall(r.call) {
      AuthorityFrame(h, r);
    } else if r.call.PrunePayments? {
      LedgerFrame(h, r);
    } else if IsReadCall(r.call) {
      ReadFrame(h, r);
    } else {
      PausedCallAborts(h, r);
    }
  }

  /** From a pause to the next unpause the registry, the rules, the governance address, the queue
      and its counter are frozen and the payment set can only shrink. */
  lemma {:induction false} PauseWindow(h: Host, t: seq<Rec>, i: nat, j: nat)
    requires ValidRun(h, t) && 0 < |t| && i <= j <= |t|
    requires StateAt(t, i).paused
    requires forall m | i <= m < j :: !(t[m].ok && t[m].call.Unpause?)
    ensures StateAt(t, j).paused
    ensures PausedFrame(StateAt(t, i), StateAt(t, j))
    decreases j - i
  {
    if i == j {
    } else {
      PauseWindow(h, t, i, j - 1);
      assert StateAt(t, j - 1) == t[j - 1].pre && StateAt(t, j) == t[j - 1].post;
      PausedStep(h, t[j - 1]);
    }
  }

  /** The call's result once the pause flag is set aside. */
  function WithPaused(r: Result<State>, paused: bool): Result<State> {
    match r case Ok(s) => Ok(s.(paused := paused)) case Err(e) => Err(e)
  }

  lemma RecoveryIgnoresPause(h: Host, s: State, call: Call, env: Env, paused: bool)
    requires call.InitiateRecovery? || call.CancelRecovery? || call.UpdateRecoveryAddress? || call.ExecuteRecovery?
    ensures Apply(h, s.(paused := paused), call, env) == WithPaused(Apply(h, s, call, env), paused)
  {}

  /** A paused contract treats admin transfer, threshold change, recovery and upgrade exactly as an
      unpaused one does. */
  lemma AuthorityIgnoresPause(h: Host, s: State, call: Call, env: Env, paused: bool)
    requires IsAuthorityCall(call) && !call.Pause? && !call.Unpause?
    ensures Apply(h, s.(paused := paused), call, env) == WithPaused(Apply(h, s, call, env), paused)
  {
    if call.TransferAdmin? || call.ChangeThreshold? || call.Upgrade? {
      AdminChangeIgnoresPause(h, s, call, env, paused);
    } else {
      RecoveryIgnoresPause(h, s, call, env, paused);
    }
  }

  lemma AdminChangeIgnoresPause(h: Host, s: State, call: Call, env: Env, paused: bool)
    requires call.TransferAdmin? || call.ChangeThreshold? || call.Upgrade?
    ensures Apply(h, s.(paused := paused), call, env) == WithPaused(Apply(h, s, call, env), paused)
  {}
}
