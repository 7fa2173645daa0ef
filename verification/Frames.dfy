/** Which parts of the state each group of entry points can touch. */
module Frames {
  import opened Types
  import opened Entry
  import opened Runs

  predicate SameQueue(a: State, b: State) { a.queue == b.queue && a.queueCount == b.queueCount }

  predicate SameAuthority(a: State, b: State) {
    && a.admins == b.admins && a.threshold == b.threshold && a.recovery == b.recovery
    && a.pending == b.pending && a.paused == b.paused
  }

  predicate SameRegistry(a: State, b: State) {
    && a.merchants == b.merchants && a.archived == b.archived && a.rules == b.rules
    && a.defaultRule == b.defaultRule && a.governance == b.governance
  }

  predicate SameLedger(a: State, b: State) { a.payments == b.payments && a.counts == b.counts }

  /** Entry points that manage admins, recovery, pause and code. */
  predicate IsAuthorityCall(c: Call) {
    || c.InitiateRecovery? || c.CancelRecovery? || c.UpdateRecoveryAddress? || c.ExecuteRecovery?
    || c.TransferAdmin? || c.ChangeThreshold? || c.Upgrade? || c.Pause? || c.Unpause?
  }

  predicate IsQueueCall(c: Call) { c.Schedule? || c.Cancel? || c.CancelAll? || c.DryRun? }

  predicate IsRegistryCall(c: Call) {
    || c.UpdateGovernance? || c.RegisterMerchant? || c.UnregisterMerchant?
    || c.SetSettlementRule? || c.ClearSettlementRule? || c.SetDefaultRule?
  }

  predicate IsLedgerCall(c: Call) { c.StorePayment? || c.PrunePayment? || c.PrunePayments? }

  predicate IsReadCall(c: Call) { c.CalculateFeeSplit? || c.GetEffectiveRule? }

  lemma AuthorityFrame(h: Host, r: Rec)
    requires Legit(h, r) && IsAuthorityCall(r.call)
    ensures SameQueue(r.pre, r.post) && SameRegistry(r.pre, r.post) && SameLedger(r.pre, r.post)
    ensures r.post.cachedRule == r.pre.cachedRule
  {}

  lemma QueueFrame(h: Host, r: Rec)
    requires Legit(h, r) && IsQueueCall(r.call)
    ensures SameAuthority(r.pre, r.post) && SameRegistry(r.pre, r.post) && SameLedger(r.pre, r.post)
    ensures r.post.cachedRule == r.pre.cachedRule
  {}

  lemma RegistryFrame(h: Host, r: Rec)
    requires Legit(h, r) && IsRegistryCall(r.call)
    ensures SameQueue(r.pre, r.post) && SameAuthority(r.pre, r.post) && SameLedger(r.pre, r.post)
  {}

  lemma LedgerFrame(h: Host, r: Rec)
    requires Legit(h, r) && IsLedgerCall(r.call)
    ensures SameQueue(r.pre, r.post) && SameAuthority(r.pre, r.post) && SameRegistry(r.pre, r.post)
  {}

  lemma ReadFrame(h: Host, r: Rec)
    requires Legit(h, r) && IsReadCall(r.call)
    ensures r.post == r.pre.(cachedRule := r.post.cachedRule)
  {}

  /** What an operation's arm may touch. */
  predicate ArmTouches(s: State, op: Operation, s': State) {
    && SameQueue(s, s') && SameLedger(s, s')
    && s'.recovery == s.recovery && s'.paused == s.paused
    && (if op.CancelRecovery? then s.pending.Some? && s'.pending == None else s'.pending == s.pending)
    && (!op.TransferAdmin? ==> s'.admins == s.admins && s'.threshold == s.threshold)
    && (op.TransferAdmin? || op.CancelRecovery? || op.Upgrade? ==>
          SameRegistry(s, s') && s'.cachedRule == s.cachedRule)
  }

  lemma UnregisterArmFrame(s: State, env: Env, executor: Address, op: Operation)
    requires op.UnregisterMerchant? && ArmUnregisterMerchant(s, env, executor, op.merchant).Ok?
    ensures ArmTouches(s, op, ArmUnregisterMerchant(s, env, executor, op.merchant).value)
  {}

  lemma RuleArmFrame(s: State, env: Env, executor: Address, op: Operation)
    requires op.SetSettlementRule? || op.ClearSettlementRule? || op.SetDefaultRule?
    requires Arm(s, env, executor, op).Ok?
    ensures ArmTouches(s, op, Arm(s, env, executor, op).value)
  {}

  lemma AdminArmFrame(s: State, env: Env, executor: Address, op: Operation)
    requires op.TransferAdmin? || op.CancelRecovery? || op.Upgrade? || op.UpdateGovernance? || op.RegisterMerchant?
    requires Arm(s, env, executor, op).Ok?
    ensures ArmTouches(s, op, Arm(s, env, executor, op).value)
  {}

  lemma ArmFrame(s: State, env: Env, executor: Address, op: Operation)
    requires Arm(s, env, executor, op).Ok?
    ensures ArmTouches(s, op, Arm(s, env, executor, op).value)
  {
    if op.UnregisterMerchant? {
      UnregisterArmFrame(s, env, executor, op);
    } else if op.SetSettlementRule? || op.ClearSettlementRule? || op.SetDefaultRule? {
      RuleArmFrame(s, env, executor, op);
    } else {
      AdminArmFrame(s, env, executor, op);
    }
  }

  /** execute consumes the slot, runs the arm on what is left, and changes nothing else. */
  lemma ExecuteFrame(h: Host, r: Rec)
    requires Legit(h, r) && r.call.Execute? && r.ok
    ensures var op := r.call.operation;
            var arm := Arm(Consume(r.pre, {h.Key(op)}), r.env, r.call.executor, op);
            ExecutionGuard(h, r.pre, r.env, op).Pass? && arm.Ok? && r.post == arm.value.Emit(OpExecuted(h.Key(op)))
  {}

  /** An aborted invocation leaves everything as it was. */
  lemma AbortFrame(h: Host, r: Rec)
    requires Legit(h, r) && !r.ok
    ensures r.post == r.pre
  {}
}
