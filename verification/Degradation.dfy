/** What a governance outage changes: which calls it refuses, which it cannot touch, and what rule the
    read path serves meanwhile. */
module Degradation {
  import opened Types
  import opened Multisig
  import opened Entry
  import opened Runs
  import opened Frames
  import opened Timelock
  import opened Rules

  /** Every call to the governance contract fails. */
  predicate Down(s: State, env: Env) { env.gov(s.governance) == OUTAGE }

  // ---- Fail closed, fail open ------------------------------------------------------------------------

  /** The calls that must not go ahead on unverified governance parameters. */
  predicate FailsClosed(call: Call) {
    || call.Schedule? || call.SetSettlementRule? || call.SetDefaultRule?
    || (call.Execute? && (call.operation.SetSettlementRule? || call.operation.SetDefaultRule?))
  }

  /** An outage refuses all of these, whatever the state, the arguments and the signers. */
  lemma OutageRefusesSetters(h: Host, s: State, call: Call, env: Env)
    requires Down(s, env) && FailsClosed(call)
    ensures Apply(h, s, call, env).Err?
  {}

  lemma AuthorityCallsFailOpen(h: Host, s: State, call: Call, env: Env)
    requires IsAuthorityCall(call)
    ensures Apply(h, s, call, env) != Err(GovernanceCallFailed)
  {}

  lemma QueueCallsFailOpen(h: Host, s: State, call: Call, env: Env)
    requires IsQueueCall(call) && !call.Schedule?
    ensures Apply(h, s, call, env) != Err(GovernanceCallFailed)
  {}

  lemma ResolutionFailsOpen(s: State, env: Env, m: Address)
    requires Down(s, env)
    ensures Fallback(s, env).Ok? && Resolve(s, env, m).Ok?
  {}

  lemma SplitNeverBlamesGovernance(amount: i128, rule: Rule)
    ensures SplitAt(amount, rule) != Err(GovernanceCallFailed)
  {}

  lemma StoreFailsOpen(s: State, env: Env, m: Address, reference: Reference, amount: i128)
    requires Down(s, env)
    ensures DoStorePayment(s, env, m, reference, amount) != Err(GovernanceCallFailed)
  {
    var reserved := s.(payments := s.payments[(m, reference) := Placeholder(m)]);
    ResolutionFailsOpen(reserved, env, m);
    SplitNeverBlamesGovernance(amount, Resolve(reserved, env, m).value.1.rule);
  }

  lemma ReadsFailOpen(h: Host, s: State, call: Call, env: Env)
    requires Down(s, env) && IsReadCall(call)
    ensures Apply(h, s, call, env) != Err(GovernanceCallFailed)
  {
    ResolutionFailsOpen(s, env, call.merchant);
    if call.CalculateFeeSplit? {
      SplitNeverBlamesGovernance(call.amount, Resolve(s, env, call.merchant).value.1.rule);
    }
  }

  lemma PrunesFailOpen(h: Host, s: State, call: Call, env: Env)
    requires call.PrunePayment? || call.PrunePayments?
    ensures Apply(h, s, call, env) != Err(GovernanceCallFailed)
  {}

  lemma RegistryCallsFailOpen(h: Host, s: State, call: Call, env: Env)
    requires Down(s, env) && IsRegistryCall(call) && !FailsClosed(call)
    ensures Apply(h, s, call, env) != Err(GovernanceCallFailed)
  {}

  lemma ArmsFailOpen(s: State, env: Env, executor: Address, op: Operation)
    requires Down(s, env) && !op.SetSettlementRule? && !op.SetDefaultRule?
    ensures Arm(s, env, executor, op) != Err(GovernanceCallFailed)
  {}

  /** And it refuses nothing else: no other entry point can end in GovernanceCallFailed. */
  lemma OutageRefusesNothingElse(h: Host, s: State, call: Call, env: Env)
    requires Down(s, env) && !FailsClosed(call)
    ensures Apply(h, s, call, env) != Err(GovernanceCallFailed)
  {
    if IsAuthorityCall(call) {
      AuthorityCallsFailOpen(h, s, call, env);
    } else if IsQueueCall(call) {
      QueueCallsFailOpen(h, s, call, env);
    } else if call.StorePayment? {
      StoreFailsOpen(s, env, call.merchant, call.reference, call.amount);
    } else if IsLedgerCall(call) {
      PrunesFailOpen(h, s, call, env);
    } else if IsReadCall(call) {
      ReadsFailOpen(h, s, call, env);
    } else if IsRegistryCall(call) {
      RegistryCallsFailOpen(h, s, call, env);
    } else {
      ArmsFailOpen(Consume(s, {h.Key(call.operation)}), env, call.executor, call.operation);
    }
  }

  // ---- Changing the governance address ---------------------------------------------------------------

  /** update_governance asks no contract anything, directly or through the timelock: its result is the
      same whatever any address answers, and it accepts exactly the nonzero addresses. */
  lemma GovernanceChangeAsksNobody(h: Host, s: State, env: Env, gov: Address -> GovView, signers: seq<Address>,
                                   executor: Address, g: Address)
    requires AdminsOk(s.admins, s.threshold)
    ensures DoUpdateGovernance(s, env.(gov := gov), signers, g) == DoUpdateGovernance(s, env, signers, g)
    ensures DoUpdateGovernance(s, env, signers, g).Ok? <==>
              !s.paused && AuthOk(s.admins, signers, env.auth, s.threshold) && g != Zero
    ensures var op := Operation.UpdateGovernance(g);
            && DoExecute(h, s, env.(gov := gov), executor, op) == DoExecute(h, s, env, executor, op)
            && (DoExecute(h, s, env, executor, op).Ok? <==> ExecutionGuard(h, s, env, op).Pass? && g != Zero)
  {}

  /** So from every initial state the admins can install an address that answers nothing, after which
      no setter and no schedule goes ahead. */
  lemma DeadGovernanceIsAccepted(h: Host, s: State, env: Env, g: Address) returns (t: seq<Rec>)
    requires Initial(s) && g != Zero && env.gov(g) == OUTAGE && forall a | a in s.admins :: a in env.auth
    ensures ValidRun(h, t) && |t| == 1 && t[0].pre == s && t[0].ok
    ensures t[0].call == Call.UpdateGovernance(s.admins, g) && StateAt(t, 1).governance == g
    ensures forall call | FailsClosed(call) :: Apply(h, StateAt(t, 1), call, env).Err?
  {
    assert AuthOk(s.admins, s.admins, env.auth, s.threshold);
    var r := Invocation(h, s, Call.UpdateGovernance(s.admins, g), env);
    RunOfOne(h, r);
    t := [r];
    forall call | FailsClosed(call) ensures Apply(h, r.post, call, env).Err? {
      OutageRefusesSetters(h, r.post, call, env);
    }
  }

  // ---- The cache during an outage ----------------------------------------------------------------------

  lemma {:induction false} OutageKeepsLastGood(t: seq<Rec>, i: nat, n: nat)
    requires i <= n <= |t| && forall j | i <= j < n :: Down(t[j].pre, t[j].env)
    ensures LastGood(t, n) == LastGood(t, i)
    decreases n - i
  {
    if i == n {
    } else {
      OutageKeepsLastGood(t, i, n - 1);
      assert Down(t[n - 1].pre, t[n - 1].env);
    }
  }

  /** However long an outage lasts and whatever happens in it, a merchant without a rule, under no
      default, is served the last good config from before it; the bootstrap rule only if there was
      none. */
  lemma OutageServesLastGood(h: Host, t: seq<Rec>, i: nat, n: nat, env: Env, m: Address)
    requires ValidRun(h, t) && 0 < |t| && i <= n <= |t|
    requires forall j | i <= j < n :: Down(t[j].pre, t[j].env)
    requires Down(StateAt(t, n), env) && m !in StateAt(t, n).rules && StateAt(t, n).defaultRule.None?
    ensures Resolve(StateAt(t, n), env, m).Ok?
    ensures Resolve(StateAt(t, n), env, m).value.1 ==
              match LastGood(t, i)
              case Some(rule) => Effective(rule, FromGovernance)
              case None => Effective(BOOTSTRAP_RULE, FromBootstrap)
  {
    OutageKeepsLastGood(t, i, n);
    CacheIsLastGood(h, t, n);
  }

  /** Whoever asks during an outage is served the rule. */
  ghost predicate ServesInOutage(s: State, rule: Rule) {
    forall env, m | Down(s, env) ::
      Resolve(s, env, m).Ok? && Resolve(s, env, m).value.1 == Effective(rule, FromGovernance)
  }

  /** One good answer is enough, from every initial state and for every config: any later outage
      serves it to every merchant. */
  lemma OutageServesCachedConfig(h: Host, s: State, env: Env, m: Address, p: u32, n: u32) returns (t: seq<Rec>)
    requires Initial(s) && env.gov(s.governance).bypass != ParamValue(1)
    requires env.gov(s.governance).fee ==
               FeeReturned(MapVal(map[PLATFORM_KEY := U32Val(p), NETWORK_KEY := U32Val(n)]))
    ensures ValidRun(h, t) && |t| == 1 && t[0].pre == s && t[0].ok && t[0].call == GetEffectiveRule(m)
    ensures ServesInOutage(StateAt(t, 1), Rule(p, n, 0, false))
  {
    GoodAnswer(env.gov(s.governance), p, n);
    var r := ReadCaches(h, s, env, m, Rule(p, n, 0, false));
    RunOfOne(h, r);
    t := [r];
    CacheServes(r.post);
  }

  lemma ReadCaches(h: Host, s: State, env: Env, m: Address, rule: Rule) returns (r: Rec)
    requires s.rules == map[] && s.defaultRule == None && GoodConfig(env.gov(s.governance)) == Some(rule)
    ensures Legit(h, r) && r.ok && r.pre == s && r.env == env && r.call == GetEffectiveRule(m)
    ensures r.post == s.(cachedRule := Some(rule))
  {
    r := Invocation(h, s, GetEffectiveRule(m), env);
  }

  lemma GoodAnswer(view: GovView, p: u32, n: u32)
    requires view.bypass != ParamValue(1)
    requires view.fee == FeeReturned(MapVal(map[PLATFORM_KEY := U32Val(p), NETWORK_KEY := U32Val(n)]))
    ensures GoodConfig(view) == Some(Rule(p, n, 0, false))
  {
    ClassifyAcceptsExactly(view.fee.val, p, n);
  }

  lemma CacheServes(s: State)
    requires s.rules == map[] && s.defaultRule == None && s.cachedRule.Some?
    ensures ServesInOutage(s, s.cachedRule.value)
  {}
}
