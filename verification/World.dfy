/** Settlement together with any number of governance contracts that behave as modelled or fail. */
module World {
  import opened Types
  import opened Entry
  import opened Runs
  import opened Frames
  import opened Ledger
  import opened Rules
  import G = Governance

  datatype World = World(settlement: State, govs: map<Address, G.GovState>)

  /** Which of an address's calls fail during an invocation. */
  datatype Outage = Outage(bypass: bool, minPayment: bool, fee: bool, ceiling: bool)

  datatype WorldStep =
    | Settle(call: Call, now: u64, sequence: u32, auth: set<Address>, outage: Address -> Outage,
             wasmOk: WasmHash -> bool)
    | Govern(at: Address, govCall: G.GovCall, now: u64, auth: set<Address>)
    | Deploy(at: Address, deployer: Address, admins: seq<Address>, threshold: u32, recovery: Address,
             auth: set<Address>)

  function ViewAt(govs: map<Address, G.GovState>, outage: Outage, a: Address): GovView {
    if a !in govs then OUTAGE
    else
      var view := G.ViewOf(govs[a]);
      GovView(if outage.bypass then ParamCallFailed else view.bypass,
              if outage.minPayment then ParamCallFailed else view.minPayment,
              if outage.fee then FeeCallFailed else view.fee,
              if outage.ceiling then FeeCallFailed else view.ceiling)
  }

  function EnvOf(w: World, step: WorldStep): Env
    requires step.Settle?
  {
    Env(step.now, step.sequence, step.auth, a => ViewAt(w.govs, step.outage(a), a), step.wasmOk)
  }

  function Next(h: Host, w: World, step: WorldStep): World {
    match step
    case Settle(call, _, _, _, _, _) => w.(settlement := Entry.Step(h, w.settlement, call, EnvOf(w, step)))
    case Govern(at, call, now, auth) =>
      if at in w.govs then w.(govs := w.govs[at := G.Step(w.govs[at], call, now, auth)]) else w
    case Deploy(at, deployer, admins, threshold, recovery, auth) =>
      var g := G.Initialize(auth, deployer, admins, threshold, recovery);
      if at !in w.govs && g.Ok? then w.(govs := w.govs[at := g.value]) else w
  }

  function After(h: Host, w: World, steps: seq<WorldStep>): World {
    if steps == [] then w
    else Next(h, After(h, w, steps[..|steps| - 1]), steps[|steps| - 1])
  }

  // ---- Bounds ---------------------------------------------------------------------------------------

  predicate Bounded(s: State) {
    && (forall m | m in s.rules :: RuleInBounds(s.rules[m]))
    && (s.defaultRule.Some? ==> RuleInBounds(s.defaultRule.value))
    && (s.cachedRule.Some? ==> RuleInBounds(s.cachedRule.value))
  }

  predicate AmountsNonnegative(s: State) { forall k | k in s.payments :: s.payments[k].amount >= 0 }

  /** A view the modelled governance contract, or an outage, can produce. */
  predicate GovLike(view: GovView) {
    && (view.minPayment.ParamValue? ==> view.minPayment.value >= 0)
    && (view.fee.FeeReturned? ==> Classify(view.fee.val).Ok?)
    && (GoodConfig(view).Some? ==> RuleInBounds(GoodConfig(view).value))
  }

  lemma ModelledGovernanceIsGovLike(govs: map<Address, G.GovState>, outage: Outage, a: Address)
    requires forall g | g in govs :: G.GovInv(govs[g])
    ensures GovLike(ViewAt(govs, outage, a))
  {
    if a in govs && govs[a].fee.Some? {
      ClassifyAcceptsExactly(G.EncodeFee(govs[a].fee), govs[a].fee.value.platformBps, govs[a].fee.value.networkBps);
    }
  }

  /** Stored rules and the default change only to rules that pass the bounds check. */
  predicate RulesEffect(a: State, b: State) {
    && (forall m | m in b.rules :: (m in a.rules && b.rules[m] == a.rules[m]) || RuleInBounds(b.rules[m]))
    && (b.defaultRule == a.defaultRule || (b.defaultRule.Some? && RuleInBounds(b.defaultRule.value)))
  }

  lemma ArmRules(s: State, env: Env, executor: Address, op: Operation)
    requires Arm(s, env, executor, op).Ok?
    ensures RulesEffect(s, Arm(s, env, executor, op).value)
  {}

  lemma RegistryCallRules(h: Host, r: Rec)
    requires Legit(h, r) && r.ok && IsRegistryCall(r.call)
    ensures RulesEffect(r.pre, r.post)
  {}

  lemma StepRules(h: Host, r: Rec)
    requires Legit(h, r)
    ensures RulesEffect(r.pre, r.post)
  {
    if !r.ok {
      AbortFrame(h, r);
    } else if IsAuthorityCall(r.call) {
      AuthorityFrame(h, r);
    } else if IsQueueCall(r.call) {
      QueueFrame(h, r);
    } else if IsLedgerCall(r.call) {
      LedgerFrame(h, r);
    } else if IsReadCall(r.call) {
      ReadFrame(h, r);
    } else if IsRegistryCall(r.call) {
      RegistryCallRules(h, r);
    } else {
      ExecuteFrame(h, r);
      ArmRules(Consume(r.pre, {h.Key(r.call.operation)}), r.env, r.call.executor, r.call.operation);
    }
  }

  lemma BoundsFromEffects(r: Rec)
    requires RulesEffect(r.pre, r.post) && CacheEffect(r)
    requires GovLike(r.env.gov(r.pre.governance)) && Bounded(r.pre)
    ensures Bounded(r.post)
  {}

  lemma StepKeepsBounds(h: Host, r: Rec)
    requires Legit(h, r) && GovLike(r.env.gov(r.pre.governance)) && Bounded(r.pre)
    ensures Bounded(r.post)
  {
    StepRules(h, r);
    StepCache(h, r);
    BoundsFromEffects(r);
  }

  lemma StepKeepsAmounts(h: Host, r: Rec)
    requires Legit(h, r) && GovLike(r.env.gov(r.pre.governance)) && AmountsNonnegative(r.pre)
    ensures AmountsNonnegative(r.post)
  {
    StepLedger(h, r);
    forall k | k in r.post.payments ensures r.post.payments[k].amount >= 0 {
      KeyStep(r, k);
      if Stores(r, k) {
        StoredAmount(h, r);
      }
    }
  }

  lemma StoredAmount(h: Host, r: Rec)
    requires Legit(h, r) && r.ok && r.call.StorePayment?
    ensures var key := (r.call.merchant, r.call.reference);
            && key in r.post.payments && r.post.payments[key].amount == r.call.amount
            && r.call.amount >= MinPayment(r.env.gov(r.pre.governance).minPayment)
  {
    StoreEffect(h, r);
  }

  /** Under views the modelled governance can produce, every tier resolves, and within bounds. */
  lemma EffectiveRuleIsBounded(s: State, env: Env, m: Address)
    requires Bounded(s) && GovLike(env.gov(s.governance))
    ensures Resolve(s, env, m).Ok? && RuleInBounds(Resolve(s, env, m).value.1.rule)
  {
    assert RuleInBounds(BOOTSTRAP_RULE);
  }

  predicate WorldInv(w: World) {
    && Bounded(w.settlement) && AmountsNonnegative(w.settlement)
    && forall a | a in w.govs :: G.GovInv(w.govs[a])
  }

  lemma NextKeepsWorldInv(h: Host, w: World, step: WorldStep)
    requires WorldInv(w)
    ensures WorldInv(Next(h, w, step))
  {
    match step
    case Settle(call, _, _, _, outage, _) =>
      var env := EnvOf(w, step);
      var ok := Apply(h, w.settlement, call, env).Ok?;
      var r := Rec(w.settlement, call, env, Entry.Step(h, w.settlement, call, env), ok);
      ModelledGovernanceIsGovLike(w.govs, outage(w.settlement.governance), w.settlement.governance);
      StepKeepsBounds(h, r);
      StepKeepsAmounts(h, r);
    case Govern(at, call, now, auth) =>
      if at in w.govs {
        G.StepKeepsGovInv(w.govs[at], call, now, auth);
      }
    case Deploy(_, deployer, admins, threshold, recovery, auth) =>
      G.InitializeEstablishes(auth, deployer, admins, threshold, recovery);
  }

  lemma {:induction false} WorldInvariant(h: Host, w: World, steps: seq<WorldStep>)
    requires WorldInv(w)
    ensures WorldInv(After(h, w, steps))
  {
    if steps == [] {
    } else {
      WorldInvariant(h, w, steps[..|steps| - 1]);
      NextKeepsWorldInv(h, After(h, w, steps[..|steps| - 1]), steps[|steps| - 1]);
    }
  }

  /** Cross-contract boundedness: however settlement calls, governance calls, deployments and
      outages interleave, every merchant's effective rule resolves, from any tier and the cache
      alike, with both fees in [5, 5000], their sum at most 10000 and the delay at most 100000;
      and every stored amount is nonnegative. */
  lemma CrossContractBoundedness(h: Host, s0: State, steps: seq<WorldStep>, probe: WorldStep, m: Address)
    requires Initial(s0) && probe.Settle?
    ensures var w := After(h, World(s0, map[]), steps);
            var effective := Resolve(w.settlement, EnvOf(w, probe), m);
            && effective.Ok? && RuleInBounds(effective.value.1.rule)
            && AmountsNonnegative(w.settlement)
  {
    WorldInvariant(h, World(s0, map[]), steps);
    var w := After(h, World(s0, map[]), steps);
    var a := w.settlement.governance;
    ModelledGovernanceIsGovLike(w.govs, probe.outage(a), a);
    EffectiveRuleIsBounded(w.settlement, EnvOf(w, probe), m);
  }
}
