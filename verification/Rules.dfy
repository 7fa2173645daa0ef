/** Rule resolution: what each tier yields, the cache over histories, what a removal announces, and
    the agreement of the direct and the timelocked setters. */
module Rules {
  import opened Types
  import opened Entry
  import opened Runs
  import opened Frames
  import opened Timelock
  import opened Registry

  const PLATFORM_KEY: Symbol := "platform_fee_bps"
  const NETWORK_KEY: Symbol := "network_fee_bps"

  /** A returned value is a config exactly when it is a map of the two required u32 fields and
      nothing else; only a map can be malformed. */
  lemma ClassifyAcceptsExactly(raw: Val, p: u32, n: u32)
    ensures Classify(raw) == Ok(Some((p, n))) <==>
            raw == MapVal(map[PLATFORM_KEY := U32Val(p), NETWORK_KEY := U32Val(n)])
    ensures Classify(raw) == Ok(None) <==> !raw.MapVal?
    ensures Classify(raw).Err? ==> Classify(raw) == Err(GovernanceCallFailed)
  {
    assert |PLATFORM_KEY| == 16 && |NETWORK_KEY| == 15;
    if Classify(raw) == Ok(Some((p, n))) {
      assert {PLATFORM_KEY, NETWORK_KEY} <= raw.entries.Keys;
      assert raw.entries.Keys - {PLATFORM_KEY, NETWORK_KEY} == {} by {
        assert |raw.entries.Keys| == 2 && |{PLATFORM_KEY, NETWORK_KEY}| == 2;
        assert raw.entries.Keys == {PLATFORM_KEY, NETWORK_KEY} + (raw.entries.Keys - {PLATFORM_KEY, NETWORK_KEY});
      }
      assert raw.entries == map[PLATFORM_KEY := U32Val(p), NETWORK_KEY := U32Val(n)];
    }
  }

  // ---- The cache over histories -------------------------------------------------------------------

  /** The config a governance view supplies to the read path. */
  function GoodConfig(view: GovView): Option<Rule> {
    if view.bypass == ParamValue(1) || view.fee.FeeCallFailed? then None
    else match Classify(view.fee.val)
      case Ok(Some((p, n))) => Some(Rule(p, n, 0, false))
      case _ => None
  }

  /** The invocation resolves a rule below the merchant and default tiers. */
  predicate Consults(s: State, call: Call) {
    && s.defaultRule.None?
    && match call
       case StorePayment(m, _, _) => m !in s.rules
       case CalculateFeeSplit(m, _) => m !in s.rules
       case GetEffectiveRule(m) => m !in s.rules
       case SetSettlementRule(_, m, _) => m !in s.rules
       case ClearSettlementRule(_, m) => true
       case UnregisterMerchant(_, m) => m in s.rules
       case Execute(_, SetSettlementRule(m, _)) => m !in s.rules
       case Execute(_, ClearSettlementRule(m)) => true
       case Execute(_, UnregisterMerchant(m)) => m in s.rules
       case _ => false
  }

  /** The well-formed config a committed invocation read from governance, if any. */
  function Fetched(r: Rec): Option<Rule> {
    if r.ok && Consults(r.pre, r.call) then GoodConfig(r.env.gov(r.pre.governance)) else None
  }

  ghost predicate CacheEffect(r: Rec) {
    r.post.cachedRule == if Fetched(r).Some? then Fetched(r) else r.pre.cachedRule
  }

  lemma ArmCache(s: State, env: Env, executor: Address, op: Operation)
    requires Arm(s, env, executor, op).Ok?
    ensures var good := GoodConfig(env.gov(s.governance));
            Arm(s, env, executor, op).value.cachedRule ==
              if Consults(s, Call.Execute(executor, op)) && good.Some? then good else s.cachedRule
  {}

  lemma SetRuleCache(h: Host, r: Rec)
    requires Legit(h, r) && r.ok && r.call.SetSettlementRule?
    ensures CacheEffect(r)
  {}

  lemma ClearRuleCache(h: Host, r: Rec)
    requires Legit(h, r) && r.ok && r.call.ClearSettlementRule?
    ensures CacheEffect(r)
  {}

  lemma MerchantCallCache(h: Host, r: Rec)
    requires Legit(h, r) && r.ok && IsRegistryCall(r.call)
    requires !r.call.SetSettlementRule? && !r.call.ClearSettlementRule?
    ensures CacheEffect(r)
  {}

  lemma ReadCallCache(h: Host, r: Rec)
    requires Legit(h, r) && r.ok && IsReadCall(r.call)
    ensures CacheEffect(r)
  {}

  lemma StoreCallCache(h: Host, r: Rec)
    requires Legit(h, r) && r.ok && r.call.StorePayment?
    ensures CacheEffect(r)
  {}

  lemma PruneCallCache(h: Host, r: Rec)
    requires Legit(h, r) && r.ok && (r.call.PrunePayment? || r.call.PrunePayments?)
    ensures CacheEffect(r)
  {}

  lemma StepCache(h: Host, r: Rec)
    requires Legit(h, r)
    ensures CacheEffect(r)
  {
    if !r.ok {
      AbortFrame(h, r);
    } else if IsAuthorityCall(r.call) {
      AuthorityFrame(h, r);
    } else if IsQueueCall(r.call) {
      QueueFrame(h, r);
    } else if r.call.SetSettlementRule? {
      SetRuleCache(h, r);
    } else if r.call.ClearSettlementRule? {
      ClearRuleCache(h, r);
    } else if IsRegistryCall(r.call) {
      MerchantCallCache(h, r);
    } else if r.call.Execute? {
      ExecuteFrame(h, r);
      ArmCache(Consume(r.pre, {h.Key(r.call.operation)}), r.env, r.call.executor, r.call.operation);
    } else if r.call.StorePayment? {
      StoreCallCache(h, r);
    } else if IsLedgerCall(r.call) {
      PruneCallCache(h, r);
    } else {
      ReadCallCache(h, r);
    }
  }

  /** The last well-formed config committed on the read path in the first n steps, whichever
      governance address it came from. */
  function LastGood(t: seq<Rec>, n: nat): Option<Rule>
    requires n <= |t|
  {
    if n == 0 then None
    else if Fetched(t[n - 1]).Some? then Fetched(t[n - 1])
    else LastGood(t, n - 1)
  }

  lemma {:induction false} CacheIsLastGood(h: Host, t: seq<Rec>, n: nat)
    requires ValidRun(h, t) && 0 < |t| && n <= |t|
    ensures StateAt(t, n).cachedRule == LastGood(t, n)
  {
    if n == 0 {
    } else {
      CacheIsLastGood(h, t, n - 1);
      assert StateAt(t, n - 1) == t[n - 1].pre && StateAt(t, n) == t[n - 1].post;
      StepCache(h, t[n - 1]);
    }
  }

  /** The tiers as documented, over the history of the run. */
  ghost function EffectiveByHistory(t: seq<Rec>, n: nat, env: Env, m: Address): Result<Effective>
    requires 0 < |t| && n <= |t|
  {
    var s := StateAt(t, n);
    var view := env.gov(s.governance);
    if m in s.rules then Ok(Effective(s.rules[m], FromMerchant))
    else if s.defaultRule.Some? then Ok(Effective(s.defaultRule.value, FromDefault))
    else if view.bypass == ParamValue(1) then Ok(Effective(BOOTSTRAP_RULE, FromBootstrap))
    else if view.fee.FeeCallFailed? then
      Ok(if LastGood(t, n).Some? then Effective(LastGood(t, n).value, FromGovernance)
         else Effective(BOOTSTRAP_RULE, FromBootstrap))
    else if !view.fee.val.MapVal? then Ok(Effective(BOOTSTRAP_RULE, FromBootstrap))
    else if exists p: u32, n: u32 ::
              view.fee.val == MapVal(map[PLATFORM_KEY := U32Val(p), NETWORK_KEY := U32Val(n)]) then
      Ok(Effective(GoodConfig(view).value, FromGovernance))
    else Err(GovernanceCallFailed)
  }

  /** Resolution in a reachable state follows the documented tiers; a failed governance call serves
      the last good config ever committed, or the bootstrap rule. */
  lemma ResolutionFollowsHistory(h: Host, t: seq<Rec>, n: nat, env: Env, m: Address)
    requires ValidRun(h, t) && 0 < |t| && n <= |t|
    ensures match Resolve(StateAt(t, n), env, m)
            case Ok((_, effective)) => EffectiveByHistory(t, n, env, m) == Ok(effective)
            case Err(e) => EffectiveByHistory(t, n, env, m) == Err(e)
  {
    CacheIsLastGood(h, t, n);
    var view := env.gov(StateAt(t, n).governance);
    if view.fee.FeeReturned? {
      ConfigShape(view.fee.val);
      assert view.bypass != ParamValue(1) ==>
        (GoodConfig(view).Some? <==>
           exists p: u32, n: u32 :: view.fee.val == MapVal(map[PLATFORM_KEY := U32Val(p), NETWORK_KEY := U32Val(n)]));
    }
  }

  lemma ConfigShape(raw: Val)
    ensures (exists p: u32, n: u32 :: raw == MapVal(map[PLATFORM_KEY := U32Val(p), NETWORK_KEY := U32Val(n)])) <==>
            Classify(raw).Ok? && Classify(raw).value.Some?
    ensures raw.MapVal? <==> Classify(raw) != Ok(None)
    ensures Classify(raw).Err? ==> Classify(raw) == Err(GovernanceCallFailed)
  {
    ClassifyAcceptsExactly(raw, 0, 0);
    if Classify(raw).Ok? && Classify(raw).value.Some? {
      ClassifyAcceptsExactly(raw, Classify(raw).value.value.0, Classify(raw).value.value.1);
    }
    forall p: u32, n: u32 | raw == MapVal(map[PLATFORM_KEY := U32Val(p), NETWORK_KEY := U32Val(n)])
      ensures Classify(raw) == Ok(Some((p, n)))
    {
      ClassifyAcceptsExactly(raw, p, n);
    }
  }

  // ---- Announced fallbacks ------------------------------------------------------------------------

  /** Some event announces that m's rule was removed and names the rule now in force. */
  ghost predicate Announces(events: seq<Event>, from: nat, m: Address, removed: Rule, s: State, env: Env) {
    exists i :: from <= i < |events| && events[i].RuleCleared? && events[i].merchant == m
                && events[i].removed == removed
                && Resolve(s, env, m).Ok? && Resolve(s, env, m).value.1.rule == events[i].fallback
  }

  /** Resolving twice under the same answers gives the same rule: the first read leaves in the cache
      exactly what the second one needs. */
  lemma FallbackIsStable(s: State, env: Env)
    requires Fallback(s, env).Ok?
    ensures var (s', effective) := Fallback(s, env).value;
            Fallback(s', env).Ok? && Fallback(s', env).value.1 == effective
  {}

  lemma ResolveIgnores(a: State, b: State, env: Env, m: Address)
    requires a.rules == b.rules && a.defaultRule == b.defaultRule && a.cachedRule == b.cachedRule
    requires a.governance == b.governance
    ensures Resolve(a, env, m).Ok? <==> Resolve(b, env, m).Ok?
    ensures Resolve(a, env, m).Ok? ==> Resolve(a, env, m).value.1 == Resolve(b, env, m).value.1
  {}

  lemma DropRuleAnnounces(s: State, env: Env, who: Address, m: Address)
    requires m in s.rules && DropRule(s, env, who, m).Ok?
    ensures var s' := DropRule(s, env, who, m).value;
            && Announces(s'.log, |s.log|, m, s.rules[m], s', env)
            && s'.rules == s.rules - {m} && s'.log[..|s.log|] == s.log
            && s'.governance == s.governance && s'.defaultRule == s.defaultRule
  {
    var dropped := s.(rules := s.rules - {m});
    FallbackIsStable(dropped, env);
    var s' := DropRule(s, env, who, m).value;
    ResolveIgnores(s', Fallback(dropped, env).value.0, env, m);
    assert s'.log[|s.log|].RuleCleared?;
  }

  /** Later events do not disturb an announcement. */
  lemma AnnouncementStands(a: State, from: nat, m: Address, removed: Rule, b: State, env: Env)
    requires Announces(a.log, from, m, removed, a, env)
    requires a.log <= b.log
    requires a.rules == b.rules && a.defaultRule == b.defaultRule && a.cachedRule == b.cachedRule
    requires a.governance == b.governance
    ensures Announces(b.log, from, m, removed, b, env)
  {
    var i :| from <= i < |a.log| && a.log[i].RuleCleared? && a.log[i].merchant == m && a.log[i].removed == removed
             && Resolve(a, env, m).Ok? && Resolve(a, env, m).value.1.rule == a.log[i].fallback;
    ResolveIgnores(a, b, env, m);
    assert b.log[i] == a.log[i];
  }

  lemma UnregisterAnnounces(s: State, env: Env, who: Address, m: Address)
    requires m in s.rules && Unregister(s, env, who, m).Ok?
    ensures var s' := Unregister(s, env, who, m).value;
            && s'.rules == s.rules - {m}
            && Announces(s'.log, |s.log|, m, s.rules[m], s', env)
  {
    var s1 := s.(merchants := s.merchants - {m}, archived := s.archived + {m});
    DropRuleAnnounces(s1, env, who, m);
    AnnouncementStands(DropRule(s1, env, who, m).value, |s.log|, m, s.rules[m], Unregister(s, env, who, m).value, env);
  }

  lemma ArmAnnounces(s: State, env: Env, executor: Address, op: Operation, m: Address)
    requires Arm(s, env, executor, op).Ok? && m in s.rules && m !in Arm(s, env, executor, op).value.rules
    ensures var s' := Arm(s, env, executor, op).value; Announces(s'.log, |s.log|, m, s.rules[m], s', env)
  {
    ArmFrame(s, env, executor, op);
    if op.UnregisterMerchant? {
      if op.merchant in s.rules {
        UnregisterAnnounces(s, env, executor, op.merchant);
      }
    } else if op.ClearSettlementRule? {
      assert ArmClearSettlementRule(s, env, executor, op.merchant) == DropRule(s, env, executor, op.merchant);
      DropRuleAnnounces(s, env, executor, op.merchant);
    }
  }

  lemma RemovalUnfolds(h: Host, r: Rec)
    requires Legit(h, r) && r.ok && (r.call.UnregisterMerchant? || r.call.ClearSettlementRule?)
    ensures r.call.signers != []
    ensures r.call.UnregisterMerchant? ==> Unregister(r.pre, r.env, r.call.signers[0], r.call.merchant) == Ok(r.post)
    ensures r.call.ClearSettlementRule? ==>
              r.call.merchant in r.pre.rules && DropRule(r.pre, r.env, r.call.signers[0], r.call.merchant) == Ok(r.post)
  {}

  lemma SetterKeepsRules(h: Host, r: Rec)
    requires Legit(h, r) && r.ok && r.call.SetSettlementRule?
    ensures r.pre.rules.Keys <= r.post.rules.Keys
  {}

  lemma OtherCallsKeepRules(h: Host, r: Rec)
    requires Legit(h, r) && r.ok && (r.call.UpdateGovernance? || r.call.RegisterMerchant? || r.call.SetDefaultRule?)
    ensures r.post.rules == r.pre.rules
  {}

  lemma RegistryCallAnnounces(h: Host, r: Rec, m: Address)
    requires Legit(h, r) && r.ok && IsRegistryCall(r.call) && m in r.pre.rules && m !in r.post.rules
    ensures Announces(r.post.log, |r.pre.log|, m, r.pre.rules[m], r.post, r.env)
  {
    if r.call.UnregisterMerchant? {
      RemovalUnfolds(h, r);
      if r.call.merchant in r.pre.rules {
        UnregisterAnnounces(r.pre, r.env, r.call.signers[0], r.call.merchant);
      }
    } else if r.call.ClearSettlementRule? {
      RemovalUnfolds(h, r);
      DropRuleAnnounces(r.pre, r.env, r.call.signers[0], r.call.merchant);
    } else if r.call.SetSettlementRule? {
      SetterKeepsRules(h, r);
    } else {
      OtherCallsKeepRules(h, r);
    }
  }

  /** Whatever invocation removes a merchant's rule, it announces the rule that is effective for the
      merchant immediately afterwards. */
  lemma RemovalAnnouncesEffectiveRule(h: Host, r: Rec, m: Address)
    requires Legit(h, r) && m in r.pre.rules && m !in r.post.rules
    ensures Announces(r.post.log, |r.pre.log|, m, r.pre.rules[m], r.post, r.env)
  {
    if !r.ok {
      AbortFrame(h, r);
    } else if IsAuthorityCall(r.call) {
      AuthorityFrame(h, r);
    } else if IsQueueCall(r.call) {
      QueueFrame(h, r);
    } else if IsLedgerCall(r.call) {
      LedgerFrame(h, r);
    } else if IsReadCall(r.call) {
      ReadFrame(h, r);
    } else if IsRegistryCall(r.call) {
      RegistryCallAnnounces(h, r, m);
    } else {
      ExecuteFrame(h, r);
      var s := Consume(r.pre, {h.Key(r.call.operation)});
      ArmAnnounces(s, r.env, r.call.executor, r.call.operation, m);
      AnnouncementStands(Arm(s, r.env, r.call.executor, r.call.operation).value, |r.pre.log|, m, r.pre.rules[m],
                         r.post, r.env);
    }
  }

  // ---- Direct and timelocked setters ----------------------------------------------------------------

  /** Same acceptance, and on acceptance the same stored state (events name different callers). */
  predicate Agree(direct: Result<State>, timelocked: Result<State>) {
    && (direct.Ok? <==> timelocked.Ok?)
    && (direct.Ok? ==> direct.value == timelocked.value.(log := direct.value.log))
  }

  /** The direct entry point that carries the same data as a timelocked operation. */
  function Direct(s: State, env: Env, signers: seq<Address>, op: Operation): Result<State>
    requires !op.CancelRecovery? && !op.TransferAdmin? && !op.Upgrade?
  {
    match op
    case UpdateGovernance(g) => DoUpdateGovernance(s, env, signers, g)
    case RegisterMerchant(m) => DoRegisterMerchant(s, env, signers, m)
    case UnregisterMerchant(m) => DoUnregisterMerchant(s, env, signers, m)
    case SetSettlementRule(m, r) => DoSetSettlementRule(s, env, signers, m, r)
    case ClearSettlementRule(m) => DoClearSettlementRule(s, env, signers, m)
    case SetDefaultRule(r) => DoSetDefaultRule(s, env, signers, r)
  }

  lemma DropRuleAgrees(s: State, env: Env, a: Address, b: Address, m: Address)
    requires m in s.rules
    ensures Agree(DropRule(s, env, a, m), DropRule(s, env, b, m))
    ensures ArmClearSettlementRule(s.(paused := false), env, b, m) == DropRule(s.(paused := false), env, b, m)
  {}

  lemma UnregisterAgrees(s: State, env: Env, a: Address, b: Address, m: Address)
    ensures Agree(Unregister(s, env, a, m), Unregister(s, env, b, m))
  {
    var s1 := s.(merchants := s.merchants - {m}, archived := s.archived + {m});
    if m in s1.rules {
      DropRuleAgrees(s1, env, a, b, m);
    }
  }

  lemma WriteRuleAgrees(s: State, env: Env, a: Address, b: Address, m: Address, rule: Rule)
    ensures Agree(WriteRule(s, env, a, m, rule), WriteRule(s, env, b, m, rule))
  {}

  lemma RuleSettersAgree(s: State, env: Env, signers: seq<Address>, executor: Address, op: Operation)
    requires op.SetSettlementRule? || op.SetDefaultRule?
    requires Zero !in s.merchants && Auth(s, env, signers).Pass? && signers != []
    ensures Agree(Direct(s, env, signers, op), Arm(s, env, executor, op))
  {
    if op.SetSettlementRule? {
      WriteRuleAgrees(s, env, signers[0], executor, op.merchant, op.rule);
    }
  }

  lemma RemovalsAgree(s: State, env: Env, signers: seq<Address>, executor: Address, op: Operation)
    requires op.ClearSettlementRule? || op.UnregisterMerchant?
    requires Auth(s, env, signers).Pass? && signers != []
    ensures Agree(Direct(s, env, signers, op), Arm(s, env, executor, op))
  {
    if op.UnregisterMerchant? {
      UnregisterAgrees(s, env, signers[0], executor, op.merchant);
    } else if op.merchant in s.rules && !s.paused {
      DropRuleAgrees(s, env, signers[0], executor, op.merchant);
    }
  }

  lemma DirectAgreesWithArm(s: State, env: Env, signers: seq<Address>, executor: Address, op: Operation)
    requires !op.CancelRecovery? && !op.TransferAdmin? && !op.Upgrade?
    requires Zero !in s.merchants && Auth(s, env, signers).Pass? && signers != []
    requires op.RegisterMerchant? ==> op.merchant in env.auth
    ensures Agree(Direct(s, env, signers, op), Arm(s, env, executor, op))
  {
    if op.SetSettlementRule? || op.SetDefaultRule? {
      RuleSettersAgree(s, env, signers, executor, op);
    } else if op.ClearSettlementRule? || op.UnregisterMerchant? {
      RemovalsAgree(s, env, signers, executor, op);
    }
  }

  /** Authorization aside, each setter accepts the same inputs directly and through the timelock and
      leaves the same stored state, from every reachable state. */
  lemma DirectAndTimelockedAgree(h: Host, t: seq<Rec>, n: nat, env: Env, signers: seq<Address>, executor: Address,
                                 op: Operation)
    requires ValidRun(h, t) && 0 < |t| && n <= |t|
    requires !op.CancelRecovery? && !op.TransferAdmin? && !op.Upgrade?
    requires Auth(StateAt(t, n), env, signers).Pass? && signers != []
    requires op.RegisterMerchant? ==> op.merchant in env.auth
    ensures Agree(Direct(StateAt(t, n), env, signers, op), Arm(StateAt(t, n), env, executor, op))
  {
    RegistryInvariant(h, t, n);
    DirectAgreesWithArm(StateAt(t, n), env, signers, executor, op);
  }
}
