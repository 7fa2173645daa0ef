/** Where every rule in force comes from, over whole runs. */
module RuleOrigins {
  import opened Types
  import opened Entry
  import opened Runs
  import opened Frames
  import opened Timelock
  import opened Verdicts
  import opened Effects

  /** An accepted setter, direct or timelocked, was given this rule for m. */
  predicate Gives(r: Rec, m: Address, rule: Rule) {
    && r.ok
    && (|| (r.call.SetSettlementRule? && r.call.merchant == m && r.call.rule == rule)
        || (r.call.Execute? && r.call.operation == Operation.SetSettlementRule(m, rule)))
  }

  /** An accepted call set, cleared or retired m's rule. */
  predicate Rewrites(r: Rec, m: Address) {
    && r.ok
    && (|| ((r.call.SetSettlementRule? || r.call.ClearSettlementRule? || r.call.UnregisterMerchant?)
            && r.call.merchant == m)
        || (&& r.call.Execute?
            && var op := r.call.operation;
               && (op.SetSettlementRule? || op.ClearSettlementRule? || op.UnregisterMerchant?) && op.merchant == m))
  }

  predicate GivesDefault(r: Rec, rule: Rule) {
    && r.ok
    && (|| (r.call.SetDefaultRule? && r.call.rule == rule)
        || (r.call.Execute? && r.call.operation == Operation.SetDefaultRule(rule)))
  }

  predicate RewritesDefault(r: Rec) {
    r.ok && (r.call.SetDefaultRule? || (r.call.Execute? && r.call.operation.SetDefaultRule?))
  }

  predicate HasRule(s: State, m: Address, rule: Rule) { m in s.rules && s.rules[m] == rule }

  ghost predicate OriginEffect(r: Rec, m: Address, rule: Rule) {
    && (HasRule(r.post, m, rule) <==> Gives(r, m, rule) || (HasRule(r.pre, m, rule) && !Rewrites(r, m)))
    && (r.post.defaultRule == Some(rule) <==>
          GivesDefault(r, rule) || (r.pre.defaultRule == Some(rule) && !RewritesDefault(r)))
  }

  lemma RegistryOrigin(h: Host, r: Rec, m: Address, rule: Rule)
    requires Legit(h, r) && r.ok && IsRegistryCall(r.call)
    ensures OriginEffect(r, m, rule)
  {
    RegistryEffect(h, r.pre, r.call, r.env);
  }

  lemma ArmOrigin(s: State, env: Env, who: Address, op: Operation, s': State, m: Address, rule: Rule)
    requires ArmLeaves(s, env, who, op, s')
    ensures HasRule(s', m, rule) <==>
              || op == Operation.SetSettlementRule(m, rule)
              || (HasRule(s, m, rule)
                  && (op.SetSettlementRule? || op.ClearSettlementRule? || op.UnregisterMerchant? ==> op.merchant != m))
    ensures s'.defaultRule == Some(rule) <==>
              op == Operation.SetDefaultRule(rule) || (s.defaultRule == Some(rule) && !op.SetDefaultRule?)
  {}

  lemma StepOrigin(h: Host, r: Rec, m: Address, rule: Rule)
    requires Legit(h, r)
    ensures OriginEffect(r, m, rule)
  {
    if !r.ok {
      AbortFrame(h, r);
    } else if IsAuthorityCall(r.call) {
      AuthorityFrame(h, r);
    } else if IsQueueCall(r.call) {
      QueueFrame(h, r);
    } else if IsLedgerCall(r.call) {
      LedgerFrame(h, r);
    } else if IsReadCall(r.call) {
      ReadFrame(h, r);
    } else if IsRegistryCall(r.call) {
      RegistryOrigin(h, r, m, rule);
    } else {
      ExecuteFrame(h, r);
      var s := Consume(r.pre, {h.Key(r.call.operation)});
      ArmEffect(s, r.env, r.call.executor, r.call.operation);
      ArmOrigin(s, r.env, r.call.executor, r.call.operation, Arm(s, r.env, r.call.executor, r.call.operation).value,
                m, rule);
    }
  }

  predicate GivenSince(t: seq<Rec>, k: int, n: nat, m: Address, rule: Rule)
    requires n <= |t|
  {
    0 <= k < n && Gives(t[k], m, rule) && forall j | k < j < n :: !Rewrites(t[j], m)
  }

  predicate DefaultSince(t: seq<Rec>, k: int, n: nat, rule: Rule)
    requires n <= |t|
  {
    0 <= k < n && GivesDefault(t[k], rule) && forall j | k < j < n :: !RewritesDefault(t[j])
  }

  ghost predicate OriginRun(t: seq<Rec>, m: Address, rule: Rule) {
    && Chained(t) && (forall i | 0 <= i < |t| :: OriginEffect(t[i], m, rule))
    && (|t| > 0 ==> t[0].pre.rules == map[] && t[0].pre.defaultRule == None)
  }

  lemma GivenStep(t: seq<Rec>, k: int, n: nat, m: Address, rule: Rule)
    requires n < |t|
    ensures GivenSince(t, k, n + 1, m, rule) <==>
              (k == n && Gives(t[n], m, rule)) || (GivenSince(t, k, n, m, rule) && !Rewrites(t[n], m))
    ensures DefaultSince(t, k, n + 1, rule) <==>
              (k == n && GivesDefault(t[n], rule)) || (DefaultSince(t, k, n, rule) && !RewritesDefault(t[n]))
  {}

  ghost predicate Given(t: seq<Rec>, n: nat, m: Address, rule: Rule)
    requires n <= |t|
  {
    exists k :: GivenSince(t, k, n, m, rule)
  }

  ghost predicate GivenDefault(t: seq<Rec>, n: nat, rule: Rule)
    requires n <= |t|
  {
    exists k :: DefaultSince(t, k, n, rule)
  }

  lemma GivenGrows(t: seq<Rec>, n: nat, next: nat, m: Address, rule: Rule)
    requires n < |t| && next == n + 1
    ensures Given(t, next, m, rule) <==> Gives(t[n], m, rule) || (Given(t, n, m, rule) && !Rewrites(t[n], m))
    ensures GivenDefault(t, next, rule) <==>
              GivesDefault(t[n], rule) || (GivenDefault(t, n, rule) && !RewritesDefault(t[n]))
  {
    forall k
      ensures GivenSince(t, k, next, m, rule) <==>
                (k == n && Gives(t[n], m, rule)) || (GivenSince(t, k, n, m, rule) && !Rewrites(t[n], m))
      ensures DefaultSince(t, k, next, rule) <==>
                (k == n && GivesDefault(t[n], rule)) || (DefaultSince(t, k, n, rule) && !RewritesDefault(t[n]))
    {
      GivenStep(t, k, n, m, rule);
    }
    if Gives(t[n], m, rule) {
      assert GivenSince(t, n, next, m, rule);
    } else if Given(t, n, m, rule) && !Rewrites(t[n], m) {
      var k :| GivenSince(t, k, n, m, rule);
      assert GivenSince(t, k, next, m, rule);
    }
    if GivesDefault(t[n], rule) {
      assert DefaultSince(t, n, next, rule);
    } else if GivenDefault(t, n, rule) && !RewritesDefault(t[n]) {
      var k :| DefaultSince(t, k, n, rule);
      assert DefaultSince(t, k, next, rule);
    }
  }

  lemma {:induction false} OriginHistory(t: seq<Rec>, n: nat, m: Address, rule: Rule)
    requires OriginRun(t, m, rule) && 0 < |t| && n <= |t|
    ensures HasRule(StateAt(t, n), m, rule) <==> Given(t, n, m, rule)
    ensures StateAt(t, n).defaultRule == Some(rule) <==> GivenDefault(t, n, rule)
  {
    if n == 0 {
    } else {
      OriginHistory(t, n - 1, m, rule);
      assert StateAt(t, n - 1) == t[n - 1].pre && StateAt(t, n) == t[n - 1].post && OriginEffect(t[n - 1], m, rule);
      GivenGrows(t, n - 1, n, m, rule);
    }
  }

  /** At every point of every run a merchant has a rule exactly when an accepted setter, direct or
      timelocked, was given that rule for it and nothing set, cleared or retired it since; likewise the
      default rule. */
  lemma RulesWereGiven(h: Host, t: seq<Rec>, n: nat, m: Address, rule: Rule)
    requires ValidRun(h, t) && 0 < |t| && n <= |t|
    ensures m in StateAt(t, n).rules && StateAt(t, n).rules[m] == rule <==> exists k :: GivenSince(t, k, n, m, rule)
    ensures StateAt(t, n).defaultRule == Some(rule) <==> exists k :: DefaultSince(t, k, n, rule)
  {
    forall i | 0 <= i < |t| ensures OriginEffect(t[i], m, rule) {
      StepOrigin(h, t[i], m, rule);
    }
    OriginHistory(t, n, m, rule);
  }

  lemma GivenPassesChecks(h: Host, r: Rec, m: Address, rule: Rule)
    requires Legit(h, r) && (Gives(r, m, rule) || GivesDefault(r, rule))
    ensures InBounds(rule).Pass? && Ceiling(r.env.gov(r.pre.governance).ceiling, rule).Pass?
  {
    if r.call.Execute? {
      ExecuteAsVerdict(h, r.pre, r.call, r.env);
    } else {
      SetterAsVerdict(h, r.pre, r.call, r.env);
    }
  }

  lemma CeilingHolds(answer: FeeAnswer, rule: Rule)
    requires Ceiling(answer, rule).Pass?
    ensures answer.FeeReturned? && (!answer.val.MapVal? || exists p, n :: answer.val == Config(p, n))
    ensures forall p, n | answer.val == Config(p, n) :: rule.platformBps <= p && rule.networkBps <= n
  {}

  /** The rule is within the protocol bounds, governance answered this call, and if it answered a config
      the rule lies under it, rate by rate. */
  ghost predicate Checked(r: Rec, rule: Rule) {
    var answer := r.env.gov(r.pre.governance).ceiling;
    && RuleInBounds(rule) && answer.FeeReturned?
    && (forall p, n | answer.val == Config(p, n) :: rule.platformBps <= p && rule.networkBps <= n)
    && (!answer.val.MapVal? || exists p, n :: answer.val == Config(p, n))
  }

  lemma GivenIsChecked(h: Host, r: Rec, m: Address, rule: Rule)
    requires Legit(h, r) && (Gives(r, m, rule) || GivesDefault(r, rule))
    ensures Checked(r, rule)
  {
    GivenPassesChecks(h, r, m, rule);
    CeilingHolds(r.env.gov(r.pre.governance).ceiling, rule);
  }

  /** And whichever setter gave a rule that is stored, it was checked there and then. */
  lemma StoredRulesWereChecked(h: Host, t: seq<Rec>, n: nat, m: Address, rule: Rule)
    requires ValidRun(h, t) && 0 < |t| && n <= |t|
    ensures HasRule(StateAt(t, n), m, rule) ==> exists k :: GivenSince(t, k, n, m, rule) && Checked(t[k], rule)
    ensures StateAt(t, n).defaultRule == Some(rule) ==>
              exists k :: DefaultSince(t, k, n, rule) && Checked(t[k], rule)
  {
    RulesWereGiven(h, t, n, m, rule);
    if HasRule(StateAt(t, n), m, rule) {
      var k :| GivenSince(t, k, n, m, rule);
      GivenIsChecked(h, t[k], m, rule);
    }
    if StateAt(t, n).defaultRule == Some(rule) {
      var k :| DefaultSince(t, k, n, rule);
      GivenIsChecked(h, t[k], m, rule);
    }
  }
}
