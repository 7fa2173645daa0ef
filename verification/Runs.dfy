/** Runs of the settlement contract: chains of invocations at nondecreasing ledger times. */
module Runs {
  import opened Types
  import opened Multisig
  import opened Entry

  /** One invocation with the committed states around it. */
  datatype Rec = Rec(pre: State, call: Call, env: Env, post: State, ok: bool)

  ghost predicate Legit(h: Host, r: Rec) {
    match Apply(h, r.pre, r.call, r.env)
    case Ok(s') => r.ok && r.post == s'
    case Err(_) => !r.ok && r.post == r.pre
  }

  /** The state a successful init leaves. */
  predicate Initial(s: State) {
    && AdminsOk(s.admins, s.threshold) && s.governance != Zero && s.recovery != Zero
    && s.pending == None && !s.paused && s.queue == map[] && s.queueCount == 0
    && s.merchants == {} && s.archived == {} && s.rules == map[] && s.defaultRule == None
    && s.cachedRule == None && s.payments == map[] && s.counts == map[] && s.log == []
  }

  lemma InitializeYieldsInitial(env: Env, deployer: Address, admins: seq<Address>, threshold: u32,
                                governance: Address, recovery: Address)
    ensures Initialize(env, deployer, admins, threshold, governance, recovery).Ok? <==>
              && AdminsOk(admins, threshold) && governance != Zero && recovery != Zero
              && deployer in env.auth && forall a | a in admins :: a in env.auth
    ensures var r := Initialize(env, deployer, admins, threshold, governance, recovery);
            r.Ok? ==> Initial(r.value) && r.value.admins == admins && r.value.threshold == threshold
                      && r.value.governance == governance && r.value.recovery == recovery
  {}

  /** Consecutive invocations: states chain and time never runs backwards. */
  ghost predicate Chained(t: seq<Rec>) {
    forall i, j | 0 <= i < j < |t| && j == i + 1 ::
      t[j].pre == t[i].post && t[i].env.now <= t[j].env.now
  }

  ghost predicate ValidRun(h: Host, t: seq<Rec>) {
    && Chained(t)
    && (forall i | 0 <= i < |t| :: Legit(h, t[i]))
    && (|t| > 0 ==> Initial(t[0].pre))
  }

  /** The record of one invocation made from s. */
  function Invocation(h: Host, s: State, call: Call, env: Env): (r: Rec)
    ensures Legit(h, r)
  {
    Rec(s, call, env, Step(h, s, call, env), Apply(h, s, call, env).Ok?)
  }

  lemma RunExtends(h: Host, t: seq<Rec>, r: Rec)
    requires ValidRun(h, t) && Legit(h, r)
    requires if t == [] then Initial(r.pre) else r.pre == t[|t| - 1].post && t[|t| - 1].env.now <= r.env.now
    ensures ValidRun(h, t + [r])
  {
    var u := t + [r];
    forall i, j | 0 <= i < j < |u| && j == i + 1 ensures u[j].pre == u[i].post && u[i].env.now <= u[j].env.now {
      assert j < |t| ==> u[j] == t[j] && u[i] == t[i];
    }
  }

  lemma RunOfOne(h: Host, r: Rec)
    requires Legit(h, r) && Initial(r.pre)
    ensures ValidRun(h, [r])
  {}

  /** Two invocations in a row from an initial state. */
  lemma RunOfTwo(h: Host, r0: Rec, r1: Rec)
    requires Legit(h, r0) && Legit(h, r1) && Initial(r0.pre) && r1.pre == r0.post && r0.env.now <= r1.env.now
    ensures ValidRun(h, [r0, r1])
  {}

  /** Three invocations in a row from an initial state. */
  lemma RunOfThree(h: Host, r0: Rec, r1: Rec, r2: Rec)
    requires Legit(h, r0) && Legit(h, r1) && Legit(h, r2) && Initial(r0.pre)
    requires r1.pre == r0.post && r2.pre == r1.post && r0.env.now <= r1.env.now <= r2.env.now
    ensures ValidRun(h, [r0, r1, r2])
  {}

  lemma {:induction false} TimeIsMonotone(t: seq<Rec>, i: nat, j: nat)
    requires Chained(t) && i <= j < |t|
    ensures t[i].env.now <= t[j].env.now
    decreases j - i
  {
    if i == j {
    } else {
      TimeIsMonotone(t, i, j - 1);
      assert t[j].pre == t[j].pre;
    }
  }
}
