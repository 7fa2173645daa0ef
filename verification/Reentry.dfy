/** store_payment_reference when the governance calls it makes may call back into any entry point: a
    committed transaction is a chain of ordinary invocations and of the store's own small moves. */
module Reentry {
  import opened Types
  import opened Fees
  import opened Entry
  import opened Runs
  import opened Frames
  import opened Ledger
  import opened EventLog

  /** A store with what governance answers it and the calls made while each answer is computed, or any
      invocation at all. */
  datatype Inner =
    | Storing(merchant: Address, reference: Reference, amount: i128, env: Env, view: GovView,
              atMin: seq<Inner>, atBypass: seq<Inner>, atFee: seq<Inner>)
    | Plain(call: Call, env: Env)

  /** What one move of a transaction does; a commit names the payment, the rule it is charged at and the
      answers its store was given. */
  datatype Deed =
    | Invoked(call: Call)
    | Reserving(key: PayKey)
    | Caching(view: GovView)
    | Committing(key: PayKey, amount: i128, rule: Rule, view: GovView)

  datatype Move = Move(pre: State, deed: Deed, env: Env, post: State)

  /** The call with everything nested in it: the state it commits and the moves that led there. What
      aborts, and all that a failing governance call did, is rolled back and leaves no move. */
  function Run(h: Host, s: State, c: Inner): Result<(State, seq<Move>)>
    decreases c, 2
  {
    match c
    case Plain(call, env) =>
      (match Apply(h, s, call, env) case Err(e) => Err(e) case Ok(s') => Ok((s', [Move(s, Invoked(call), env, s')])))
    case Storing(merchant, reference, amount, env, view, atMin, _, _) =>
      var g := StoreGuard(s, env.auth, merchant, reference);
      if g.Fail? then Err(g.error)
      else
        var (s0, l0) := During(h, s, view.minPayment.ParamCallFailed?, atMin);
        match Reserve(s0, view.minPayment, merchant, reference, amount)
        case Err(e) => Err(e)
        case Ok(s1) =>
          match FindRule(h, s1, c)
          case Err(e) => Err(e)
          case Ok((s2, rule, l2)) => Commit(s0, l0, s1, s2, l2, c, rule)
  }

  function Commit(s0: State, l0: seq<Move>, s1: State, s2: State, l2: seq<Move>, c: Inner, rule: Rule)
    : Result<(State, seq<Move>)>
    requires c.Storing?
  {
    var key := (c.merchant, c.reference);
    match CommitPayment(s2, c.env.sequence, key, rule, SplitAt(c.amount, rule))
    case Err(e) => Err(e)
    case Ok(s') =>
      Ok((s', l0 + [Move(s0, Reserving(key), c.env, s1)] + l2 + [Closing(s2, c, rule, s')]))
  }

  /** The last move of a store. */
  function Closing(s2: State, c: Inner, rule: Rule, s': State): Move
    requires c.Storing?
  {
    Move(s2, Committing((c.merchant, c.reference), c.amount, rule, c.view), c.env, s')
  }

  /** read_rule_or_default with the calls nested in its two governance calls. */
  function FindRule(h: Host, s: State, c: Inner): Result<(State, Rule, seq<Move>)>
    requires c.Storing?
    decreases c, 1
  {
    if c.merchant in s.rules then Ok((s, s.rules[c.merchant], []))
    else if s.defaultRule.Some? then Ok((s, s.defaultRule.value, []))
    else
      var (s1, l1) := During(h, s, c.view.bypass.ParamCallFailed?, c.atBypass);
      if c.view.bypass == ParamValue(1) then Ok((s1, BOOTSTRAP_RULE, l1))
      else
        var (s2, l2) := During(h, s1, c.view.fee.FeeCallFailed?, c.atFee);
        match GovernanceRule(s2.cachedRule, c.view)
        case Err(e) => Err(e)
        case Ok((found, cached)) =>
          var s3 := s2.(cachedRule := cached);
          Ok((s3, if found.Some? then found.value else BOOTSTRAP_RULE,
              l1 + l2 + [Move(s2, Caching(c.view), c.env, s3)]))
  }

  /** The calls made during one governance call; a failing call leaves no trace. */
  function During(h: Host, s: State, failed: bool, cs: seq<Inner>): (State, seq<Move>)
    decreases cs, 1
  {
    if failed then (s, []) else RunAll(h, s, cs)
  }

  /** A sequence of calls, or of whole transactions; an aborted one changes nothing. */
  function RunAll(h: Host, s: State, cs: seq<Inner>): (State, seq<Move>)
    decreases cs, 0
  {
    if cs == [] then (s, [])
    else
      match Run(h, s, cs[0])
      case Err(_) => RunAll(h, s, cs[1..])
      case Ok((s', first)) =>
        var (s'', rest) := RunAll(h, s', cs[1..]);
        (s'', first + rest)
  }

  // ---- Chains of moves ----------------------------------------------------------------------------------

  /** Registered now or once. */
  predicate Known(s: State, m: Address) { m in s.merchants || m in s.archived }

  /** The move is an accepted invocation, or touches only what its name says. */
  ghost predicate MoveOk(h: Host, v: Move) {
    match v.deed
    case Invoked(call) => Apply(h, v.pre, call, v.env) == Ok(v.post)
    case Reserving(k) =>
      && k !in v.pre.payments && Known(v.pre, k.0)
      && v.post == v.pre.(payments := v.pre.payments[k := Placeholder(k.0)])
    case Caching(view) =>
      && v.post == v.pre.(cachedRule := v.post.cachedRule)
      && GovernanceRule(v.pre.cachedRule, view).Ok?
      && v.post.cachedRule == GovernanceRule(v.pre.cachedRule, view).value.1
    case Committing(k, amount, _, view) =>
      && Known(v.pre, k.0) && CountOf(v.pre.counts, k.0) < U32_MAX
      && k in v.post.payments && RecordOk(k, v.post.payments[k])
      && v.post.payments[k].amount == amount >= MinPayment(view.minPayment)
      && v.post == v.pre.(payments := v.pre.payments[k := v.post.payments[k]],
                          counts := v.pre.counts[k.0 := CountOf(v.pre.counts, k.0) + 1],
                          log := v.post.log)
      && Quiet(v.pre.log, v.post.log)
  }

  /** The moves lead from s to s' without a gap. */
  ghost predicate Linked(s: State, vs: seq<Move>, s': State) {
    if vs == [] then s' == s
    else
      && vs[0].pre == s && vs[|vs| - 1].post == s'
      && forall i, j | 0 <= i < j < |vs| && j == i + 1 :: vs[j].pre == vs[i].post
  }

  ghost predicate ChainOk(h: Host, s: State, vs: seq<Move>, s': State) {
    Linked(s, vs, s') && forall i | 0 <= i < |vs| :: MoveOk(h, vs[i])
  }

  lemma ChainThenChain(h: Host, a: State, us: seq<Move>, b: State, vs: seq<Move>, c: State)
    requires ChainOk(h, a, us, b) && ChainOk(h, b, vs, c)
    ensures ChainOk(h, a, us + vs, c)
  {
    var ws := us + vs;
    if us == [] {
      assert ws == vs;
    } else if vs == [] {
      assert ws == us;
    } else {
      forall i, j | 0 <= i < j < |ws| && j == i + 1 ensures ws[j].pre == ws[i].post {
        if j < |us| {
          assert ws[i] == us[i] && ws[j] == us[j];
        } else if i >= |us| {
          assert ws[i] == vs[i - |us|] && ws[j] == vs[j - |us|];
        }
      }
      assert ws[|ws| - 1] == vs[|vs| - 1];
    }
  }

  lemma ChainOfOne(h: Host, v: Move)
    requires MoveOk(h, v)
    ensures ChainOk(h, v.pre, [v], v.post)
  {}

  // ---- Once known, always known ---------------------------------------------------------------------------

  lemma UnregisterKeepsKnown(s: State, env: Env, who: Address, merchant: Address, m: Address)
    requires Unregister(s, env, who, merchant).Ok? && Known(s, m)
    ensures Known(Unregister(s, env, who, merchant).value, m)
  {}

  lemma ArmKeepsKnown(s: State, env: Env, executor: Address, op: Operation, m: Address)
    requires Arm(s, env, executor, op).Ok? && Known(s, m)
    ensures Known(Arm(s, env, executor, op).value, m)
  {
    if op.UnregisterMerchant? {
      UnregisterKeepsKnown(s, env, executor, op.merchant, m);
    }
  }

  lemma RegistryCallKeepsKnown(h: Host, r: Rec, m: Address)
    requires Legit(h, r) && r.ok && IsRegistryCall(r.call) && Known(r.pre, m)
    ensures Known(r.post, m)
  {
    if r.call.UnregisterMerchant? {
      UnregisterKeepsKnown(r.pre, r.env, r.call.signers[0], r.call.merchant, m);
    }
  }

  lemma MoveKeepsKnown(h: Host, v: Move, m: Address)
    requires MoveOk(h, v) && Known(v.pre, m)
    ensures Known(v.post, m)
  {
    if v.deed.Invoked? {
      var r := Rec(v.pre, v.deed.call, v.env, v.post, true);
      if IsAuthorityCall(r.call) {
        AuthorityFrame(h, r);
      } else if IsQueueCall(r.call) {
        QueueFrame(h, r);
      } else if IsLedgerCall(r.call) {
        LedgerFrame(h, r);
      } else if IsReadCall(r.call) {
        ReadFrame(h, r);
      } else if IsRegistryCall(r.call) {
        RegistryCallKeepsKnown(h, r, m);
      } else {
        ExecuteFrame(h, r);
        ArmKeepsKnown(Consume(r.pre, {h.Key(r.call.operation)}), r.env, r.call.executor, r.call.operation, m);
      }
    }
  }

  lemma {:induction false} ChainKeepsKnown(h: Host, s: State, vs: seq<Move>, s': State, m: Address)
    requires ChainOk(h, s, vs, s') && Known(s, m)
    ensures Known(s', m)
    decreases |vs|
  {
    if vs == [] {
    } else {
      var n := |vs| - 1;
      assert vs[..n] != [] ==> vs[..n][0] == vs[0] && vs[n].pre == vs[n - 1].post;
      ChainKeepsKnown(h, s, vs[..n], vs[n].pre, m);
      MoveKeepsKnown(h, vs[n], m);
    }
  }

  // ---- Every transaction is a chain -------------------------------------------------------------------------

  lemma CommitMoveOk(s2: State, c: Inner, rule: Rule, s': State)
    requires c.Storing? && Known(s2, c.merchant) && c.amount >= MinPayment(c.view.minPayment)
    requires CommitPayment(s2, c.env.sequence, (c.merchant, c.reference), rule, SplitAt(c.amount, rule)) == Ok(s')
    ensures forall h :: MoveOk(h, Closing(s2, c, rule, s'))
  {
    var key := (c.merchant, c.reference);
    SplitKeepsGross(c.amount, rule);
    CommittedRecordIsSplit(s2, c.env.sequence, key, c.amount, rule, s');
    CommitIsQuiet(s2, c.env.sequence, key, rule, SplitAt(c.amount, rule));
  }

  lemma CommitIsQuiet(s: State, sequence: u32, key: PayKey, rule: Rule, computed: Result<FeeSplit>)
    requires CommitPayment(s, sequence, key, rule, computed).Ok?
    ensures Quiet(s.log, CommitPayment(s, sequence, key, rule, computed).value.log)
  {}

  /** The stages of a store that commits. */
  lemma StoringUnfolds(h: Host, s: State, c: Inner)
    returns (s0: State, l0: seq<Move>, s1: State, s2: State, rule: Rule, l2: seq<Move>)
    requires c.Storing? && Run(h, s, c).Ok?
    ensures c.merchant in s.merchants && c.merchant in c.env.auth && c.amount >= MinPayment(c.view.minPayment)
    ensures During(h, s, c.view.minPayment.ParamCallFailed?, c.atMin) == (s0, l0)
    ensures (c.merchant, c.reference) !in s0.payments
    ensures s1 == s0.(payments := s0.payments[(c.merchant, c.reference) := Placeholder(c.merchant)])
    ensures FindRule(h, s1, c) == Ok((s2, rule, l2))
    ensures Run(h, s, c) == Commit(s0, l0, s1, s2, l2, c, rule)
  {
    var first := During(h, s, c.view.minPayment.ParamCallFailed?, c.atMin);
    s0, l0 := first.0, first.1;
    s1 := Reserve(s0, c.view.minPayment, c.merchant, c.reference, c.amount).value;
    var found := FindRule(h, s1, c).value;
    s2, rule, l2 := found.0, found.1, found.2;
  }

  lemma StagesChain(h: Host, s: State, l0: seq<Move>, s0: State, s1: State, l2: seq<Move>, s2: State, c: Inner,
                    rule: Rule)
    requires c.Storing? && Known(s0, c.merchant) && c.amount >= MinPayment(c.view.minPayment)
    requires ChainOk(h, s, l0, s0) && ChainOk(h, s1, l2, s2)
    requires (c.merchant, c.reference) !in s0.payments
    requires s1 == s0.(payments := s0.payments[(c.merchant, c.reference) := Placeholder(c.merchant)])
    requires Commit(s0, l0, s1, s2, l2, c, rule).Ok?
    ensures var (s', vs) := Commit(s0, l0, s1, s2, l2, c, rule).value; ChainOk(h, s, vs, s')
  {
    var key := (c.merchant, c.reference);
    var s' := Commit(s0, l0, s1, s2, l2, c, rule).value.0;
    var opening, closing := Move(s0, Reserving(key), c.env, s1), Closing(s2, c, rule, s');
    ChainKeepsKnown(h, s1, l2, s2, c.merchant);
    CommitMoveOk(s2, c, rule, s');
    ChainOfOne(h, opening);
    ChainOfOne(h, closing);
    ChainThenChain(h, s, l0, s0, [opening], s1);
    ChainThenChain(h, s, l0 + [opening], s1, l2, s2);
    ChainThenChain(h, s, l0 + [opening] + l2, s2, [closing], s');
  }

  /** Serialization: however calls nest, a committed transaction is a gapless chain of accepted
      invocations and reserve, cache and commit moves from the state it found to the one it leaves. */
  lemma {:induction false} RunIsChain(h: Host, s: State, c: Inner)
    requires Run(h, s, c).Ok?
    ensures var (s', vs) := Run(h, s, c).value; ChainOk(h, s, vs, s')
    decreases c, 2
  {
    match c
    case Plain(call, env) => ChainOfOne(h, Run(h, s, c).value.1[0]);
    case Storing(_, _, _, _, _, _, _, _) =>
      var s0, l0, s1, s2, rule, l2 := StoringUnfolds(h, s, c);
      DuringIsChain(h, s, c.view.minPayment.ParamCallFailed?, c.atMin);
      ChainKeepsKnown(h, s, l0, s0, c.merchant);
      FindRuleIsChain(h, s1, c);
      StagesChain(h, s, l0, s0, s1, l2, s2, c, rule);
  }

  lemma {:induction false} FindRuleIsChain(h: Host, s: State, c: Inner)
    requires c.Storing? && FindRule(h, s, c).Ok?
    ensures var (s', _, vs) := FindRule(h, s, c).value; ChainOk(h, s, vs, s')
    decreases c, 1
  {
    if c.merchant !in s.rules && s.defaultRule.None? {
      var (s1, l1) := During(h, s, c.view.bypass.ParamCallFailed?, c.atBypass);
      DuringIsChain(h, s, c.view.bypass.ParamCallFailed?, c.atBypass);
      if c.view.bypass != ParamValue(1) {
        var (s2, l2) := During(h, s1, c.view.fee.FeeCallFailed?, c.atFee);
        DuringIsChain(h, s1, c.view.fee.FeeCallFailed?, c.atFee);
        var s3 := FindRule(h, s, c).value.0;
        ChainThenChain(h, s, l1, s1, l2, s2);
        ChainOfOne(h, Move(s2, Caching(c.view), c.env, s3));
        ChainThenChain(h, s, l1 + l2, s2, [Move(s2, Caching(c.view), c.env, s3)], s3);
      }
    }
  }

  lemma {:induction false} DuringIsChain(h: Host, s: State, failed: bool, cs: seq<Inner>)
    ensures var (s', vs) := During(h, s, failed, cs); ChainOk(h, s, vs, s')
    decreases cs, 1
  {
    if !failed {
      RunAllIsChain(h, s, cs);
    }
  }

  lemma {:induction false} RunAllIsChain(h: Host, s: State, cs: seq<Inner>)
    ensures var (s', vs) := RunAll(h, s, cs); ChainOk(h, s, vs, s')
    decreases cs, 0
  {
    if cs == [] {
    } else {
      var first := Run(h, s, cs[0]);
      if first.Ok? {
        RunIsChain(h, s, cs[0]);
        RunAllIsChain(h, first.value.0, cs[1..]);
        var rest := RunAll(h, first.value.0, cs[1..]);
        ChainThenChain(h, s, first.value.1, first.value.0, rest.1, rest.0);
      } else {
        RunAllIsChain(h, s, cs[1..]);
      }
    }
  }

  // ---- Nothing nested -----------------------------------------------------------------------------------------

  lemma NoCallbacksResolve(h: Host, s: State, c: Inner)
    requires c.Storing? && c.atBypass == [] && c.atFee == [] && c.env.gov(s.governance) == c.view
    ensures match FindRule(h, s, c)
            case Ok((s', rule, _)) =>
              Resolve(s, c.env, c.merchant).Ok? && Resolve(s, c.env, c.merchant).value.0 == s'
              && Resolve(s, c.env, c.merchant).value.1.rule == rule
            case Err(e) => Resolve(s, c.env, c.merchant) == Err(e)
  {
    assert RunAll(h, s, []) == (s, []);
  }

  /** Without callbacks the store is the ordinary entry point. */
  lemma NoCallbacksIsStorePayment(h: Host, s: State, c: Inner)
    requires c.Storing? && c.atMin == [] && c.atBypass == [] && c.atFee == []
    requires c.env.gov(s.governance) == c.view
    ensures var direct := DoStorePayment(s, c.env, c.merchant, c.reference, c.amount);
            match Run(h, s, c)
            case Ok((s', _)) => direct == Ok(s')
            case Err(e) => direct == Err(e)
  {
    assert RunAll(h, s, []) == (s, []);
    if StoreGuard(s, c.env.auth, c.merchant, c.reference).Pass? {
      var reserved := Reserve(s, c.view.minPayment, c.merchant, c.reference, c.amount);
      if reserved.Ok? {
        NoCallbacksResolve(h, reserved.value, c);
      }
    }
  }
}
