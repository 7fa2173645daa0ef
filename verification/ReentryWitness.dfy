/** Transactions that show why a nested prune must not take a reserved key. */
module ReentryWitness {
  import opened Types
  import opened Multisig
  import opened Fees
  import opened Entry
  import opened Runs
  import opened Ledger
  import opened Registry
  import opened Reentry
  import opened ReentryLedger

  /** The minimum call fails, the bypass answers one: payments settle at the bootstrap rule, and calls
      can nest in the bypass answer. */
  const BYPASSED := GovView(ParamValue(1), ParamCallFailed, FeeCallFailed, FeeCallFailed)

  /** A store of (m, r) during whose bypass answer the given calls are made. */
  function StoreAround(m: Address, r: Reference, amount: i128, env: Env, inside: seq<Inner>): Inner {
    Storing(m, r, amount, env, BYPASSED, [], inside, [])
  }

  /** What a witness starts from: an unpaused contract with a registered, consenting merchant, authenticated
      admins, no rules, and an amount the contract takes. */
  predicate Ready(s: State, env: Env, m: Address, amount: i128) {
    && AdminsOk(s.admins, s.threshold) && !s.paused && m in s.merchants && m in env.auth
    && s.rules == map[] && s.defaultRule == None
    && Payable(amount)
    && forall a | a in s.admins :: a in env.auth
  }

  /** The store adds its record and counts it once. */
  predicate Adds(a: State, k: PayKey, amount: i128, b: State) {
    && k in b.payments && b.payments == a.payments[k := b.payments[k]] && b.payments[k].amount == amount
    && CountOf(a.counts, k.0) < U32_MAX && b.counts == a.counts[k.0 := CountOf(a.counts, k.0) + 1]
  }

  /** The store commits on top of whatever its nested calls left. */
  lemma StoreAroundCommits(h: Host, s: State, env: Env, m: Address, r: Reference, amount: i128, inside: seq<Inner>,
                           mid: State) returns (s': State, vs: seq<Move>)
    requires Ready(s, env, m, amount) && r != ZeroReference && (m, r) !in s.payments
    requires RunAll(h, s.(payments := s.payments[(m, r) := Placeholder(m)]), inside).0 == mid
    requires CountOf(mid.counts, m) < U32_MAX
    ensures Run(h, s, StoreAround(m, r, amount, env, inside)) == Ok((s', vs)) && Adds(mid, (m, r), amount, s')
  {
    StoreAroundUnfolds(h, s, env, m, r, amount, inside);
    s' := PayableCommits(mid, env.sequence, (m, r), amount);
    vs := Run(h, s, StoreAround(m, r, amount, env, inside)).value.1;
  }

  lemma PayableCommits(s: State, sequence: u32, key: PayKey, amount: i128) returns (s': State)
    requires Payable(amount) && CountOf(s.counts, key.0) < U32_MAX
    ensures CommitPayment(s, sequence, key, BOOTSTRAP_RULE, SplitAt(amount, BOOTSTRAP_RULE)) == Ok(s')
    ensures Adds(s, key, amount, s')
  {
    PayableMeaning(amount);
    CommitAdds(s, sequence, key, BOOTSTRAP_RULE, SplitAt(amount, BOOTSTRAP_RULE));
    s' := CommitPayment(s, sequence, key, BOOTSTRAP_RULE, SplitAt(amount, BOOTSTRAP_RULE)).value;
  }

  /** Guard, reservation, the nested calls, and the bootstrap rule. */
  lemma StoreAroundUnfolds(h: Host, s: State, env: Env, m: Address, r: Reference, amount: i128, inside: seq<Inner>)
    requires !s.paused && m in s.merchants && m in env.auth && s.rules == map[] && s.defaultRule == None
    requires amount >= MIN_PAYMENT_AMOUNT && r != ZeroReference && (m, r) !in s.payments
    ensures var c, reserved := StoreAround(m, r, amount, env, inside),
                               s.(payments := s.payments[(m, r) := Placeholder(m)]);
            var (mid, moves) := RunAll(h, reserved, inside);
            Run(h, s, c) == Commit(s, [], reserved, mid, moves, c, BOOTSTRAP_RULE)
  {
    var c := StoreAround(m, r, amount, env, inside);
    var reserved := s.(payments := s.payments[(m, r) := Placeholder(m)]);
    BypassedRule(h, reserved, c);
    assert Reserve(s, BYPASSED.minPayment, m, r, amount) == Ok(reserved);
  }

  lemma BypassedRule(h: Host, s: State, c: Inner)
    requires c.Storing? && c.view == BYPASSED && s.rules == map[] && s.defaultRule == None
    ensures var (mid, moves) := RunAll(h, s, c.atBypass); FindRule(h, s, c) == Ok((mid, BOOTSTRAP_RULE, moves))
  {}

  lemma CommitAdds(s: State, sequence: u32, key: PayKey, rule: Rule, computed: Result<FeeSplit>)
    requires computed.Ok? && CountOf(s.counts, key.0) < U32_MAX
    ensures var out := CommitPayment(s, sequence, key, rule, computed);
            && out.Ok? && key in out.value.payments && out.value.payments[key].amount == computed.value.gross
            && out.value.payments == s.payments[key := out.value.payments[key]]
            && out.value.counts == s.counts[key.0 := CountOf(s.counts, key.0) + 1]
  {}

  lemma AdminsPrune(h: Host, s: State, env: Env, m: Address, r: Reference)
    requires AdminsOk(s.admins, s.threshold) && !s.paused && (m, r) in s.payments
    requires forall a | a in s.admins :: a in env.auth
    ensures var s' := Remove(s, m, {(m, r)}).Emit(PaymentPruned(m, r));
            && Apply(h, s, PrunePayment(s.admins, m, r), env) == Ok(s')
            && RunAll(h, s, [Plain(PrunePayment(s.admins, m, r), env)]).0 == s'
  {
    assert AuthOk(s.admins, s.admins, env.auth, s.threshold);
    var c := Plain(PrunePayment(s.admins, m, r), env);
    assert Run(h, s, c).Ok?;
    assert [c][1..] == [];
  }

  lemma OneRecordIsExact(s: State, k: PayKey)
    requires s.payments.Keys == {k} && s.counts == map[k.0 := 1]
    ensures CountsExact(s)
  {
    forall n ensures CountOf(s.counts, n) == |RecordsOf(s.payments, n)| {
      assert RecordsOf(s.payments, n) == if n == k.0 then {k} else {};
    }
  }

  lemma TwoRecordsOneCounted(s: State, k: PayKey, l: PayKey)
    requires s.payments.Keys == {k, l} && k != l && k.0 == l.0 && CountOf(s.counts, k.0) == 1
    ensures RecordsOf(s.payments, k.0) == {k, l} && !CountsExact(s)
  {
    assert RecordsOf(s.payments, k.0) == {k, l};
    assert |{k, l}| == 2;
  }

  /** With one record already counted, a nested prune of the key being stored leaves the counter one short
      of the records: the prune counts down for a record never counted up. */
  lemma NestedPruneBreaksTheCounter(h: Host, s: State, env: Env, m: Address, other: Reference, r: Reference,
                                    amount: i128)
    requires Ready(s, env, m, amount) && r != ZeroReference && r != other
    requires s.payments.Keys == {(m, other)} && s.counts == map[m := 1]
    ensures CountsExact(s)
    ensures var out := Run(h, s, StoreAround(m, r, amount, env, [Plain(PrunePayment(s.admins, m, r), env)]));
            && out.Ok? && CountOf(out.value.0.counts, m) == 1
            && RecordsOf(out.value.0.payments, m) == {(m, other), (m, r)} && !CountsExact(out.value.0)
  {
    OneRecordIsExact(s, (m, other));
    var reserved := s.(payments := s.payments[(m, r) := Placeholder(m)]);
    AdminsPrune(h, reserved, env, m, r);
    var mid := Remove(reserved, m, {(m, r)}).Emit(PaymentPruned(m, r));
    var s', vs := StoreAroundCommits(h, s, env, m, r, amount, [Plain(PrunePayment(s.admins, m, r), env)], mid);
    TwoRecordsOneCounted(s', (m, other), (m, r));
  }

  lemma RunAllStep(h: Host, s: State, c: Inner, cs: seq<Inner>)
    requires Run(h, s, c).Ok?
    ensures RunAll(h, s, [c] + cs).0 == RunAll(h, Run(h, s, c).value.0, cs).0
    ensures RunAll(h, s, [c] + cs).1 == Run(h, s, c).value.1 + RunAll(h, Run(h, s, c).value.0, cs).1
  {
    assert ([c] + cs)[1..] == cs;
  }

  lemma RunAllTwo(h: Host, s: State, a: Inner, s1: State, b: Inner)
    requires Run(h, s, a).Ok? && Run(h, s, a).value.0 == s1 && Run(h, s1, b).Ok?
    ensures RunAll(h, s, [a, b]).0 == Run(h, s1, b).value.0
  {
    RunAllStep(h, s, a, [b]);
    RunAllStep(h, s1, b, []);
    assert [a] + [b] == [a, b] && [b] + [] == [b];
  }

  lemma RunAllThree(h: Host, s: State, a: Inner, s1: State, b: Inner, s2: State, c: Inner)
    requires Run(h, s, a).Ok? && Run(h, s, a).value.0 == s1 && Run(h, s1, b).Ok? && Run(h, s1, b).value.0 == s2
    requires Run(h, s2, c).Ok?
    ensures RunAll(h, s, [a, b, c]).0 == Run(h, s2, c).value.0
  {
    RunAllStep(h, s, a, [b, c]);
    RunAllTwo(h, s1, b, s2, c);
    assert [a] + [b, c] == [a, b, c];
  }

  /** And it happens from every initial state: register a merchant, store one payment, then store another
      whose governance call lets the admins prune it midway. */
  lemma CounterFallsShort(h: Host, s: State, env: Env, m: Address, other: Reference, r: Reference, amount: i128)
    requires Initial(s) && m != Zero && m !in s.admins && m in env.auth && forall a | a in s.admins :: a in env.auth
    requires other != ZeroReference && r != ZeroReference && r != other && env.gov(s.governance) == OUTAGE
    requires Payable(amount)
    ensures var steps := [Plain(Call.RegisterMerchant(s.admins, m), env), Plain(StorePayment(m, other, amount), env),
                          StoreAround(m, r, amount, env, [Plain(PrunePayment(s.admins, m, r), env)])];
            var s' := RunAll(h, s, steps).0;
            CountOf(s'.counts, m) == 1 && RecordsOf(s'.payments, m) == {(m, other), (m, r)} && !CountsExact(s')
  {
    var first, second := Plain(Call.RegisterMerchant(s.admins, m), env), Plain(StorePayment(m, other, amount), env);
    var third := StoreAround(m, r, amount, env, [Plain(PrunePayment(s.admins, m, r), env)]);
    var r0 := AdminsRegister(h, s, env, m);
    var r1 := OneRecord(h, r0.post, env, m, other, amount);
    assert Run(h, s, first).value.0 == r0.post && Run(h, r0.post, second).value.0 == r1.post;
    NestedPruneBreaksTheCounter(h, r1.post, env, m, other, r, amount);
    RunAllThree(h, s, first, r0.post, second, r1.post, third);
  }

  lemma OneRecord(h: Host, s: State, env: Env, m: Address, other: Reference, amount: i128) returns (r1: Rec)
    requires AdminsOk(s.admins, s.threshold) && !s.paused && m in s.merchants && m in env.auth && other != ZeroReference
    requires s.rules == map[] && s.defaultRule == None && s.cachedRule == None && env.gov(s.governance) == OUTAGE
    requires s.payments == map[] && s.counts == map[] && forall a | a in s.admins :: a in env.auth
    requires Payable(amount)
    ensures Legit(h, r1) && r1.ok && r1.pre == s && r1.env == env && r1.call == StorePayment(m, other, amount)
    ensures Ready(r1.post, env, m, amount) && r1.post.payments.Keys == {(m, other)} && r1.post.counts == map[m := 1]
    ensures r1.post.admins == s.admins
  {
    r1 := MerchantStores(h, s, env, m, other, amount);
  }

  /** A nested prune of the key followed by a nested store of it: the inner payment is committed, then
      overwritten by the outer one, with no prune in between. */
  lemma NestedStoreIsOverwritten(h: Host, s: State, env: Env, m: Address, r: Reference, outer: i128, inner: i128)
    returns (s': State, vs: seq<Move>)
    requires Ready(s, env, m, outer) && Ready(s, env, m, inner) && s.cachedRule == None
    requires r != ZeroReference && (m, r) !in s.payments && env.gov(s.governance) == OUTAGE
    requires CountOf(s.counts, m) < U32_MAX - 1
    ensures Run(h, s, StoreAround(m, r, outer, env, [Plain(PrunePayment(s.admins, m, r), env),
                                                     Plain(StorePayment(m, r, inner), env)])) == Ok((s', vs))
    ensures |vs| == 4 && Completes(vs[2], (m, r)) && Completes(vs[3], (m, r))
    ensures (m, r) in vs[2].post.payments && vs[2].post.payments[(m, r)].amount == inner
    ensures (m, r) in s'.payments && s'.payments[(m, r)].amount == outer
  {
    var prune, store := Plain(PrunePayment(s.admins, m, r), env), Plain(StorePayment(m, r, inner), env);
    var reserved := s.(payments := s.payments[(m, r) := Placeholder(m)]);
    var moves := InsideMoves(h, reserved, env, m, r, inner);
    s', vs := StoreAroundCommits(h, s, env, m, r, outer, [prune, store], moves[1].post);
    MovesOfStoreAround(h, s, env, m, r, outer, [prune, store]);
  }

  /** The entry under k is replaced by a payment, and counted down and up again. */
  predicate Replaces(a: State, k: PayKey, amount: i128, b: State) {
    && k in b.payments && b.payments == a.payments[k := b.payments[k]] && b.payments[k].amount == amount
    && CountOf(b.counts, k.0) == SaturatingSub(CountOf(a.counts, k.0), 1) + 1
  }

  /** What a store leaves whose nested calls replace its placeholder: one record more, and a counter that
      is one too high if it was zero. */
  lemma NestedStoreBooks(h: Host, s: State, env: Env, m: Address, r: Reference, outer: i128, inside: seq<Inner>,
                         mid: State, inner: i128) returns (s': State, vs: seq<Move>)
    requires Ready(s, env, m, outer) && r != ZeroReference && (m, r) !in s.payments
    requires CountOf(s.counts, m) < U32_MAX - 1
    requires var reserved := s.(payments := s.payments[(m, r) := Placeholder(m)]);
             RunAll(h, reserved, inside).0 == mid && Replaces(reserved, (m, r), inner, mid)
    ensures Run(h, s, StoreAround(m, r, outer, env, inside)) == Ok((s', vs))
    ensures s'.payments.Keys == s.payments.Keys + {(m, r)}
    ensures CountOf(s'.counts, m) == if CountOf(s.counts, m) == 0 then 2 else CountOf(s.counts, m) + 1
  {
    s', vs := StoreAroundCommits(h, s, env, m, r, outer, inside, mid);
    OverwrittenBooks(s, (m, r), inner, mid, outer, s');
  }

  lemma OverwrittenBooks(s: State, k: PayKey, inner: i128, mid: State, outer: i128, s': State)
    requires Replaces(s.(payments := s.payments[k := Placeholder(k.0)]), k, inner, mid) && Adds(mid, k, outer, s')
    ensures s'.payments.Keys == s.payments.Keys + {k}
    ensures CountOf(s'.counts, k.0) == if CountOf(s.counts, k.0) == 0 then 2 else CountOf(s.counts, k.0) + 1
  {}

  /** From every initial state: register a merchant, then store a payment whose governance call lets the
      admins prune it and the merchant store it again. One record is left, counted twice. */
  lemma CounterCountsTooMany(h: Host, s: State, env: Env, m: Address, r: Reference, outer: i128, inner: i128)
    requires Initial(s) && m != Zero && m !in s.admins && m in env.auth && forall a | a in s.admins :: a in env.auth
    requires r != ZeroReference && env.gov(s.governance) == OUTAGE
    requires Payable(outer) && Payable(inner)
    ensures var steps := [Plain(Call.RegisterMerchant(s.admins, m), env),
                          StoreAround(m, r, outer, env, [Plain(PrunePayment(s.admins, m, r), env),
                                                         Plain(StorePayment(m, r, inner), env)])];
            var s' := RunAll(h, s, steps).0;
            CountOf(s'.counts, m) == 2 && RecordsOf(s'.payments, m) == {(m, r)}
  {
    var first := Plain(Call.RegisterMerchant(s.admins, m), env);
    var second := StoreAround(m, r, outer, env, [Plain(PrunePayment(s.admins, m, r), env),
                                                 Plain(StorePayment(m, r, inner), env)]);
    var r0 := AdminsRegister(h, s, env, m);
    assert Run(h, s, first).value.0 == r0.post;
    var moves := InsideMoves(h, r0.post.(payments := map[(m, r) := Placeholder(m)]), env, m, r, inner);
    var s', vs := NestedStoreBooks(h, r0.post, env, m, r, outer, second.atBypass, moves[1].post, inner);
    RunAllTwo(h, s, first, r0.post, second);
    assert RecordsOf(s'.payments, m) == {(m, r)};
  }

  /** The prune and the store of the nested calls, from a state that has the key reserved. */
  lemma InsideMoves(h: Host, s: State, env: Env, m: Address, r: Reference, amount: i128) returns (moves: seq<Move>)
    requires Ready(s, env, m, amount) && s.cachedRule == None && (m, r) in s.payments && r != ZeroReference
    requires env.gov(s.governance) == OUTAGE && CountOf(s.counts, m) < U32_MAX - 1
    ensures |moves| == 2 && moves[1].deed == Invoked(StorePayment(m, r, amount))
    ensures RunAll(h, s, [Plain(PrunePayment(s.admins, m, r), env), Plain(StorePayment(m, r, amount), env)]) ==
              (moves[1].post, moves)
    ensures Replaces(s, (m, r), amount, moves[1].post)
  {
    var prune, store := Plain(PrunePayment(s.admins, m, r), env), Plain(StorePayment(m, r, amount), env);
    var mid, end := PrunesThenStores(h, s, env, m, r, amount);
    moves := [Move(s, Invoked(prune.call), env, mid), Move(mid, Invoked(store.call), env, end)];
    TwoPlainMoves(h, s, prune, mid, store, end);
  }

  lemma PrunesThenStores(h: Host, s: State, env: Env, m: Address, r: Reference, amount: i128)
    returns (mid: State, end: State)
    requires Ready(s, env, m, amount) && s.cachedRule == None && (m, r) in s.payments && r != ZeroReference
    requires env.gov(s.governance) == OUTAGE && CountOf(s.counts, m) < U32_MAX - 1
    ensures Apply(h, s, PrunePayment(s.admins, m, r), env) == Ok(mid)
    ensures Apply(h, mid, StorePayment(m, r, amount), env) == Ok(end) && Replaces(s, (m, r), amount, end)
  {
    AdminsPrune(h, s, env, m, r);
    mid := Remove(s, m, {(m, r)}).Emit(PaymentPruned(m, r));
    var r1 := MerchantStores(h, mid, env, m, r, amount);
    end := r1.post;
  }

  lemma TwoPlainMoves(h: Host, s: State, a: Inner, mid: State, b: Inner, end: State)
    requires a.Plain? && b.Plain?
    requires Apply(h, s, a.call, a.env) == Ok(mid) && Apply(h, mid, b.call, b.env) == Ok(end)
    ensures RunAll(h, s, [a, b]) ==
              (end, [Move(s, Invoked(a.call), a.env, mid), Move(mid, Invoked(b.call), b.env, end)])
  {
    var first, second := Move(s, Invoked(a.call), a.env, mid), Move(mid, Invoked(b.call), b.env, end);
    RunAllStep(h, mid, b, []);
    assert [b] + [] == [b] && [second] + [] == [second];
    RunAllStep(h, s, a, [b]);
    assert [a] + [b] == [a, b] && [first] + [second] == [first, second];
  }

  lemma MovesOfStoreAround(h: Host, s: State, env: Env, m: Address, r: Reference, amount: i128, inside: seq<Inner>)
    requires Run(h, s, StoreAround(m, r, amount, env, inside)).Ok?
    requires Ready(s, env, m, amount) && r != ZeroReference && (m, r) !in s.payments
    ensures var reserved := s.(payments := s.payments[(m, r) := Placeholder(m)]);
            var (mid, moves) := RunAll(h, reserved, inside);
            var (s', vs) := Run(h, s, StoreAround(m, r, amount, env, inside)).value;
            vs == [Move(s, Reserving((m, r)), env, reserved)] + moves
                  + [Closing(mid, StoreAround(m, r, amount, env, inside), BOOTSTRAP_RULE, s')]
  {
    StoreAroundUnfolds(h, s, env, m, r, amount, inside);
    var first := Move(s, Reserving((m, r)), env, s.(payments := s.payments[(m, r) := Placeholder(m)]));
    assert [] + [first] == [first];
  }
}
