/** What a store is charged when the calls it makes call back: each committed record, field by field, and
    the rule it is charged at. */
module ReentryCharges {
  import opened Types
  import opened Entry
  import opened Fees
  import opened Verdicts
  import opened Effects
  import opened Reentry

  /** The state a commit leaves: its record, counter and events, and nothing else. */
  ghost predicate Settles(v: Move)
    requires v.deed.Committing?
  {
    var (m, r) := v.deed.key;
    var record := PaidRecord(m, v.deed.amount, v.deed.rule, v.env);
    && v.deed.amount >= Least(v.deed.view.minPayment) && CountOf(v.pre.counts, m) < U32_MAX
    && v.post == v.pre.(payments := v.pre.payments[(m, r) := record],
                        counts := v.pre.counts[m := CountOf(v.pre.counts, m) + 1],
                        log := v.pre.log
                               + (if v.deed.rule == BOOTSTRAP_RULE then [BootstrapFallback(BOOTSTRAP_RULE)] else [])
                               + [PaymentStored(m, r, record)])
  }

  /** The rule is the one in force when the key was reserved, under the answers the store was given and
      the last good config known when it had the last of them. */
  ghost predicate ChargedAs(reserved: State, known: Option<Rule>, v: Move)
    requires v.deed.Committing?
  {
    v.deed.rule == RuleUnder(reserved.(cachedRule := known), v.deed.view, v.deed.key.0)
  }

  /** The commit at i closes a reservation before it, of the same key in the same invocation, which the
      merchant authenticated. */
  ghost predicate ClosesFrom(vs: seq<Move>, j: int, i: int) {
    && 0 <= j < i < |vs| && vs[i].deed.Committing?
    && vs[j].deed == Reserving(vs[i].deed.key) && vs[j].env == vs[i].env && vs[i].deed.key.0 in vs[i].env.auth
    && ChargedAs(vs[j].post, vs[i - 1].pre.cachedRule, vs[i])
  }

  ghost predicate ChargedAt(vs: seq<Move>, i: int) {
    0 <= i < |vs| && vs[i].deed.Committing? ==> Settles(vs[i]) && exists j :: ClosesFrom(vs, j, i)
  }

  ghost predicate Charged(vs: seq<Move>) { forall i :: ChargedAt(vs, i) }

  lemma ChargedJoin(us: seq<Move>, vs: seq<Move>)
    requires Charged(us) && Charged(vs)
    ensures Charged(us + vs)
  {
    var ws := us + vs;
    forall i ensures ChargedAt(ws, i) {
      if 0 <= i < |ws| && ws[i].deed.Committing? {
        if i < |us| {
          assert ChargedAt(us, i);
          var j :| ClosesFrom(us, j, i);
          assert ClosesFrom(ws, j, i);
        } else {
          assert ChargedAt(vs, i - |us|);
          var j :| ClosesFrom(vs, j, i - |us|);
          assert ClosesFrom(ws, j + |us|, i);
        }
      }
    }
  }

  lemma NothingCharged(v: Move)
    requires !v.deed.Committing?
    ensures Charged([v])
  {}

  // ---- One store ----------------------------------------------------------------------------------------------

  /** The last good config known when the last of the store's own answers came in. */
  function KnownAt(s: State, inner: seq<Move>): Option<Rule> {
    if inner == [] then s.cachedRule else inner[|inner| - 1].pre.cachedRule
  }

  lemma FoundRule(h: Host, s: State, c: Inner)
    requires c.Storing? && FindRule(h, s, c).Ok?
    ensures var (_, rule, vs) := FindRule(h, s, c).value;
            rule == RuleUnder(s.(cachedRule := KnownAt(s, vs)), c.view, c.merchant)
  {
    if c.merchant !in s.rules && s.defaultRule.None? && c.view.bypass != ParamValue(1) && c.view.fee.FeeReturned? {
      ClassifyMeaning(c.view.fee.val);
      forall p, n, p', n' | c.view.fee.val == Config(p, n) && c.view.fee.val == Config(p', n')
        ensures p == p' && n == n'
      {
        ConfigIsUnique(p, n, p', n');
      }
    }
  }

  lemma CommitSettles(s2: State, c: Inner, rule: Rule, s': State)
    requires c.Storing? && c.amount >= MinPayment(c.view.minPayment)
    requires CommitPayment(s2, c.env.sequence, (c.merchant, c.reference), rule, SplitAt(c.amount, rule)) == Ok(s')
    ensures Settles(Closing(s2, c, rule, s'))
  {
    SplitIsDue(c.amount, rule);
    CommitLeaves(s2, c.merchant, c.reference, c.amount, rule, c.env, SplitAt(c.amount, rule));
  }

  lemma RuleFound(h: Host, s: State, c: Inner)
    requires c.Storing?
    ensures FindRule(h, s, c).Ok? <==> c.merchant in s.rules || ResolvableUnder(s, c.view)
    ensures FindRule(h, s, c).Err? ==> FindRule(h, s, c) == Err(GovernanceCallFailed)
  {
    if c.view.fee.FeeReturned? {
      ClassifyMeaning(c.view.fee.val);
    }
  }

  /** Where the lookup leaves the state: the calls nested in the answers it asked for, in that order, and
      a config it got kept as the last good one. */
  lemma LookupLeaves(h: Host, s: State, c: Inner)
    requires c.Storing? && FindRule(h, s, c).Ok?
    ensures var s' := FindRule(h, s, c).value.0;
            var b := if c.view.bypass.ParamCallFailed? then s else RunAll(h, s, c.atBypass).0;
            var f := if c.view.fee.FeeCallFailed? then b else RunAll(h, b, c.atFee).0;
            if c.merchant in s.rules || s.defaultRule.Some? then s' == s
            else if c.view.bypass == ParamValue(1) then s' == b
            else
              && (forall p, n | c.view.fee == FeeReturned(Config(p, n)) ::
                    s' == f.(cachedRule := Some(Rule(p, n, 0, false))))
              && ((forall p, n :: c.view.fee != FeeReturned(Config(p, n))) ==> s' == f)
  {
    if c.view.fee.FeeReturned? {
      ClassifyMeaning(c.view.fee.val);
      if exists p, n :: c.view.fee.val == Config(p, n) {
        forall p, n, p', n' | c.view.fee.val == Config(p, n) && c.view.fee.val == Config(p', n')
          ensures p == p' && n == n'
        {
          ConfigIsUnique(p, n, p', n');
        }
      }
    }
  }

  /** Exactly when a store that nests calls is accepted, and its first failing condition otherwise: the
      guards hold where it starts, the amount and the key where the minimum call left off, and the split
      and the counter where its last governance call did. */
  lemma StoreAcceptedExactly(h: Host, s: State, c: Inner)
    requires c.Storing?
    ensures var (m, key) := (c.merchant, (c.merchant, c.reference));
            var s0 := if c.view.minPayment.ParamCallFailed? then s else RunAll(h, s, c.atMin).0;
            var s1 := s0.(payments := s0.payments[key := Placeholder(m)]);
            var found := FindRule(h, s1, c);
            OutcomeOf(Run(h, s, c)) ==
              Need(c.reference != ZeroReference, InvalidPaymentReference)
              .Then(Need(!s.paused, Paused))
              .Then(Need(m in c.env.auth, AuthMissing))
              .Then(Need(m in s.merchants, MerchantMissing))
              .Then(Need(c.amount >= Least(c.view.minPayment), AmountTooSmall))
              .Then(Need(key !in s0.payments, DuplicatePaymentReference))
              .Then(Need(m in s1.rules || ResolvableUnder(s1, c.view), GovernanceCallFailed))
              .Then(if found.Err? then Pass
                    else var (s2, rule, _) := found.value;
                         Need(SumFits(c.amount, rule.platformBps, rule.networkBps), AmountOverflow)
                         .Then(Need(CountOf(s2.counts, m) < U32_MAX, IntegerTrap)))
  {
    var key := (c.merchant, c.reference);
    var (s0, l0) := During(h, s, c.view.minPayment.ParamCallFailed?, c.atMin);
    var s1 := s0.(payments := s0.payments[key := Placeholder(c.merchant)]);
    RuleFound(h, s1, c);
    if FindRule(h, s1, c).Ok? {
      var (s2, rule, l2) := FindRule(h, s1, c).value;
      SplitOutcome(c.amount, rule);
      CommitOutcome(s2, c.env.sequence, key, rule, SplitAt(c.amount, rule));
    }
  }

  /** The commit of a store closes its own reservation: the key is reserved where the minimum call left
      off, and the record committed where the rule lookup did. */
  lemma StoreCloses(h: Host, s: State, c: Inner)
    requires c.Storing? && Run(h, s, c).Ok?
    ensures var (s', vs) := Run(h, s, c).value;
            var opening, n := |During(h, s, c.view.minPayment.ParamCallFailed?, c.atMin).1|, |vs| - 1;
            && 0 <= opening < n && ClosesFrom(vs, opening, n)
            && vs[opening].pre == (if c.view.minPayment.ParamCallFailed? then s else RunAll(h, s, c.atMin).0)
            && FindRule(h, vs[opening].post, c).Ok? && vs[n].pre == FindRule(h, vs[opening].post, c).value.0
            && vs[opening].post == vs[opening].pre.(payments :=
                 vs[opening].pre.payments[(c.merchant, c.reference) := Placeholder(c.merchant)])
            && vs[n].deed == Committing((c.merchant, c.reference), c.amount, vs[n].deed.rule, c.view)
            && vs[n].env == c.env && vs[n].post == s' && Settles(vs[n])
  {
    var s0, l0, s1, s2, rule, l2 := StoringUnfolds(h, s, c);
    var (s', vs) := Run(h, s, c).value;
    var key, n := (c.merchant, c.reference), |vs| - 1;
    var opening, closing := Move(s0, Reserving(key), c.env, s1), Closing(s2, c, rule, s');
    assert vs == l0 + [opening] + l2 + [closing];
    assert vs[|l0|] == opening && vs[n] == closing;
    assert l2 != [] ==> vs[n - 1] == l2[|l2| - 1];
    FoundRule(h, s1, c);
    assert KnownAt(s1, l2) == vs[n - 1].pre.cachedRule;
    CommitSettles(s2, c, rule, s');
  }

  // ---- Nested calls ---------------------------------------------------------------------------------------------

  lemma {:induction false} RunsJoin(h: Host, s: State, a: seq<Inner>, b: seq<Inner>)
    ensures var (s1, l1) := RunAll(h, s, a);
            var (s2, l2) := RunAll(h, s1, b);
            RunAll(h, s, a + b) == (s2, l1 + l2)
    decreases |a|
  {
    if a == [] {
      assert a + b == b && RunAll(h, s, a) == (s, []);
      assert [] + RunAll(h, s, b).1 == RunAll(h, s, b).1;
    } else {
      assert (a + b)[0] == a[0] && (a + b)[1..] == a[1..] + b;
      var first := Run(h, s, a[0]);
      if first.Err? {
        RunsJoin(h, s, a[1..], b);
      } else {
        var s1 := first.value.0;
        RunsJoin(h, s1, a[1..], b);
        var mid := RunAll(h, s1, a[1..]);
        Associates(first.value.1, mid.1, RunAll(h, mid.0, b).1);
      }
    }
  }

  lemma Associates<T>(a: seq<T>, b: seq<T>, c: seq<T>)
    ensures a + b + c == a + (b + c)
  {}

  lemma RunsOne(h: Host, s: State, c: Inner)
    ensures RunAll(h, s, [c]) == if Run(h, s, c).Ok? then Run(h, s, c).value else (s, [])
  {
    assert [c][1..] == [];
    if Run(h, s, c).Ok? {
      var (s', vs) := Run(h, s, c).value;
      assert RunAll(h, s', []) == (s', []) && vs + [] == vs;
    }
  }

  /** Nested calls run one after the other, each on what the last left; one that aborts changes nothing. */
  lemma CallsRunInOrder(h: Host, s: State, a: seq<Inner>, c: Inner, b: seq<Inner>)
    ensures var (s1, l1) := RunAll(h, s, a);
            var (s2, l2) := if Run(h, s1, c).Ok? then Run(h, s1, c).value else (s1, []);
            var (s3, l3) := RunAll(h, s2, b);
            RunAll(h, s, a + [c] + b) == (s3, l1 + l2 + l3)
  {
    RunsJoin(h, s, a, [c]);
    RunsJoin(h, s, a + [c], b);
    RunsOne(h, RunAll(h, s, a).0, c);
  }

  // ---- Every store --------------------------------------------------------------------------------------------

  /** In every transaction, whatever nests in it, each committed record holds the paid amount, the
      whole-number legs at the rule in force when its key was reserved, that rule's rates, delay and
      settlement flag, and the ledger of its invocation; and its event carries it. */
  lemma {:induction false} RunCharged(h: Host, s: State, c: Inner)
    requires Run(h, s, c).Ok?
    ensures Charged(Run(h, s, c).value.1)
    decreases c, 2
  {
    match c
    case Plain(call, env) => NothingCharged(Run(h, s, c).value.1[0]);
    case Storing(_, _, _, _, _, _, _, _) =>
      var s0, l0, s1, s2, rule, l2 := StoringUnfolds(h, s, c);
      var (s', vs) := Run(h, s, c).value;
      var opening, closing := Move(s0, Reserving((c.merchant, c.reference)), c.env, s1), Closing(s2, c, rule, s');
      DuringCharged(h, s, c.view.minPayment.ParamCallFailed?, c.atMin);
      FindRuleCharged(h, s1, c);
      NothingCharged(opening);
      ChargedJoin(l0, [opening]);
      ChargedJoin(l0 + [opening], l2);
      assert vs == l0 + [opening] + l2 + [closing];
      StoreCloses(h, s, c);
      ChargedAndClosed(l0 + [opening] + l2, closing, |l0|);
  }

  lemma ChargedAndClosed(vs: seq<Move>, closing: Move, j: nat)
    requires Charged(vs) && closing.deed.Committing? && Settles(closing) && ClosesFrom(vs + [closing], j, |vs|)
    ensures Charged(vs + [closing])
  {
    var ws := vs + [closing];
    forall i ensures ChargedAt(ws, i) {
      if 0 <= i < |vs| && vs[i].deed.Committing? {
        assert ChargedAt(vs, i);
        var k :| ClosesFrom(vs, k, i);
        assert ClosesFrom(ws, k, i);
      }
    }
  }

  lemma {:induction false} FindRuleCharged(h: Host, s: State, c: Inner)
    requires c.Storing? && FindRule(h, s, c).Ok?
    ensures Charged(FindRule(h, s, c).value.2)
    decreases c, 1
  {
    if c.merchant !in s.rules && s.defaultRule.None? {
      var (s1, l1) := During(h, s, c.view.bypass.ParamCallFailed?, c.atBypass);
      DuringCharged(h, s, c.view.bypass.ParamCallFailed?, c.atBypass);
      if c.view.bypass != ParamValue(1) {
        var (s2, l2) := During(h, s1, c.view.fee.FeeCallFailed?, c.atFee);
        DuringCharged(h, s1, c.view.fee.FeeCallFailed?, c.atFee);
        var caching := Move(s2, Caching(c.view), c.env, FindRule(h, s, c).value.0);
        NothingCharged(caching);
        ChargedJoin(l1, l2);
        ChargedJoin(l1 + l2, [caching]);
      }
    }
  }

  lemma {:induction false} DuringCharged(h: Host, s: State, failed: bool, cs: seq<Inner>)
    ensures Charged(During(h, s, failed, cs).1)
    decreases cs, 1
  {
    if !failed {
      RunAllCharged(h, s, cs);
    }
  }

  lemma {:induction false} RunAllCharged(h: Host, s: State, cs: seq<Inner>)
    ensures Charged(RunAll(h, s, cs).1)
    decreases cs, 0
  {
    if cs == [] {
    } else {
      var first := Run(h, s, cs[0]);
      if first.Ok? {
        RunCharged(h, s, cs[0]);
        RunAllCharged(h, first.value.0, cs[1..]);
        ChargedJoin(first.value.1, RunAll(h, first.value.0, cs[1..]).1);
      } else {
        RunAllCharged(h, s, cs[1..]);
      }
    }
  }
}
