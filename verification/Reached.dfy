/** Every call reached inside a transaction, committed or not: the books it finds and leaves. */
module Reached {
  import opened Types
  import opened Entry
  import opened Runs
  import opened Ledger
  import opened Reentry
  import opened ReentryLedger
  import opened ReentryRecords

  function Owned(keys: set<PayKey>, m: Address): set<PayKey> { set k | k in keys && k.0 == m }

  /** Counter plus reserved keys is the number of stored entries, for every merchant. */
  ghost predicate InFlight(s: State, reserved: set<PayKey>) {
    && reserved <= s.payments.Keys
    && forall m :: CountOf(s.counts, m) + |Owned(reserved, m)| == |RecordsOf(s.payments, m)|
  }

  lemma StoredEntries(s: State, reserved: set<PayKey>, m: Address)
    requires reserved <= s.payments.Keys
    ensures |RecordsOf(s.payments, m)| == |Settled(s, reserved, m)| + |Owned(reserved, m)|
  {
    assert RecordsOf(s.payments, m) == Settled(s, reserved, m) + Owned(reserved, m);
  }

  lemma InFlightMeansNoDrift(s: State, reserved: set<PayKey>)
    requires reserved <= s.payments.Keys
    ensures InFlight(s, reserved) <==> forall m :: Drift(s, reserved, m) == 0
  {
    forall m ensures Drift(s, reserved, m) == |RecordsOf(s.payments, m)| - |Owned(reserved, m)| - CountOf(s.counts, m) {
      StoredEntries(s, reserved, m);
    }
  }

  lemma ExactMeansNothingInFlight(s: State)
    ensures InFlight(s, {}) <==> CountsExact(s)
  {
    forall m ensures Owned({}, m) == {} {}
  }

  ghost predicate RecordsTrue(s: State, reserved: set<PayKey>) {
    forall k | k in s.payments && k !in reserved :: RecordOk(k, s.payments[k])
  }

  ghost predicate BooksOk(s: State, reserved: set<PayKey>) { InFlight(s, reserved) && RecordsTrue(s, reserved) }

  predicate IsSettled(s: State, open: set<PayKey>, k: PayKey) { k in s.payments && k !in open }

  /** One key's view of a move: a committed record stays as it is until pruned, and a key becomes a
      committed record only by completing a store, with a true record. */
  ghost predicate RecordEffect(open: set<PayKey>, v: Move, k: PayKey) {
    && (IsSettled(v.pre, open, k) ==>
          && !Completes(v, k)
          && (!PrunesKey(v, k) ==> IsSettled(v.post, OpenStep(open, v), k) && v.post.payments[k] == v.pre.payments[k]))
    && (Completes(v, k) ==> IsSettled(v.post, OpenStep(open, v), k) && RecordOk(k, v.post.payments[k]))
    && (IsSettled(v.post, OpenStep(open, v), k) ==>
          Completes(v, k) || (IsSettled(v.pre, open, k) && v.post.payments[k] == v.pre.payments[k]))
  }

  lemma MoveKey(open: set<PayKey>, v: Move, k: PayKey)
    requires BooksEffect(v)
    requires forall key | Starts(v, key) :: key !in open
    requires v.deed.Committing? ==> v.deed.key in open
    ensures RecordEffect(open, v, k)
  {
    if v.deed.Invoked? && v.deed.call.StorePayment? {
      assert Starts(v, (v.deed.call.merchant, v.deed.call.reference));
    }
  }

  /** The reserved keys hold what they held. */
  predicate Kept(s: State, reserved: set<PayKey>, s': State) {
    forall k | k in reserved :: k in s.payments && k in s'.payments && s'.payments[k] == s.payments[k]
  }

  /** A move that prunes nothing reserved keeps the books, for the keys reserved after it. */
  lemma MoveKeepsBooks(h: Host, reserved: set<PayKey>, v: Move)
    requires MoveOk(h, v) && BooksOk(v.pre, reserved) && forall m :: !Breaks(reserved, v, m)
    requires v.deed.Committing? ==> v.deed.key in reserved
    ensures BooksOk(v.post, OpenStep(reserved, v))
    ensures v.deed.Committing? || Kept(v.pre, reserved, v.post)
  {
    MoveBooks(h, v);
    SafeMove(reserved, v);
    InFlightMeansNoDrift(v.pre, reserved);
    forall m ensures Drift(v.post, OpenStep(reserved, v), m) == 0 {
      MoveDrift(reserved, v, m);
      NoBreakNoDrift(reserved, v, m);
    }
    InFlightMeansNoDrift(v.post, OpenStep(reserved, v));
    forall k ensures RecordEffect(reserved, v, k) {
      MoveKey(reserved, v, k);
    }
    RecordsStayTrue(reserved, v);
    ReservedKept(reserved, v);
  }

  lemma NoBreakNoDrift(open: set<PayKey>, v: Move, m: Address)
    requires DriftEffect(open, v, m) && Drift(v.pre, open, m) == 0 && !Breaks(open, v, m)
    ensures Drift(v.post, OpenStep(open, v), m) == 0
  {}

  lemma RecordsStayTrue(open: set<PayKey>, v: Move)
    requires RecordsTrue(v.pre, open) && forall k :: RecordEffect(open, v, k)
    ensures RecordsTrue(v.post, OpenStep(open, v))
  {
    forall k | k in v.post.payments && k !in OpenStep(open, v) ensures RecordOk(k, v.post.payments[k]) {
      assert RecordEffect(open, v, k);
    }
  }

  lemma ReservedKept(open: set<PayKey>, v: Move)
    requires BooksEffect(v) && open <= v.pre.payments.Keys && forall m :: !Breaks(open, v, m)
    ensures v.deed.Committing? || Kept(v.pre, open, v.post)
  {
    if v.deed.Invoked? && (v.deed.call.PrunePayment? || v.deed.call.PrunePayments?) {
      assert !Breaks(open, v, v.deed.call.merchant);
      forall k | k in open ensures k !in Removed(v) {
        assert k !in Removed(v) * open;
      }
    }
  }

  // ---- The calls reached ----------------------------------------------------------------------------------

  /** A call about to run: the state it starts from and the keys its enclosing stores hold reserved. */
  datatype Reach = Reach(state: State, call: Inner, reserved: set<PayKey>)

  /** Every call reached while c runs from s, c itself first: those that abort, and those a failing
      governance call rolls back, included. A store reserves its key after the minimum-amount call, so
      only what runs during the two rule calls is enclosed by it. */
  function Entries(h: Host, s: State, c: Inner, reserved: set<PayKey>): seq<Reach>
    decreases c, 2
  {
    [Reach(s, c, reserved)] +
    if c.Plain? || StoreGuard(s, c.env.auth, c.merchant, c.reference).Fail? then []
    else
      var s0 := During(h, s, c.view.minPayment.ParamCallFailed?, c.atMin).0;
      EntriesOfAll(h, s, c.atMin, reserved) +
      match Reserve(s0, c.view.minPayment, c.merchant, c.reference, c.amount)
      case Err(_) => []
      case Ok(s1) => RuleEntries(h, s1, c, reserved + {(c.merchant, c.reference)})
  }

  /** The calls reached during the two governance calls of the rule resolution. */
  function RuleEntries(h: Host, s: State, c: Inner, reserved: set<PayKey>): seq<Reach>
    requires c.Storing?
    decreases c, 1
  {
    if c.merchant in s.rules || s.defaultRule.Some? then []
    else
      var s1 := During(h, s, c.view.bypass.ParamCallFailed?, c.atBypass).0;
      EntriesOfAll(h, s, c.atBypass, reserved) +
      if c.view.bypass == ParamValue(1) then [] else EntriesOfAll(h, s1, c.atFee, reserved)
  }

  function EntriesOfAll(h: Host, s: State, cs: seq<Inner>, reserved: set<PayKey>): seq<Reach>
    decreases cs, 0
  {
    if cs == [] then []
    else
      var next := match Run(h, s, cs[0]) case Ok((s', _)) => s' case Err(_) => s;
      Entries(h, s, cs[0], reserved) + EntriesOfAll(h, next, cs[1..], reserved)
  }

  /** The call prunes, successfully, a key that an enclosing store has reserved. */
  predicate Takes(h: Host, e: Reach) {
    && e.call.Plain? && Apply(h, e.state, e.call.call, e.call.env).Ok?
    && (e.call.call.PrunePayment? || e.call.call.PrunePayments?)
    && Removed(Move(e.state, Invoked(e.call.call), e.call.env, e.state)) * e.reserved != {}
  }

  ghost predicate NoTakes(h: Host, es: seq<Reach>) { forall e | e in es :: !Takes(h, e) }

  ghost predicate StartOk(es: seq<Reach>) { forall e | e in es :: BooksOk(e.state, e.reserved) }

  lemma PlainKeepsBooks(h: Host, s: State, c: Inner, reserved: set<PayKey>)
    requires c.Plain? && BooksOk(s, reserved) && !Takes(h, Reach(s, c, reserved)) && Run(h, s, c).Ok?
    ensures BooksOk(Run(h, s, c).value.0, reserved) && Kept(s, reserved, Run(h, s, c).value.0)
  {
    MoveKeepsBooks(h, reserved, Run(h, s, c).value.1[0]);
  }

  /** Reserving a key puts exactly that key in flight. */
  lemma ReserveInFlight(h: Host, s: State, c: Inner, reserved: set<PayKey>)
    requires c.Storing? && BooksOk(s, reserved) && Known(s, c.merchant)
    requires Reserve(s, c.view.minPayment, c.merchant, c.reference, c.amount).Ok?
    ensures var s1 := Reserve(s, c.view.minPayment, c.merchant, c.reference, c.amount).value;
            BooksOk(s1, reserved + {(c.merchant, c.reference)}) && Kept(s, reserved, s1)
  {
    var key := (c.merchant, c.reference);
    var s1 := Reserve(s, c.view.minPayment, c.merchant, c.reference, c.amount).value;
    MoveKeepsBooks(h, reserved, Move(s, Reserving(key), c.env, s1));
  }

  /** Committing a reserved key takes exactly that key out of flight. */
  lemma CommitInFlight(h: Host, s2: State, c: Inner, rule: Rule, s': State, reserved: set<PayKey>)
    requires c.Storing? && BooksOk(s2, reserved + {(c.merchant, c.reference)}) && Known(s2, c.merchant)
    requires (c.merchant, c.reference) !in reserved && c.amount >= MinPayment(c.view.minPayment)
    requires CommitPayment(s2, c.env.sequence, (c.merchant, c.reference), rule, SplitAt(c.amount, rule)) == Ok(s')
    ensures BooksOk(s', reserved) && Kept(s2, reserved, s')
  {
    var key := (c.merchant, c.reference);
    CommitMoveOk(s2, c, rule, s');
    MoveKeepsBooks(h, reserved + {key}, Closing(s2, c, rule, s'));
    assert reserved + {key} - {key} == reserved;
  }

  lemma KeptTrans(a: State, b: State, c: State, reserved: set<PayKey>)
    requires Kept(a, reserved, b) && Kept(b, reserved, c)
    ensures Kept(a, reserved, c)
  {}

  /** If no call reached takes a reserved key, every call reached starts with exactly the keys its
      enclosing stores reserved in flight and only true records besides; and if the call commits, it
      leaves the books as it found them, the reserved keys untouched. */
  lemma {:induction false} CallsKeepBooks(h: Host, s: State, c: Inner, reserved: set<PayKey>)
    requires BooksOk(s, reserved) && NoTakes(h, Entries(h, s, c, reserved))
    ensures StartOk(Entries(h, s, c, reserved))
    ensures Run(h, s, c).Ok? ==> BooksOk(Run(h, s, c).value.0, reserved) && Kept(s, reserved, Run(h, s, c).value.0)
    decreases c, 2
  {
    assert Entries(h, s, c, reserved)[0] == Reach(s, c, reserved);
    if c.Plain? {
      if Run(h, s, c).Ok? {
        PlainKeepsBooks(h, s, c, reserved);
      }
    } else if StoreGuard(s, c.env.auth, c.merchant, c.reference).Pass? {
      var (s0, l0) := During(h, s, c.view.minPayment.ParamCallFailed?, c.atMin);
      AllKeepBooks(h, s, c.atMin, reserved);
      DuringIsChain(h, s, c.view.minPayment.ParamCallFailed?, c.atMin);
      ChainKeepsKnown(h, s, l0, s0, c.merchant);
      var r := Reserve(s0, c.view.minPayment, c.merchant, c.reference, c.amount);
      if r.Ok? {
        ReserveInFlight(h, s0, c, reserved);
        RuleKeepsBooks(h, r.value, c, reserved + {(c.merchant, c.reference)});
        if Run(h, s, c).Ok? {
          FinishKeepsBooks(h, s, c, s0, r.value, reserved);
        }
      }
    }
  }

  lemma FinishKeepsBooks(h: Host, s: State, c: Inner, s0: State, s1: State, reserved: set<PayKey>)
    requires c.Storing? && Run(h, s, c).Ok?
    requires s0 == During(h, s, c.view.minPayment.ParamCallFailed?, c.atMin).0 && Known(s0, c.merchant)
    requires (c.merchant, c.reference) !in s0.payments && Kept(s, reserved, s0) && Kept(s0, reserved, s1)
    requires s1 == s0.(payments := s0.payments[(c.merchant, c.reference) := Placeholder(c.merchant)])
    requires FindRule(h, s1, c).Ok? ==>
               && BooksOk(FindRule(h, s1, c).value.0, reserved + {(c.merchant, c.reference)})
               && Kept(s1, reserved + {(c.merchant, c.reference)}, FindRule(h, s1, c).value.0)
    ensures BooksOk(Run(h, s, c).value.0, reserved) && Kept(s, reserved, Run(h, s, c).value.0)
  {
    var _, l0, _, s2, rule, l2 := StoringUnfolds(h, s, c);
    var s' := Run(h, s, c).value.0;
    FindRuleIsChain(h, s1, c);
    ChainKeepsKnown(h, s1, l2, s2, c.merchant);
    CommitInFlight(h, s2, c, rule, s', reserved);
    KeptTrans(s, s0, s1, reserved);
    KeptTrans(s, s1, s2, reserved);
    KeptTrans(s, s2, s', reserved);
  }

  lemma {:induction false} RuleKeepsBooks(h: Host, s: State, c: Inner, reserved: set<PayKey>)
    requires c.Storing? && BooksOk(s, reserved) && NoTakes(h, RuleEntries(h, s, c, reserved))
    ensures StartOk(RuleEntries(h, s, c, reserved))
    ensures FindRule(h, s, c).Ok? ==>
              BooksOk(FindRule(h, s, c).value.0, reserved) && Kept(s, reserved, FindRule(h, s, c).value.0)
    decreases c, 1
  {
    if c.merchant !in s.rules && s.defaultRule.None? {
      var s1 := During(h, s, c.view.bypass.ParamCallFailed?, c.atBypass).0;
      AllKeepBooks(h, s, c.atBypass, reserved);
      if c.view.bypass != ParamValue(1) {
        var s2 := During(h, s1, c.view.fee.FeeCallFailed?, c.atFee).0;
        AllKeepBooks(h, s1, c.atFee, reserved);
        KeptTrans(s, s1, s2, reserved);
      }
    }
  }

  lemma {:induction false} AllKeepBooks(h: Host, s: State, cs: seq<Inner>, reserved: set<PayKey>)
    requires BooksOk(s, reserved) && NoTakes(h, EntriesOfAll(h, s, cs, reserved))
    ensures StartOk(EntriesOfAll(h, s, cs, reserved))
    ensures forall failed ::
              BooksOk(During(h, s, failed, cs).0, reserved) && Kept(s, reserved, During(h, s, failed, cs).0)
    decreases cs, 0
  {
    if cs == [] {
    } else {
      var first := Run(h, s, cs[0]);
      CallsKeepBooks(h, s, cs[0], reserved);
      var next := if first.Ok? then first.value.0 else s;
      AllKeepBooks(h, next, cs[1..], reserved);
      assert During(h, next, false, cs[1..]) == RunAll(h, next, cs[1..]);
      KeptTrans(s, next, RunAll(h, next, cs[1..]).0, reserved);
    }
  }

  // ---- Whole runs -----------------------------------------------------------------------------------------

  /** Any transactions in a row from an initial state, if no call reached takes a reserved key: every call
      reached, at any depth, starts with exactly its enclosing stores' keys in flight, and in the end the
      counters are exact and every record is the split of its own amount. */
  lemma TransactionsKeepBooks(h: Host, s: State, steps: seq<Inner>)
    requires Initial(s) && NoTakes(h, EntriesOfAll(h, s, steps, {}))
    ensures StartOk(EntriesOfAll(h, s, steps, {}))
    ensures var s' := RunAll(h, s, steps).0;
            CountsExact(s') && forall k | k in s'.payments :: RecordOk(k, s'.payments[k])
  {
    forall m ensures RecordsOf(s.payments, m) == {} && Owned({}, m) == {} {}
    AllKeepBooks(h, s, steps, {});
    assert During(h, s, false, steps) == RunAll(h, s, steps);
    ExactMeansNothingInFlight(RunAll(h, s, steps).0);
  }

  lemma {:induction false} PruneFreeTakesNothing(h: Host, s: State, c: Inner, reserved: set<PayKey>)
    requires PruneFree(c)
    ensures NoTakes(h, Entries(h, s, c, reserved))
    decreases c, 2
  {
    if c.Storing? && StoreGuard(s, c.env.auth, c.merchant, c.reference).Pass? {
      var s0 := During(h, s, c.view.minPayment.ParamCallFailed?, c.atMin).0;
      AllPruneFreeTakeNothing(h, s, c.atMin, reserved);
      var r := Reserve(s0, c.view.minPayment, c.merchant, c.reference, c.amount);
      if r.Ok? {
        RulePruneFreeTakesNothing(h, r.value, c, reserved + {(c.merchant, c.reference)});
      }
    }
  }

  lemma {:induction false} RulePruneFreeTakesNothing(h: Host, s: State, c: Inner, reserved: set<PayKey>)
    requires c.Storing? && PruneFree(c)
    ensures NoTakes(h, RuleEntries(h, s, c, reserved))
    decreases c, 1
  {
    if c.merchant !in s.rules && s.defaultRule.None? {
      AllPruneFreeTakeNothing(h, s, c.atBypass, reserved);
      var s1 := During(h, s, c.view.bypass.ParamCallFailed?, c.atBypass).0;
      AllPruneFreeTakeNothing(h, s1, c.atFee, reserved);
    }
  }

  lemma {:induction false} AllPruneFreeTakeNothing(h: Host, s: State, cs: seq<Inner>, reserved: set<PayKey>)
    requires forall d | d in cs :: PruneFree(d) || (d.Plain? && reserved == {})
    ensures NoTakes(h, EntriesOfAll(h, s, cs, reserved))
    decreases cs, 0
  {
    if cs == [] {
    } else {
      assert cs[0] in cs;
      if PruneFree(cs[0]) {
        PruneFreeTakesNothing(h, s, cs[0], reserved);
      } else {
        assert Entries(h, s, cs[0], reserved) == [Reach(s, cs[0], reserved)];
      }
      var next := match Run(h, s, cs[0]) case Ok((s', _)) => s' case Err(_) => s;
      AllPruneFreeTakeNothing(h, next, cs[1..], reserved);
    }
  }

  /** In particular, if only top-level invocations prune, the books are right without further ado, in
      every committed state and at the start of every nested call. */
  lemma TopLevelPruningKeepsBooks(h: Host, s: State, steps: seq<Inner>)
    requires Initial(s) && PrunesOnTop(steps)
    ensures StartOk(EntriesOfAll(h, s, steps, {}))
    ensures var s' := RunAll(h, s, steps).0;
            CountsExact(s') && forall k | k in s'.payments :: RecordOk(k, s'.payments[k])
  {
    AllPruneFreeTakeNothing(h, s, steps, {});
    TransactionsKeepBooks(h, s, steps);
  }
}
