/** The ledger over transactions that nest any entry point: exactly when the counters stay exact. */
module ReentryLedger {
  import opened Types
  import opened Fees
  import opened Entry
  import opened Runs
  import opened Ledger
  import opened Reentry

  // ---- One move -----------------------------------------------------------------------------------------

  predicate PrunesFor(v: Move, m: Address) {
    v.deed.Invoked? && (v.deed.call.PrunePayment? || v.deed.call.PrunePayments?) && v.deed.call.merchant == m
  }

  /** What a pruning move removes. */
  function Removed(v: Move): set<PayKey>
    requires v.deed.Invoked? && (v.deed.call.PrunePayment? || v.deed.call.PrunePayments?)
  {
    Stored(v.pre.payments, v.deed.call.merchant,
           if v.deed.call.PrunePayment? then [v.deed.call.reference] else v.deed.call.references)
  }

  predicate PrunesKey(v: Move, k: PayKey) {
    v.deed.Invoked? && (v.deed.call.PrunePayment? || v.deed.call.PrunePayments?) && k in Removed(v)
  }

  predicate StoresAtOnce(v: Move, k: PayKey) {
    v.deed.Invoked? && v.deed.call.StorePayment? && k == (v.deed.call.merchant, v.deed.call.reference)
  }

  predicate Commits(v: Move, k: PayKey) { v.deed.Committing? && v.deed.key == k }

  /** The move starts a store of k, by itself or as a whole invocation. */
  predicate Starts(v: Move, k: PayKey) { v.deed == Reserving(k) || StoresAtOnce(v, k) }

  /** The move completes a store of k. */
  predicate Completes(v: Move, k: PayKey) { Commits(v, k) || StoresAtOnce(v, k) }

  /** What the move does to the counters and the records. */
  ghost predicate BooksEffect(v: Move) {
    match v.deed
    case Reserving(k) =>
      && k !in v.pre.payments && v.post.counts == v.pre.counts
      && v.post.payments == v.pre.payments[k := Placeholder(k.0)]
    case Committing(k, _, _, _) =>
      && k in v.post.payments && RecordOk(k, v.post.payments[k]) && CountOf(v.pre.counts, k.0) < U32_MAX
      && v.post.payments == v.pre.payments[k := v.post.payments[k]]
      && v.post.counts == v.pre.counts[k.0 := CountOf(v.pre.counts, k.0) + 1]
    case Caching(_) => v.post.payments == v.pre.payments && v.post.counts == v.pre.counts
    case Invoked(call) =>
      if call.StorePayment? then
        var k := (call.merchant, call.reference);
        && k !in v.pre.payments && k in v.post.payments && RecordOk(k, v.post.payments[k])
        && CountOf(v.pre.counts, k.0) < U32_MAX
        && v.post.payments == v.pre.payments[k := v.post.payments[k]]
        && v.post.counts == v.pre.counts[k.0 := CountOf(v.pre.counts, k.0) + 1]
      else if call.PrunePayment? || call.PrunePayments? then
        SamePruned(v.pre, call.merchant, Removed(v), v.post)
      else v.post.payments == v.pre.payments && v.post.counts == v.pre.counts
  }

  lemma MoveBooks(h: Host, v: Move)
    requires MoveOk(h, v)
    ensures BooksEffect(v)
  {
    if v.deed.Invoked? {
      var r := Rec(v.pre, v.deed.call, v.env, v.post, true);
      StepLedger(h, r);
      if v.deed.call.StorePayment? {
        StoreEffect(h, r);
      }
    }
  }

  function StateOf(vs: seq<Move>, n: nat): State
    requires 0 < |vs| && n <= |vs|
  {
    if n < |vs| then vs[n].pre else vs[n - 1].post
  }

  // ---- Reservations and commits -------------------------------------------------------------------------

  function OnKey(k: PayKey): PayKey -> bool { x => x == k }

  function OfMerchant(m: Address): PayKey -> bool { (x: PayKey) => x.0 == m }

  /** One more reservation outstanding, one fewer, or neither. */
  function Change(v: Move, which: PayKey -> bool): int {
    match v.deed
    case Reserving(k) => if which(k) then 1 else 0
    case Committing(k, _, _, _) => if which(k) then -1 else 0
    case _ => 0
  }

  /** The reservations of such keys made before move n and not yet committed. */
  function Outstanding(vs: seq<Move>, n: nat, which: PayKey -> bool): int
    requires n <= |vs|
  {
    if n == 0 then 0 else Outstanding(vs, n - 1, which) + Change(vs[n - 1], which)
  }

  /** Never more commits than reservations, and as many in the end. */
  ghost predicate Bracketed(vs: seq<Move>, which: PayKey -> bool) {
    && (forall n | 0 <= n <= |vs| :: Outstanding(vs, n, which) >= 0)
    && Outstanding(vs, |vs|, which) == 0
  }

  lemma {:induction false} OutstandingPrefix(us: seq<Move>, vs: seq<Move>, n: nat, which: PayKey -> bool)
    requires n <= |us|
    ensures Outstanding(us + vs, n, which) == Outstanding(us, n, which)
  {
    if n == 0 {
    } else {
      OutstandingPrefix(us, vs, n - 1, which);
    }
  }

  lemma {:induction false} OutstandingSuffix(us: seq<Move>, vs: seq<Move>, n: nat, which: PayKey -> bool)
    requires n <= |vs|
    ensures Outstanding(us + vs, |us| + n, which) == Outstanding(us, |us|, which) + Outstanding(vs, n, which)
  {
    if n == 0 {
      OutstandingPrefix(us, vs, |us|, which);
    } else {
      OutstandingSuffix(us, vs, n - 1, which);
      assert (us + vs)[|us| + n - 1] == vs[n - 1];
    }
  }

  lemma BracketedJoin(us: seq<Move>, vs: seq<Move>, which: PayKey -> bool)
    requires Bracketed(us, which) && Bracketed(vs, which)
    ensures Bracketed(us + vs, which)
  {
    forall n | 0 <= n <= |us + vs| ensures Outstanding(us + vs, n, which) >= 0 {
      if n <= |us| {
        OutstandingPrefix(us, vs, n, which);
      } else {
        OutstandingSuffix(us, vs, n - |us|, which);
      }
    }
    OutstandingSuffix(us, vs, |vs|, which);
  }

  lemma BracketedAround(first: Move, vs: seq<Move>, last: Move, key: PayKey, which: PayKey -> bool)
    requires first.deed == Reserving(key) && Commits(last, key) && Bracketed(vs, which)
    ensures Bracketed([first] + vs + [last], which)
  {
    var inner := [first] + vs;
    var all := inner + [last];
    assert Outstanding([first], 1, which) == Outstanding([first], 0, which) + Change([first][0], which);
    assert Outstanding([last], 1, which) == Outstanding([last], 0, which) + Change([last][0], which);
    OutstandingSuffix(inner, [last], 1, which);
    OutstandingSuffix([first], vs, |vs|, which);
    forall n | 0 <= n <= |all| ensures Outstanding(all, n, which) >= 0 {
      if 1 <= n <= |inner| {
        OutstandingPrefix(inner, [last], n, which);
        OutstandingSuffix([first], vs, n - 1, which);
      }
    }
  }

  lemma PlainIsBracketed(v: Move, which: PayKey -> bool)
    requires !v.deed.Reserving? && !v.deed.Committing?
    ensures Bracketed([v], which)
  {
    assert Outstanding([v], 1, which) == Outstanding([v], 0, which) + Change([v][0], which);
  }

  /** Within a transaction, of any key, of any merchant, there are never more commits than reservations,
      and in the end as many. */
  lemma {:induction false} RunBracketed(h: Host, s: State, c: Inner, which: PayKey -> bool)
    requires Run(h, s, c).Ok?
    ensures Bracketed(Run(h, s, c).value.1, which)
    decreases c, 2
  {
    match c
    case Plain(call, env) => PlainIsBracketed(Run(h, s, c).value.1[0], which);
    case Storing(_, _, _, _, _, _, _, _) =>
      var s0, l0, s1, s2, rule, l2 := StoringUnfolds(h, s, c);
      var key := (c.merchant, c.reference);
      var (s', vs) := Run(h, s, c).value;
      var first, last := Move(s0, Reserving(key), c.env, s1), Closing(s2, c, rule, s');
      DuringBracketed(h, s, c.view.minPayment.ParamCallFailed?, c.atMin, which);
      FindRuleBracketed(h, s1, c, which);
      BracketedAround(first, l2, last, key, which);
      BracketedJoin(l0, [first] + l2 + [last], which);
      assert vs == l0 + ([first] + l2 + [last]);
  }

  lemma {:induction false} FindRuleBracketed(h: Host, s: State, c: Inner, which: PayKey -> bool)
    requires c.Storing? && FindRule(h, s, c).Ok?
    ensures Bracketed(FindRule(h, s, c).value.2, which)
    decreases c, 1
  {
    if c.merchant !in s.rules && s.defaultRule.None? {
      var (s1, l1) := During(h, s, c.view.bypass.ParamCallFailed?, c.atBypass);
      DuringBracketed(h, s, c.view.bypass.ParamCallFailed?, c.atBypass, which);
      if c.view.bypass != ParamValue(1) {
        var (s2, l2) := During(h, s1, c.view.fee.FeeCallFailed?, c.atFee);
        DuringBracketed(h, s1, c.view.fee.FeeCallFailed?, c.atFee, which);
        BracketedJoin(l1, l2, which);
        var v := Move(s2, Caching(c.view), c.env, FindRule(h, s, c).value.0);
        PlainIsBracketed(v, which);
        BracketedJoin(l1 + l2, [v], which);
      }
    }
  }

  lemma {:induction false} DuringBracketed(h: Host, s: State, failed: bool, cs: seq<Inner>, which: PayKey -> bool)
    ensures Bracketed(During(h, s, failed, cs).1, which)
    decreases cs, 1
  {
    if !failed {
      RunAllBracketed(h, s, cs, which);
    }
  }

  lemma {:induction false} RunAllBracketed(h: Host, s: State, cs: seq<Inner>, which: PayKey -> bool)
    ensures Bracketed(RunAll(h, s, cs).1, which)
    decreases cs, 0
  {
    if cs == [] {
    } else {
      var first := Run(h, s, cs[0]);
      if first.Ok? {
        RunBracketed(h, s, cs[0], which);
        RunAllBracketed(h, first.value.0, cs[1..], which);
        BracketedJoin(first.value.1, RunAll(h, first.value.0, cs[1..]).1, which);
      } else {
        RunAllBracketed(h, s, cs[1..], which);
      }
    }
  }

  lemma SettledLoses(payments: map<PayKey, PaymentRecord>, open: set<PayKey>, keys: set<PayKey>, m: Address)
    requires keys <= RecordsOf(payments, m)
    ensures |RecordsOf(payments, m) - open| == |RecordsOf(payments - keys, m) - open| + |keys - open|
    ensures |keys| == |keys * open| + |keys - open|
  {
    var before, after := RecordsOf(payments, m) - open, RecordsOf(payments - keys, m) - open;
    forall x ensures x in after <==> x in before && x !in keys {}
    assert before == after + (keys - open);
    assert keys == keys * open + (keys - open);
  }

  lemma OthersKeep(payments: map<PayKey, PaymentRecord>, keys: set<PayKey>, merchant: Address, m: Address)
    requires keys <= RecordsOf(payments, merchant) && m != merchant
    ensures RecordsOf(payments - keys, m) == RecordsOf(payments, m)
  {}

  // ---- Counters, exactly ----------------------------------------------------------------------------------

  /** How many records the counter misses; negative when it counts too many. */
  function Gap(s: State, m: Address): int { |RecordsOf(s.payments, m)| - CountOf(s.counts, m) }

  /** A commit that finds its placeholder gone adds a record where only an overwrite was due. */
  function Refills(v: Move, m: Address): nat {
    if v.deed.Committing? && v.deed.key.0 == m && v.deed.key !in v.pre.payments then 1 else 0
  }

  /** What a prune removes beyond what the counter holds: the counter stops at zero. */
  function Clips(v: Move, m: Address): nat {
    if PrunesFor(v, m) then Max(0, |Removed(v)| - CountOf(v.pre.counts, m)) else 0
  }

  function TotalRefills(vs: seq<Move>, n: nat, m: Address): nat
    requires n <= |vs|
  {
    if n == 0 then 0 else TotalRefills(vs, n - 1, m) + Refills(vs[n - 1], m)
  }

  function TotalClips(vs: seq<Move>, n: nat, m: Address): nat
    requires n <= |vs|
  {
    if n == 0 then 0 else TotalClips(vs, n - 1, m) + Clips(vs[n - 1], m)
  }

  ghost predicate GapEffect(v: Move, m: Address) {
    Gap(v.post, m) == Gap(v.pre, m) + Change(v, OfMerchant(m)) + Refills(v, m) - Clips(v, m)
  }

  lemma SameKeySameRecords(payments: map<PayKey, PaymentRecord>, key: PayKey, record: PaymentRecord, m: Address)
    requires key in payments
    ensures RecordsOf(payments[key := record], m) == RecordsOf(payments, m)
  {}

  lemma WriteGap(a: State, key: PayKey, b: State, m: Address)
    requires key in b.payments && b.payments == a.payments[key := b.payments[key]]
    ensures |RecordsOf(b.payments, m)| == |RecordsOf(a.payments, m)| + if key !in a.payments && m == key.0 then 1 else 0
  {
    if key in a.payments {
      SameKeySameRecords(a.payments, key, b.payments[key], m);
    } else {
      OneMoreRecord(a.payments, key, b.payments[key], m);
    }
  }

  lemma PruneGap(a: State, merchant: Address, keys: set<PayKey>, b: State, m: Address)
    requires SamePruned(a, merchant, keys, b) && keys <= RecordsOf(a.payments, merchant)
    ensures Gap(b, m) == Gap(a, m) - if m == merchant then Max(0, |keys| - CountOf(a.counts, m)) else 0
  {
    if m == merchant {
      SettledLoses(a.payments, {}, keys, m);
      assert RecordsOf(a.payments, m) - {} == RecordsOf(a.payments, m);
      assert RecordsOf(a.payments - keys, m) - {} == RecordsOf(a.payments - keys, m);
      assert keys - {} == keys;
    } else {
      OthersKeep(a.payments, keys, merchant, m);
    }
  }

  lemma InvokedGap(v: Move, m: Address)
    requires BooksEffect(v) && v.deed.Invoked?
    ensures Gap(v.post, m) == Gap(v.pre, m) - Clips(v, m)
  {
    var call := v.deed.call;
    if call.StorePayment? {
      WriteGap(v.pre, (call.merchant, call.reference), v.post, m);
    } else if call.PrunePayment? || call.PrunePayments? {
      PruneGap(v.pre, call.merchant, Removed(v), v.post, m);
    }
  }

  lemma WritingGap(v: Move, m: Address)
    requires BooksEffect(v) && (v.deed.Reserving? || v.deed.Committing?)
    ensures Gap(v.post, m) == Gap(v.pre, m) + Change(v, OfMerchant(m)) + Refills(v, m)
  {
    WriteGap(v.pre, v.deed.key, v.post, m);
  }

  lemma MoveGap(v: Move, m: Address)
    requires BooksEffect(v)
    ensures GapEffect(v, m)
  {
    if v.deed.Invoked? {
      InvokedGap(v, m);
    } else if !v.deed.Caching? {
      WritingGap(v, m);
    }
  }

  lemma {:induction false} GapHistory(h: Host, s: State, vs: seq<Move>, s': State, n: nat, m: Address)
    requires ChainOk(h, s, vs, s') && 0 < |vs| && n <= |vs|
    ensures Gap(StateOf(vs, n), m) ==
              Gap(s, m) + Outstanding(vs, n, OfMerchant(m)) + TotalRefills(vs, n, m) - TotalClips(vs, n, m)
  {
    if n == 0 {
    } else {
      GapHistory(h, s, vs, s', n - 1, m);
      assert StateOf(vs, n - 1) == vs[n - 1].pre && StateOf(vs, n) == vs[n - 1].post;
      MoveBooks(h, vs[n - 1]);
      MoveGap(vs[n - 1], m);
    }
  }

  /** The exact condition, over any transactions with any entry points nested in them: what a merchant's
      counter misses is the number of its commits that found their placeholder gone, less what prunes
      of it removed beyond its counter; so the counter is exact exactly when the two agree. */
  lemma ReentrantCountIsExactIff(h: Host, s: State, steps: seq<Inner>, m: Address)
    requires Initial(s)
    ensures var (s', vs) := RunAll(h, s, steps);
            && |RecordsOf(s'.payments, m)| - CountOf(s'.counts, m) ==
                 TotalRefills(vs, |vs|, m) - TotalClips(vs, |vs|, m)
            && (CountOf(s'.counts, m) == |RecordsOf(s'.payments, m)| <==>
                  TotalRefills(vs, |vs|, m) == TotalClips(vs, |vs|, m))
  {
    var (s', vs) := RunAll(h, s, steps);
    RunAllIsChain(h, s, steps);
    RunAllBracketed(h, s, steps, OfMerchant(m));
    assert RecordsOf(s.payments, m) == {};
    if vs != [] {
      GapHistory(h, s, vs, s', |vs|, m);
    }
  }

  // ---- Keys in flight -------------------------------------------------------------------------------------

  function OpenStep(open: set<PayKey>, v: Move): set<PayKey> {
    match v.deed
    case Reserving(k) => open + {k}
    case Committing(k, _, _, _) => open - {k}
    case _ => open
  }

  /** The keys reserved and not yet committed before move n, when the given ones were at the start. */
  function OpenAt(open: set<PayKey>, vs: seq<Move>, n: nat): set<PayKey>
    requires n <= |vs|
  {
    if n == 0 then open else OpenStep(OpenAt(open, vs, n - 1), vs[n - 1])
  }

  /** No store of a key starts while that key is reserved. */
  ghost predicate Fresh(open: set<PayKey>, vs: seq<Move>) {
    forall i, k | 0 <= i < |vs| && Starts(vs[i], k) :: k !in OpenAt(open, vs, i)
  }

  ghost predicate CommitsOpen(open: set<PayKey>, vs: seq<Move>) {
    forall i | 0 <= i < |vs| && vs[i].deed.Committing? :: vs[i].deed.key in OpenAt(open, vs, i)
  }

  lemma {:induction false} OpenIsOutstanding(vs: seq<Move>, n: nat, k: PayKey)
    requires Bracketed(vs, OnKey(k)) && n <= |vs| && k in OpenAt({}, vs, n)
    ensures Outstanding(vs, n, OnKey(k)) >= 1
  {
    if vs[n - 1].deed == Reserving(k) {
      assert Outstanding(vs, n - 1, OnKey(k)) >= 0;
    } else {
      OpenIsOutstanding(vs, n - 1, k);
    }
  }

  /** If no store starts on a reserved key, each key has at most one reservation outstanding. */
  lemma {:induction false} FreshMeansOneReservation(vs: seq<Move>, n: nat, k: PayKey)
    requires Fresh({}, vs) && Bracketed(vs, OnKey(k)) && n <= |vs|
    ensures Outstanding(vs, n, OnKey(k)) == if k in OpenAt({}, vs, n) then 1 else 0
  {
    if n == 0 {
    } else {
      FreshMeansOneReservation(vs, n - 1, k);
      assert Outstanding(vs, n, OnKey(k)) >= 0;
      assert Starts(vs[n - 1], k) ==> k !in OpenAt({}, vs, n - 1);
    }
  }

  lemma FreshIsBalanced(vs: seq<Move>)
    requires Fresh({}, vs) && forall k :: Bracketed(vs, OnKey(k))
    ensures CommitsOpen({}, vs) && OpenAt({}, vs, |vs|) == {}
  {
    forall i | 0 <= i < |vs| && vs[i].deed.Committing? ensures vs[i].deed.key in OpenAt({}, vs, i) {
      var k := vs[i].deed.key;
      assert Outstanding(vs, i + 1, OnKey(k)) >= 0;
      FreshMeansOneReservation(vs, i, k);
    }
    forall k ensures k !in OpenAt({}, vs, |vs|) {
      FreshMeansOneReservation(vs, |vs|, k);
    }
  }

  lemma AllBracketed(h: Host, s: State, steps: seq<Inner>)
    ensures forall k :: Bracketed(RunAll(h, s, steps).1, OnKey(k))
  {
    forall k ensures Bracketed(RunAll(h, s, steps).1, OnKey(k)) {
      RunAllBracketed(h, s, steps, OnKey(k));
    }
  }

  // ---- Counters when no store starts on a reserved key ----------------------------------------------------

  /** The committed records of m: everything stored but the placeholders. */
  function Settled(s: State, open: set<PayKey>, m: Address): set<PayKey> { RecordsOf(s.payments, m) - open }

  /** How many committed records the counter misses. */
  function Drift(s: State, open: set<PayKey>, m: Address): int { |Settled(s, open, m)| - CountOf(s.counts, m) }

  /** The move prunes a key of m that an enclosing store has reserved. */
  predicate Breaks(open: set<PayKey>, v: Move, m: Address) { PrunesFor(v, m) && Removed(v) * open != {} }

  /** The move prunes and leaves m no committed record. */
  predicate Wipes(open: set<PayKey>, v: Move, m: Address) { PrunesFor(v, m) && Settled(v.post, open, m) == {} }

  lemma SettledGains(payments: map<PayKey, PaymentRecord>, open: set<PayKey>, k: PayKey, record: PaymentRecord,
                     m: Address)
    requires k in open || k !in payments
    ensures |RecordsOf(payments[k := record], m) - (open - {k})| ==
              |RecordsOf(payments, m) - open| + if m == k.0 then 1 else 0
  {
    var before, after := RecordsOf(payments, m) - open, RecordsOf(payments[k := record], m) - (open - {k});
    assert k !in before;
    forall x ensures x in after <==> x in before || (x == k && m == k.0) {}
    if m == k.0 {
      assert after == before + {k};
    } else {
      assert after == before;
    }
  }

  lemma SettledOneMore(a: State, open: set<PayKey>, k: PayKey, b: State, m: Address)
    requires k in b.payments && b.payments == a.payments[k := b.payments[k]]
    requires CountOf(a.counts, k.0) < U32_MAX && b.counts == a.counts[k.0 := CountOf(a.counts, k.0) + 1]
    requires k in open || k !in a.payments
    ensures Drift(b, open - {k}, m) == Drift(a, open, m)
  {
    SettledGains(a.payments, open, k, b.payments[k], m);
  }

  lemma SettledSame(a: State, open: set<PayKey>, k: PayKey, b: State, m: Address)
    requires k !in a.payments && b.payments == a.payments[k := Placeholder(k.0)] && b.counts == a.counts
    ensures Drift(b, open + {k}, m) == Drift(a, open, m)
  {
    assert Settled(b, open + {k}, m) == Settled(a, open, m);
  }

  /** A prune of R makes the counter miss as many records as it took reserved keys, but never more than
      the committed records it left: the counter stops at zero. */
  lemma PruneDrift(a: State, open: set<PayKey>, merchant: Address, keys: set<PayKey>, b: State, m: Address)
    requires SamePruned(a, merchant, keys, b) && keys <= RecordsOf(a.payments, merchant)
    ensures Drift(b, open, m) ==
              if m == merchant then Min(|Settled(b, open, m)|, Drift(a, open, m) + |keys * open|)
              else Drift(a, open, m)
  {
    if m == merchant {
      SettledLoses(a.payments, open, keys, m);
    } else {
      OthersKeep(a.payments, keys, merchant, m);
    }
  }

  ghost predicate DriftEffect(open: set<PayKey>, v: Move, m: Address) {
    Drift(v.post, OpenStep(open, v), m) ==
      if PrunesFor(v, m) then Min(|Settled(v.post, open, m)|, Drift(v.pre, open, m) + |Removed(v) * open|)
      else Drift(v.pre, open, m)
  }

  lemma MoveDrift(open: set<PayKey>, v: Move, m: Address)
    requires BooksEffect(v)
    requires forall k | Starts(v, k) :: k !in open
    requires v.deed.Committing? ==> v.deed.key in open
    ensures DriftEffect(open, v, m)
  {
    match v.deed
    case Reserving(k) => SettledSame(v.pre, open, k, v.post, m);
    case Committing(k, _, _, _) => SettledOneMore(v.pre, open, k, v.post, m);
    case Caching(_) => assert Settled(v.post, open, m) == Settled(v.pre, open, m);
    case Invoked(call) =>
      if call.StorePayment? {
        var k := (call.merchant, call.reference);
        assert Starts(v, k);
        assert open - {k} == open;
        SettledOneMore(v.pre, open, k, v.post, m);
      } else if call.PrunePayment? || call.PrunePayments? {
        PruneDrift(v.pre, open, call.merchant, Removed(v), v.post, m);
      } else {
        assert Settled(v.post, open, m) == Settled(v.pre, open, m);
      }
  }

  predicate BreaksAt(vs: seq<Move>, i: int, m: Address) { 0 <= i < |vs| && Breaks(OpenAt({}, vs, i), vs[i], m) }

  predicate WipesAt(vs: seq<Move>, i: int, m: Address) { 0 <= i < |vs| && Wipes(OpenAt({}, vs, i), vs[i], m) }

  /** Move i pruned a reserved key of m, and neither it nor a later prune before move n left m without
      committed records. */
  predicate Stands(vs: seq<Move>, i: int, n: nat, m: Address) {
    0 <= i < n && BreaksAt(vs, i, m) && forall j | i <= j < n :: !WipesAt(vs, j, m)
  }

  ghost predicate Short(vs: seq<Move>, n: nat, m: Address) { exists i :: Stands(vs, i, n, m) }

  lemma StandsStep(vs: seq<Move>, i: int, n: nat, m: Address)
    ensures Stands(vs, i, n + 1, m) <==>
              !WipesAt(vs, n, m) && (Stands(vs, i, n, m) || (i == n && BreaksAt(vs, n, m)))
  {}

  lemma ShortStep(vs: seq<Move>, n: nat, next: nat, m: Address)
    requires next == n + 1
    ensures Short(vs, next, m) <==> !WipesAt(vs, n, m) && (Short(vs, n, m) || BreaksAt(vs, n, m))
  {
    forall i ensures Stands(vs, i, next, m) <==>
                     !WipesAt(vs, n, m) && (Stands(vs, i, n, m) || (i == n && BreaksAt(vs, n, m)))
    {
      StandsStep(vs, i, n, m);
    }
    if !WipesAt(vs, n, m) && BreaksAt(vs, n, m) {
      assert Stands(vs, n, next, m);
    } else if !WipesAt(vs, n, m) && Short(vs, n, m) {
      var i :| Stands(vs, i, n, m);
      assert Stands(vs, i, next, m);
    }
  }

  lemma DriftAtStep(open: set<PayKey>, v: Move, m: Address)
    requires DriftEffect(open, v, m) && Drift(v.pre, open, m) >= 0
    ensures Drift(v.post, OpenStep(open, v), m) >= 0
    ensures Drift(v.post, OpenStep(open, v), m) > 0 <==>
              !Wipes(open, v, m) && (Drift(v.pre, open, m) > 0 || Breaks(open, v, m))
  {
    if PrunesFor(v, m) {
      assert |Removed(v) * open| > 0 <==> Removed(v) * open != {};
      assert |Settled(v.post, open, m)| > 0 <==> Settled(v.post, open, m) != {};
    }
  }

  function DriftAt(vs: seq<Move>, n: nat, m: Address): int
    requires 0 < |vs| && n <= |vs|
  {
    Drift(StateOf(vs, n), OpenAt({}, vs, n), m)
  }

  lemma DriftMoves(h: Host, s: State, vs: seq<Move>, s': State, i: nat, m: Address)
    requires ChainOk(h, s, vs, s') && Fresh({}, vs) && CommitsOpen({}, vs)
    requires i < |vs| && DriftAt(vs, i, m) >= 0
    ensures DriftAt(vs, i + 1, m) >= 0
    ensures DriftAt(vs, i + 1, m) > 0 <==> !WipesAt(vs, i, m) && (DriftAt(vs, i, m) > 0 || BreaksAt(vs, i, m))
  {
    var v, open := vs[i], OpenAt({}, vs, i);
    assert StateOf(vs, i) == v.pre && StateOf(vs, i + 1) == v.post && OpenAt({}, vs, i + 1) == OpenStep(open, v);
    MoveBooks(h, v);
    MoveDrift(open, v, m);
    DriftAtStep(open, v, m);
  }

  lemma {:induction false} DriftHistory(h: Host, s: State, vs: seq<Move>, s': State, n: nat, m: Address)
    requires ChainOk(h, s, vs, s') && Fresh({}, vs) && CommitsOpen({}, vs)
    requires 0 < |vs| && n <= |vs| && DriftAt(vs, 0, m) == 0
    ensures DriftAt(vs, n, m) >= 0 && (DriftAt(vs, n, m) > 0 <==> Short(vs, n, m))
  {
    if n == 0 {
    } else {
      DriftHistory(h, s, vs, s', n - 1, m);
      DriftMoves(h, s, vs, s', n - 1, m);
      ShortStep(vs, n - 1, n, m);
    }
  }

  lemma NothingOpen(s: State, m: Address)
    ensures Drift(s, {}, m) == |RecordsOf(s.payments, m)| - CountOf(s.counts, m)
  {
    assert Settled(s, {}, m) == RecordsOf(s.payments, m);
  }

  /** As long as no store starts on a reserved key, a condition on the prunes alone: a merchant's counter
      equals its number of records exactly when every prune of one of its reserved keys left it no
      committed record, or was followed by a prune that did. */
  lemma FreshCountIsExactIff(h: Host, s: State, steps: seq<Inner>, m: Address)
    requires Initial(s) && Fresh({}, RunAll(h, s, steps).1)
    ensures var (s', vs) := RunAll(h, s, steps);
            CountOf(s'.counts, m) == |RecordsOf(s'.payments, m)| <==> !Short(vs, |vs|, m)
  {
    var (s', vs) := RunAll(h, s, steps);
    RunAllIsChain(h, s, steps);
    AllBracketed(h, s, steps);
    FreshIsBalanced(vs);
    NothingOpen(s, m);
    assert RecordsOf(s.payments, m) == {};
    NothingOpen(s', m);
    if vs != [] {
      DriftHistory(h, s, vs, s', |vs|, m);
    }
  }
}
