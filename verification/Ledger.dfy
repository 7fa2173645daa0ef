/** Payment records, their counters and the merchant registry over whole runs. */
module Ledger {
  import opened Types
  import opened Multisig
  import opened Fees
  import opened Entry
  import opened Runs
  import opened Frames
  import opened Timelock

  /** The record is the split of its own amount at its own recorded rates. */
  predicate RecordOk(key: PayKey, record: PaymentRecord) {
    && record.merchant == key.0
    && CalculateSplit(record.amount, record.platformBps, record.networkBps) ==
         Ok(FeeSplit(record.amount, record.platformFee, record.networkFee, record.payout))
  }

  predicate Prunes(r: Rec, key: PayKey) {
    && r.ok
    && (|| (r.call.PrunePayment? && key == (r.call.merchant, r.call.reference))
        || (r.call.PrunePayments? && key.0 == r.call.merchant && key.1 in r.call.references))
  }

  predicate Stores(r: Rec, key: PayKey) {
    r.ok && r.call.StorePayment? && key == (r.call.merchant, r.call.reference)
  }

  /** What an invocation did to the records and counters. */
  ghost predicate LedgerEffect(r: Rec) {
    if r.ok && r.call.StorePayment? then
      var key := (r.call.merchant, r.call.reference);
      && !r.pre.paused && key.0 in r.pre.merchants && key !in r.pre.payments && key in r.post.payments
      && r.call.amount >= MinPayment(r.env.gov(r.pre.governance).minPayment)
      && r.post.payments == r.pre.payments[key := r.post.payments[key]]
      && CountOf(r.pre.counts, key.0) < U32_MAX
      && r.post.counts == r.pre.counts[key.0 := CountOf(r.pre.counts, key.0) + 1]
    else if r.ok && r.call.PrunePayment? then
      var keys := Stored(r.pre.payments, r.call.merchant, [r.call.reference]);
      SamePruned(r.pre, r.call.merchant, keys, r.post)
    else if r.ok && r.call.PrunePayments? then
      var keys := Stored(r.pre.payments, r.call.merchant, r.call.references);
      SamePruned(r.pre, r.call.merchant, keys, r.post)
    else SameLedger(r.pre, r.post)
  }

  predicate SamePruned(a: State, merchant: Address, keys: set<PayKey>, b: State) {
    && b.payments == a.payments - keys
    && b.counts == if keys == {} then a.counts
                   else a.counts[merchant := SaturatingSub(CountOf(a.counts, merchant), |keys|)]
  }

  /** The store step in its two halves: everything up to the rule, then the commit. */
  lemma StoreUnfolds(h: Host, r: Rec) returns (s2: State, rule: Rule)
    requires Legit(h, r) && r.ok && r.call.StorePayment?
    ensures var key := (r.call.merchant, r.call.reference);
            && !r.pre.paused && key.0 in r.pre.merchants && key !in r.pre.payments
            && r.call.amount >= MinPayment(r.env.gov(r.pre.governance).minPayment)
            && s2 == r.pre.(payments := r.pre.payments[key := Placeholder(key.0)], cachedRule := s2.cachedRule)
            && CommitPayment(s2, r.env.sequence, key, rule, SplitAt(r.call.amount, rule)) == Ok(r.post)
  {
    var key := (r.call.merchant, r.call.reference);
    var s1 := r.pre.(payments := r.pre.payments[key := Placeholder(key.0)]);
    var resolved := Resolve(s1, r.env, key.0).value;
    s2, rule := resolved.0, resolved.1.rule;
  }

  lemma StoreEffect(h: Host, r: Rec)
    requires Legit(h, r) && r.ok && r.call.StorePayment?
    ensures LedgerEffect(r)
    ensures var key := (r.call.merchant, r.call.reference);
            RecordOk(key, r.post.payments[key]) && r.post.payments[key].amount == r.call.amount
  {
    var s2, rule := StoreUnfolds(h, r);
    CommitEffect(r.pre, s2, r, rule, SplitAt(r.call.amount, rule));
    var key := (r.call.merchant, r.call.reference);
    SplitKeepsGross(r.call.amount, rule);
    CommittedRecordIsSplit(s2, r.env.sequence, key, r.call.amount, rule, r.post);
  }

  lemma CommitEffect(s: State, s2: State, r: Rec, rule: Rule, computed: Result<FeeSplit>)
    requires r.pre == s && r.ok && r.call.StorePayment?
    requires var key := (r.call.merchant, r.call.reference);
             && !s.paused && key.0 in s.merchants && key !in s.payments
             && r.call.amount >= MinPayment(r.env.gov(s.governance).minPayment)
             && s2 == s.(payments := s.payments[key := Placeholder(key.0)], cachedRule := s2.cachedRule)
             && CommitPayment(s2, r.env.sequence, key, rule, computed) == Ok(r.post)
    ensures LedgerEffect(r)
  {
    var key := (r.call.merchant, r.call.reference);
    assert r.post.payments == r.pre.payments[key := r.post.payments[key]];
  }

  lemma SplitKeepsGross(amount: i128, rule: Rule)
    requires SplitAt(amount, rule).Ok?
    ensures SplitAt(amount, rule).value.gross == amount
  {}

  lemma CommittedRecordIsSplit(s: State, sequence: u32, key: PayKey, amount: i128, rule: Rule, s': State)
    requires CommitPayment(s, sequence, key, rule, SplitAt(amount, rule)) == Ok(s')
    requires SplitAt(amount, rule).Ok? ==> SplitAt(amount, rule).value.gross == amount
    ensures key in s'.payments && RecordOk(key, s'.payments[key]) && s'.payments[key].amount == amount
  {}

  lemma PruneEffect(h: Host, r: Rec)
    requires Legit(h, r) && r.ok && (r.call.PrunePayment? || r.call.PrunePayments?)
    ensures LedgerEffect(r)
  {
    if r.call.PrunePayment? {
      var key := (r.call.merchant, r.call.reference);
      assert Stored(r.pre.payments, key.0, [key.1]) == if key in r.pre.payments then {key} else {};
    }
  }

  lemma StepLedger(h: Host, r: Rec)
    requires Legit(h, r)
    ensures LedgerEffect(r)
  {
    if !r.ok {
      AbortFrame(h, r);
    } else if IsAuthorityCall(r.call) {
      AuthorityFrame(h, r);
    } else if IsRegistryCall(r.call) {
      RegistryFrame(h, r);
    } else if IsQueueCall(r.call) {
      QueueFrame(h, r);
    } else if IsReadCall(r.call) {
      ReadFrame(h, r);
    } else if r.call.Execute? {
      ExecuteFrame(h, r);
      ArmFrame(Consume(r.pre, {h.Key(r.call.operation)}), r.env, r.call.executor, r.call.operation);
    } else if r.call.StorePayment? {
      StoreEffect(h, r);
    } else {
      PruneEffect(h, r);
    }
  }

  ghost predicate LedgerRun(t: seq<Rec>) {
    && Chained(t)
    && (forall i | 0 <= i < |t| :: LedgerEffect(t[i]))
    && (|t| > 0 ==> t[0].pre.payments == map[] && t[0].pre.counts == map[])
  }

  lemma RunIsLedgerRun(h: Host, t: seq<Rec>)
    requires ValidRun(h, t)
    ensures LedgerRun(t)
  {
    forall i | 0 <= i < |t| ensures LedgerEffect(t[i]) {
      StepLedger(h, t[i]);
    }
  }

  // ---- Counters -----------------------------------------------------------------------------------

  function RecordsOf(payments: map<PayKey, PaymentRecord>, m: Address): set<PayKey> {
    set k | k in payments && k.0 == m
  }

  /** The counter of every merchant is the number of its records. */
  ghost predicate CountsExact(s: State) {
    forall m :: CountOf(s.counts, m) == |RecordsOf(s.payments, m)|
  }

  lemma CountStep(r: Rec)
    requires LedgerEffect(r) && CountsExact(r.pre)
    ensures CountsExact(r.post)
    ensures r.ok && r.call.PrunePayments? ==>
              CountOf(r.pre.counts, r.call.merchant) >= |Stored(r.pre.payments, r.call.merchant, r.call.references)|
  {
    if r.ok && r.call.StorePayment? {
      StoredCounts(r.pre, (r.call.merchant, r.call.reference), r.post);
    } else if r.ok && r.call.PrunePayment? {
      PrunedCounts(r.pre, r.call.merchant, Stored(r.pre.payments, r.call.merchant, [r.call.reference]), r.post);
    } else if r.ok && r.call.PrunePayments? {
      PrunedCounts(r.pre, r.call.merchant, Stored(r.pre.payments, r.call.merchant, r.call.references), r.post);
    }
  }

  lemma OneMoreRecord(payments: map<PayKey, PaymentRecord>, key: PayKey, record: PaymentRecord, m: Address)
    requires key !in payments
    ensures |RecordsOf(payments[key := record], m)| == |RecordsOf(payments, m)| + if m == key.0 then 1 else 0
  {
    var before, after := RecordsOf(payments, m), RecordsOf(payments[key := record], m);
    assert key !in before;
    if m == key.0 {
      assert after == before + {key};
    } else {
      assert after == before;
    }
  }

  lemma StoredCounts(a: State, key: PayKey, b: State)
    requires CountsExact(a) && key !in a.payments && key in b.payments && CountOf(a.counts, key.0) < U32_MAX
    requires b.payments == a.payments[key := b.payments[key]]
    requires b.counts == a.counts[key.0 := CountOf(a.counts, key.0) + 1]
    ensures CountsExact(b)
  {
    forall m ensures CountOf(b.counts, m) == |RecordsOf(b.payments, m)| {
      OneMoreRecord(a.payments, key, b.payments[key], m);
      assert CountOf(a.counts, m) == |RecordsOf(a.payments, m)|;
    }
  }

  lemma PrunedCounts(a: State, merchant: Address, keys: set<PayKey>, b: State)
    requires CountsExact(a) && SamePruned(a, merchant, keys, b)
    requires keys <= RecordsOf(a.payments, merchant)
    ensures CountsExact(b) && CountOf(a.counts, merchant) >= |keys|
  {
    SubsetBound(keys, RecordsOf(a.payments, merchant));
    forall m ensures CountOf(b.counts, m) == |RecordsOf(b.payments, m)| {
      if m == merchant {
        assert RecordsOf(b.payments, m) == RecordsOf(a.payments, m) - keys;
      } else {
        assert RecordsOf(b.payments, m) == RecordsOf(a.payments, m);
      }
    }
  }

  /** In every committed state each merchant's counter equals its number of stored records, also
      through pruning with missing or repeated references. */
  lemma {:induction false} CountsFollowRecords(t: seq<Rec>, n: nat)
    requires LedgerRun(t) && 0 < |t| && n <= |t|
    ensures CountsExact(StateAt(t, n))
  {
    if n == 0 {
      forall m ensures RecordsOf(StateAt(t, 0).payments, m) == {} {}
    } else {
      CountsFollowRecords(t, n - 1);
      assert StateAt(t, n - 1) == t[n - 1].pre && StateAt(t, n) == t[n - 1].post;
      CountStep(t[n - 1]);
    }
  }

  lemma PaymentCountIsRecordCount(h: Host, t: seq<Rec>, n: nat, env: Env, m: Address, signers: seq<Address>)
    requires ValidRun(h, t) && 0 < |t| && n <= |t|
    ensures var s := StateAt(t, n);
            var reported := GetPaymentCount(s, env, m, signers);
            && CountOf(s.counts, m) == |RecordsOf(s.payments, m)|
            && (reported.Ok? <==> ReadGuard(s, env, m, signers).Pass?)
            && (reported.Ok? ==> reported.value == |RecordsOf(s.payments, m)|)
  {
    RunIsLedgerRun(h, t);
    CountsFollowRecords(t, n);
  }

  // ---- Records --------------------------------------------------------------------------------------

  /** Whatever holds of every record when it is stored holds of every record ever after. */
  lemma {:induction false} RecordsSatisfy(t: seq<Rec>, n: nat, p: (PayKey, PaymentRecord) -> bool)
    requires LedgerRun(t) && 0 < |t| && n <= |t|
    requires forall i, k | 0 <= i < |t| && Stores(t[i], k) :: p(k, t[i].post.payments[k])
    ensures forall k | k in StateAt(t, n).payments :: p(k, StateAt(t, n).payments[k])
  {
    if n == 0 {
    } else {
      RecordsSatisfy(t, n - 1, p);
      var r := t[n - 1];
      assert StateAt(t, n - 1) == r.pre && StateAt(t, n) == r.post;
      forall k | k in r.post.payments ensures p(k, r.post.payments[k]) {
        if !Stores(r, k) {
          KeyStep(r, k);
        }
      }
    }
  }

  /** Every stored record of a reachable state is the split of its own amount at its own rates: the
      legs are nonnegative and, for a nonnegative amount, add up to it. */
  lemma RecordsAreTheirOwnSplit(h: Host, t: seq<Rec>, n: nat, k: PayKey)
    requires ValidRun(h, t) && 0 < |t| && n <= |t| && k in StateAt(t, n).payments
    ensures var record := StateAt(t, n).payments[k];
            && RecordOk(k, record)
            && record.platformFee >= 0 && record.networkFee >= 0 && record.payout >= 0
            && record.platformFee + record.networkFee + record.payout == Max(record.amount, 0)
  {
    RunIsLedgerRun(h, t);
    forall i, k | 0 <= i < |t| && Stores(t[i], k) ensures RecordOk(k, t[i].post.payments[k]) {
      StoreEffect(h, t[i]);
    }
    RecordsSatisfy(t, n, RecordOk);
    var record := StateAt(t, n).payments[k];
    SplitConserves(record.amount, record.platformBps, record.networkBps);
  }

  /** One key's view of an invocation. */
  predicate KeyEffect(r: Rec, k: PayKey) {
    && (Stores(r, k) ==> k !in r.pre.payments && k in r.post.payments && !Prunes(r, k))
    && (!Stores(r, k) ==>
          && (k in r.post.payments <==> k in r.pre.payments && !Prunes(r, k))
          && (k in r.post.payments ==> r.post.payments[k] == r.pre.payments[k]))
  }

  ghost predicate KeyRun(t: seq<Rec>, k: PayKey) {
    Chained(t) && forall i | 0 <= i < |t| :: KeyEffect(t[i], k)
  }

  lemma KeyStep(r: Rec, k: PayKey)
    requires LedgerEffect(r)
    ensures KeyEffect(r, k)
  {}

  lemma RunIsKeyRun(h: Host, t: seq<Rec>, k: PayKey)
    requires ValidRun(h, t)
    ensures KeyRun(t, k)
  {
    forall i | 0 <= i < |t| ensures KeyEffect(t[i], k) {
      StepLedger(h, t[i]);
      KeyStep(t[i], k);
    }
  }

  /** A key's fate over a window in which it is not stored anew: it keeps its record until the
      first prune, and is gone afterwards. */
  lemma {:induction false} KeyFate(t: seq<Rec>, i: nat, j: nat, k: PayKey)
    requires KeyRun(t, k) && 0 < |t| && i <= j <= |t|
    requires forall m | i <= m < j :: !Stores(t[m], k)
    ensures var (a, b) := (StateAt(t, i).payments, StateAt(t, j).payments);
            && (k in b <==> k in a && forall m | i <= m < j :: !Prunes(t[m], k))
            && (k in b ==> b[k] == a[k])
    decreases j - i
  {
    if i == j {
    } else {
      KeyFate(t, i, j - 1, k);
      assert StateAt(t, j - 1) == t[j - 1].pre && StateAt(t, j) == t[j - 1].post;
      assert KeyEffect(t[j - 1], k);
    }
  }

  /** A stored key cannot be stored again, so a record never changes until it is pruned. */
  lemma RecordsAreImmutable(h: Host, t: seq<Rec>, i: nat, j: nat, k: PayKey)
    requires ValidRun(h, t) && 0 < |t| && i <= j <= |t|
    requires k in StateAt(t, i).payments
    requires forall m | i <= m < j :: !Prunes(t[m], k)
    ensures k in StateAt(t, j).payments && StateAt(t, j).payments[k] == StateAt(t, i).payments[k]
    ensures forall m | i <= m < j :: !Stores(t[m], k)
  {
    RunIsKeyRun(h, t, k);
    KeyPersists(t, i, j, k);
  }

  lemma {:induction false} KeyPersists(t: seq<Rec>, i: nat, j: nat, k: PayKey)
    requires KeyRun(t, k) && 0 < |t| && i <= j <= |t|
    requires k in StateAt(t, i).payments
    requires forall m | i <= m < j :: !Prunes(t[m], k)
    ensures k in StateAt(t, j).payments && StateAt(t, j).payments[k] == StateAt(t, i).payments[k]
    ensures forall m | i <= m < j :: !Stores(t[m], k)
    decreases j - i
  {
    if i == j {
    } else {
      KeyPersists(t, i, j - 1, k);
      assert StateAt(t, j - 1) == t[j - 1].pre && StateAt(t, j) == t[j - 1].post;
      assert KeyEffect(t[j - 1], k);
    }
  }
}
