/** The merchant registry, its tombstones and the readability of payment history. */
module Registry {
  import opened Types
  import opened Multisig
  import opened Fees
  import opened Entry
  import opened Runs
  import opened Frames
  import opened Timelock
  import opened Ledger

  /** Registered merchants and tombstones are disjoint, rules belong to registered merchants, and
      every record's merchant is registered or tombstoned. */
  predicate RegistryInv(s: State) {
    && Zero !in s.merchants
    && s.merchants !! s.archived
    && s.rules.Keys <= s.merchants
    && (forall k | k in s.payments :: k.0 in s.merchants || k.0 in s.archived)
  }

  lemma ArmKeepsRegistry(s: State, env: Env, executor: Address, op: Operation)
    requires RegistryInv(s) && Arm(s, env, executor, op).Ok?
    ensures RegistryInv(Arm(s, env, executor, op).value)
  {
    if op.UnregisterMerchant? {
      UnregisterKeepsRegistry(s, env, executor, op.merchant);
    } else if op.SetSettlementRule? || op.ClearSettlementRule? {
      RuleArmKeepsRegistry(s, env, executor, op);
    } else {
      OtherArmKeepsRegistry(s, env, executor, op);
    }
  }

  lemma UnregisterKeepsRegistry(s: State, env: Env, who: Address, merchant: Address)
    requires RegistryInv(s) && Unregister(s, env, who, merchant).Ok?
    ensures RegistryInv(Unregister(s, env, who, merchant).value)
  {}

  lemma RuleArmKeepsRegistry(s: State, env: Env, executor: Address, op: Operation)
    requires RegistryInv(s) && Arm(s, env, executor, op).Ok? && (op.SetSettlementRule? || op.ClearSettlementRule?)
    ensures RegistryInv(Arm(s, env, executor, op).value)
  {}

  lemma OtherArmKeepsRegistry(s: State, env: Env, executor: Address, op: Operation)
    requires RegistryInv(s) && Arm(s, env, executor, op).Ok?
    requires !op.UnregisterMerchant? && !op.SetSettlementRule? && !op.ClearSettlementRule?
    ensures RegistryInv(Arm(s, env, executor, op).value)
  {}

  lemma RegistryCallKeepsRegistry(h: Host, r: Rec)
    requires Legit(h, r) && RegistryInv(r.pre) && IsRegistryCall(r.call)
    ensures RegistryInv(r.post)
  {
    RegistryFrame(h, r);
  }

  lemma LedgerCallKeepsRegistry(r: Rec)
    requires LedgerEffect(r) && SameRegistry(r.pre, r.post) && RegistryInv(r.pre)
    ensures RegistryInv(r.post)
  {}

  lemma StepKeepsRegistry(h: Host, r: Rec)
    requires Legit(h, r) && RegistryInv(r.pre)
    ensures RegistryInv(r.post)
  {
    if !r.ok {
      AbortFrame(h, r);
    } else if IsAuthorityCall(r.call) {
      AuthorityFrame(h, r);
    } else if IsRegistryCall(r.call) {
      RegistryCallKeepsRegistry(h, r);
    } else if IsQueueCall(r.call) {
      QueueFrame(h, r);
    } else if IsLedgerCall(r.call) {
      LedgerFrame(h, r);
      StepLedger(h, r);
      LedgerCallKeepsRegistry(r);
    } else if IsReadCall(r.call) {
      ReadFrame(h, r);
    } else {
      ExecuteFrame(h, r);
      ArmKeepsRegistry(Consume(r.pre, {h.Key(r.call.operation)}), r.env, r.call.executor, r.call.operation);
    }
  }

  lemma {:induction false} RegistryInvariant(h: Host, t: seq<Rec>, n: nat)
    requires ValidRun(h, t) && 0 < |t| && n <= |t|
    ensures RegistryInv(StateAt(t, n))
  {
    if n == 0 {
    } else {
      RegistryInvariant(h, t, n - 1);
      assert StateAt(t, n - 1) == t[n - 1].pre && StateAt(t, n) == t[n - 1].post;
      StepKeepsRegistry(h, t[n - 1]);
    }
  }

  lemma OnlyRegisteredMerchantsStore(h: Host, r: Rec, k: PayKey)
    requires Legit(h, r) && Stores(r, k)
    ensures k.0 in r.pre.merchants && k.0 in r.post.merchants
  {
    StepLedger(h, r);
    LedgerFrame(h, r);
  }

  /** The merchant's records at step i that no step before j pruned. */
  ghost function Survivors(t: seq<Rec>, i: nat, j: nat, m: Address): map<PayKey, PaymentRecord>
    requires 0 < |t| && i <= j <= |t|
  {
    var before := StateAt(t, i).payments;
    map k | k in before && k.0 == m && (forall x | i <= x < j :: !Prunes(t[x], k)) :: before[k]
  }

  /** What every reader of a merchant's history is told when the records readable are exactly those. */
  ghost predicate ReadsExactly(s: State, env: Env, m: Address, signers: seq<Address>,
                               records: map<PayKey, PaymentRecord>)
  {
    && (forall r :: GetPaymentReference(s, env, m, r, signers) ==
                      Ok(if (m, r) in records then Some(records[(m, r)]) else None))
    && (forall rs, cursor | |rs| < MAX_PAYMENTS_BATCH ::
          GetPayments(s, env, m, rs, cursor, signers) == Ok((Found(records, m, rs), None)))
    && (forall rs, cursor: u32 | |rs| == MAX_PAYMENTS_BATCH && cursor + |rs| <= U32_MAX ::
          GetPayments(s, env, m, rs, cursor, signers) == Ok((Found(records, m, rs), Some(cursor + |rs|))))
    && |records| <= U32_MAX && GetPaymentCount(s, env, m, signers) == Ok(|records|)
  }

  ghost predicate Unreadable(s: State, env: Env, m: Address, signers: seq<Address>) {
    && (forall r :: GetPaymentReference(s, env, m, r, signers) == Err(PaymentOrphaned))
    && (forall rs, cursor :: GetPayments(s, env, m, rs, cursor, signers) == Err(PaymentOrphaned))
    && GetPaymentCount(s, env, m, signers) == Err(PaymentOrphaned)
  }

  lemma {:induction false} FoundAgrees(a: map<PayKey, PaymentRecord>, b: map<PayKey, PaymentRecord>, m: Address,
                                       references: seq<Reference>)
    requires forall r :: (m, r) in a <==> (m, r) in b
    requires forall r | (m, r) in a :: a[(m, r)] == b[(m, r)]
    ensures Found(a, m, references) == Found(b, m, references)
  {
    if references == [] {
    } else {
      FoundAgrees(a, b, m, references[..|references| - 1]);
    }
  }

  lemma CountIsSize(s: State, m: Address, records: map<PayKey, PaymentRecord>)
    requires CountsExact(s) && forall k | k in records :: k.0 == m
    requires forall r :: (m, r) in s.payments <==> (m, r) in records
    ensures CountOf(s.counts, m) == |records|
  {
    assert RecordsOf(s.payments, m) == records.Keys by {
      forall k ensures k in RecordsOf(s.payments, m) <==> k in records.Keys {
        assert k == (k.0, k.1);
      }
    }
    assert CountOf(s.counts, m) == |RecordsOf(s.payments, m)|;
  }

  lemma ReadableRecords(s: State, env: Env, m: Address, signers: seq<Address>, records: map<PayKey, PaymentRecord>)
    requires ReadGuard(s, env, m, signers).Pass? && CountsExact(s)
    requires forall k | k in records :: k.0 == m
    requires forall r :: (m, r) in s.payments <==> (m, r) in records
    requires forall r | (m, r) in records :: s.payments[(m, r)] == records[(m, r)]
    ensures ReadsExactly(s, env, m, signers, records)
  {
    forall rs: seq<Reference> ensures Found(s.payments, m, rs) == Found(records, m, rs) {
      FoundAgrees(s.payments, records, m, rs);
    }
    CountIsSize(s, m, records);
  }

  /** Between an unregistration and the next registration of a merchant its history is unreadable by
      anyone authorized; the registration makes exactly the unpruned records readable again,
      unchanged, one by one, in batches and in number. */
  lemma ReregistrationRestoresUnprunedRecords(h: Host, t: seq<Rec>, i: nat, j: nat, m: Address, env: Env,
                                              signers: seq<Address>)
    requires ValidRun(h, t) && 0 < |t| && i + 1 < j <= |t|
    requires m in StateAt(t, i).merchants && m in StateAt(t, j).merchants
    requires forall n | i < n < j :: m !in StateAt(t, n).merchants
    ensures forall n | i < n < j && ReadAuth(StateAt(t, n), env, m, signers).Pass? ::
              Unreadable(StateAt(t, n), env, m, signers)
    ensures ReadAuth(StateAt(t, j), env, m, signers).Pass? ==>
              ReadsExactly(StateAt(t, j), env, m, signers, Survivors(t, i, j, m))
  {
    RegistryInvariant(h, t, j);
    forall r: Reference
      ensures (m, r) in StateAt(t, j).payments <==> (m, r) in Survivors(t, i, j, m)
      ensures (m, r) in Survivors(t, i, j, m) ==> StateAt(t, j).payments[(m, r)] == Survivors(t, i, j, m)[(m, r)]
    {
      SurvivorsAreStored(h, t, i, j, (m, r));
    }
    RunIsLedgerRun(h, t);
    CountsFollowRecords(t, j);
    if ReadAuth(StateAt(t, j), env, m, signers).Pass? {
      ReadableRecords(StateAt(t, j), env, m, signers, Survivors(t, i, j, m));
    }
  }

  lemma SurvivorsAreStored(h: Host, t: seq<Rec>, i: nat, j: nat, k: PayKey)
    requires ValidRun(h, t) && 0 < |t| && i + 1 < j <= |t|
    requires forall n | i < n < j :: k.0 !in StateAt(t, n).merchants
    ensures k in StateAt(t, j).payments <==> k in Survivors(t, i, j, k.0)
    ensures k in Survivors(t, i, j, k.0) ==> StateAt(t, j).payments[k] == Survivors(t, i, j, k.0)[k]
  {
    NoStoreWhileUnregistered(h, t, i, j, k);
    RunIsKeyRun(h, t, k);
    KeyFate(t, i, j, k);
  }

  lemma NoStoreWhileUnregistered(h: Host, t: seq<Rec>, i: nat, j: nat, k: PayKey)
    requires ValidRun(h, t) && 0 < |t| && i + 1 < j <= |t|
    requires forall n | i < n < j :: k.0 !in StateAt(t, n).merchants
    ensures forall n | i <= n < j :: !Stores(t[n], k)
  {
    forall n | i <= n < j ensures !Stores(t[n], k) {
      assert StateAt(t, n) == t[n].pre && StateAt(t, n + 1) == t[n].post;
      if Stores(t[n], k) {
        OnlyRegisteredMerchantsStore(h, t[n], k);
      }
    }
  }

  /** What the contract takes at the bootstrap rates while governance is silent. */
  predicate Payable(amount: i128) {
    && MIN_PAYMENT_AMOUNT <= amount
    && amount * (BOOTSTRAP_RULE.platformBps + BOOTSTRAP_RULE.networkBps) + (DENOM - 1) <= I128_MAX
  }

  lemma PayableMeaning(amount: i128)
    ensures Payable(amount) <==> amount >= MIN_PAYMENT_AMOUNT && SplitAt(amount, BOOTSTRAP_RULE).Ok?
    ensures Payable(amount) ==> SplitAt(amount, BOOTSTRAP_RULE).value.gross == amount
  {
    SplitRefinesInteger(amount, BOOTSTRAP_RULE.platformBps, BOOTSTRAP_RULE.networkBps);
    if SplitAt(amount, BOOTSTRAP_RULE).Ok? {
      SplitKeepsGross(amount, BOOTSTRAP_RULE);
    }
  }

  /** A payment's history really comes back, from every initial state: register a merchant, store a
      payment, unregister it (the record is refused), register it again (the same record is read). */
  lemma HistoryResurrects(h: Host, s: State, env: Env, m: Address, reference: Reference, amount: i128)
    returns (t: seq<Rec>)
    requires Initial(s) && m != Zero && m !in s.admins && reference != ZeroReference
    requires m in env.auth && forall a | a in s.admins :: a in env.auth
    requires env.gov(s.governance) == OUTAGE
    requires Payable(amount)
    ensures ValidRun(h, t) && |t| == 4 && t[0].pre == s && forall i | 0 <= i < 4 :: t[i].ok
    ensures t[0].call == Call.RegisterMerchant(s.admins, m) == t[3].call
    ensures t[1].call == StorePayment(m, reference, amount) && t[2].call == Call.UnregisterMerchant(s.admins, m)
    ensures GetPaymentReference(StateAt(t, 3), env, m, reference, []) == Err(PaymentOrphaned)
    ensures (m, reference) in t[1].post.payments && t[1].post.payments[(m, reference)].amount == amount
    ensures GetPaymentReference(StateAt(t, 4), env, m, reference, []) == Ok(Some(t[1].post.payments[(m, reference)]))
  {
    var r0 := AdminsRegister(h, s, env, m);
    var r1 := MerchantStores(h, r0.post, env, m, reference, amount);
    var r2 := AdminsUnregister(h, r1.post, env, m);
    var r3 := AdminsRegister(h, r2.post, env, m);
    RunOfThree(h, r0, r1, r2);
    RunExtends(h, [r0, r1, r2], r3);
    t := [r0, r1, r2] + [r3];
  }

  lemma AdminsRegister(h: Host, s: State, env: Env, m: Address) returns (r: Rec)
    requires AdminsOk(s.admins, s.threshold) && !s.paused && m != Zero && m !in s.admins && m !in s.merchants
    requires m in env.auth && forall a | a in s.admins :: a in env.auth
    ensures Legit(h, r) && r.ok && r.pre == s && r.env == env && r.call == Call.RegisterMerchant(s.admins, m)
    ensures r.post == s.(merchants := s.merchants + {m}, archived := s.archived - {m}, log := r.post.log)
  {
    r := Invocation(h, s, Call.RegisterMerchant(s.admins, m), env);
    assert AuthOk(s.admins, s.admins, env.auth, s.threshold);
  }

  lemma AdminsUnregister(h: Host, s: State, env: Env, m: Address) returns (r: Rec)
    requires AdminsOk(s.admins, s.threshold) && !s.paused && m in s.merchants && m !in s.rules
    requires forall a | a in s.admins :: a in env.auth
    ensures Legit(h, r) && r.ok && r.pre == s && r.env == env && r.call == Call.UnregisterMerchant(s.admins, m)
    ensures r.post == s.(merchants := s.merchants - {m}, archived := s.archived + {m}, log := r.post.log)
  {
    r := Invocation(h, s, Call.UnregisterMerchant(s.admins, m), env);
    assert AuthOk(s.admins, s.admins, env.auth, s.threshold);
  }

  /** During an outage with nothing cached a payment is stored at the bootstrap rule. */
  lemma MerchantStores(h: Host, s: State, env: Env, m: Address, reference: Reference, amount: i128) returns (r: Rec)
    requires !s.paused && m in s.merchants && m in env.auth && reference != ZeroReference
    requires s.rules == map[] && s.defaultRule == None && s.cachedRule == None
    requires env.gov(s.governance) == OUTAGE
    requires (m, reference) !in s.payments && CountOf(s.counts, m) < U32_MAX
    requires Payable(amount)
    ensures Legit(h, r) && r.ok && r.pre == s && r.env == env && r.call == StorePayment(m, reference, amount)
    ensures (m, reference) in r.post.payments && r.post.payments[(m, reference)].amount == amount
    ensures r.post == s.(payments := s.payments[(m, reference) := r.post.payments[(m, reference)]],
                         counts := s.counts[m := CountOf(s.counts, m) + 1], log := r.post.log)
  {
    r := Invocation(h, s, StorePayment(m, reference, amount), env);
    StoreSucceeds(s, env, m, reference, amount);
  }

  lemma StoreSucceeds(s: State, env: Env, m: Address, reference: Reference, amount: i128)
    requires !s.paused && m in s.merchants && m in env.auth && reference != ZeroReference
    requires s.rules == map[] && s.defaultRule == None && s.cachedRule == None && env.gov(s.governance) == OUTAGE
    requires (m, reference) !in s.payments && CountOf(s.counts, m) < U32_MAX && Payable(amount)
    ensures var r := DoStorePayment(s, env, m, reference, amount);
            && r.Ok? && (m, reference) in r.value.payments && r.value.payments[(m, reference)].amount == amount
            && r.value == s.(payments := s.payments[(m, reference) := r.value.payments[(m, reference)]],
                             counts := s.counts[m := CountOf(s.counts, m) + 1], log := r.value.log)
  {
    StoreReachesCommit(s, env, m, reference, amount);
    PayableMeaning(amount);
    CommitSucceeds(s, env.sequence, (m, reference), SplitAt(amount, BOOTSTRAP_RULE));
  }

  lemma StoreReachesCommit(s: State, env: Env, m: Address, reference: Reference, amount: i128)
    requires !s.paused && m in s.merchants && m in env.auth && reference != ZeroReference
    requires s.rules == map[] && s.defaultRule == None && s.cachedRule == None && env.gov(s.governance) == OUTAGE
    requires (m, reference) !in s.payments && amount >= MIN_PAYMENT_AMOUNT
    ensures DoStorePayment(s, env, m, reference, amount) ==
              CommitPayment(s.(payments := s.payments[(m, reference) := Placeholder(m)]), env.sequence, (m, reference),
                            BOOTSTRAP_RULE, SplitAt(amount, BOOTSTRAP_RULE))
  {}

  lemma CommitSucceeds(s: State, sequence: u32, key: PayKey, computed: Result<FeeSplit>)
    requires computed.Ok? && CountOf(s.counts, key.0) < U32_MAX
    ensures var r := CommitPayment(s.(payments := s.payments[key := Placeholder(key.0)]), sequence, key, BOOTSTRAP_RULE,
                                   computed);
            && r.Ok? && key in r.value.payments && r.value.payments[key].amount == computed.value.gross
            && r.value == s.(payments := s.payments[key := r.value.payments[key]],
                             counts := s.counts[key.0 := CountOf(s.counts, key.0) + 1], log := r.value.log)
  {
    var r := CommitPayment(s.(payments := s.payments[key := Placeholder(key.0)]), sequence, key, BOOTSTRAP_RULE,
                           computed).value;
    assert r.payments == s.payments[key := r.payments[key]];
  }
}
