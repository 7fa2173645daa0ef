/** What callers are told and charged: the quote, the record, the counts returned, and the reads. */
module Charges {
  import opened Types
  import opened Multisig
  import opened Fees
  import opened Entry
  import opened Verdicts
  import opened Effects

  /** A quote is the split due at the rule in force, and is given exactly to registered merchants for
      amounts governance lets through that the split can compute. */
  lemma QuoteIsDue(s: State, env: Env, m: Address, amount: i128)
    ensures var rule, quote := RuleInForce(s, env, m), DoCalculateFeeSplit(s, env, m, amount);
            && (quote.Ok? <==> && m in s.merchants && amount >= Minimum(s, env) && (m in s.rules || Resolvable(s, env))
                               && SumFits(amount, rule.platformBps, rule.networkBps))
            && (quote.Ok? ==> quote.value.1 == Due(amount, rule))
  {
    ResolutionMeaning(s, env, m);
    SplitOutcome(amount, RuleInForce(s, env, m));
    SplitIsDue(amount, RuleInForce(s, env, m));
  }

  /** The quote is the charge: whenever a store is accepted, the quote from the same state and answers is
      given, and is the split in the stored record; and a quoted amount is refused by the store only for
      the key, the pause, the merchant's authentication or a full counter. */
  lemma QuoteIsCharge(h: Host, s: State, env: Env, m: Address, r: Reference, amount: i128)
    ensures var quote, store := DoCalculateFeeSplit(s, env, m, amount), Apply(h, s, StorePayment(m, r, amount), env);
            && (store.Ok? ==>
                  && quote.Ok? && (m, r) in store.value.payments
                  && var record := store.value.payments[(m, r)];
                     quote.value.1 == FeeSplit(gross := record.amount, platform := record.platformFee,
                                               network := record.networkFee, merchant := record.payout))
            && (quote.Ok? ==>
                  (store.Ok? <==> && r != ZeroReference && !s.paused && m in env.auth && (m, r) !in s.payments
                                  && CountOf(s.counts, m) < U32_MAX))
  {
    QuoteIsDue(s, env, m, amount);
    StoreOutcome(h, s, env, m, r, amount);
    if Apply(h, s, StorePayment(m, r, amount), env).Ok? {
      StoredRecord(h, s, env, m, r, amount);
    }
  }

  lemma StoreOutcome(h: Host, s: State, env: Env, m: Address, r: Reference, amount: i128)
    ensures var rule := RuleInForce(s, env, m);
            Apply(h, s, StorePayment(m, r, amount), env).Ok? <==>
              && r != ZeroReference && !s.paused && m in env.auth && m in s.merchants && amount >= Minimum(s, env)
              && (m, r) !in s.payments && (m in s.rules || Resolvable(s, env))
              && SumFits(amount, rule.platformBps, rule.networkBps) && CountOf(s.counts, m) < U32_MAX
  {
    StoreAsVerdict(h, s, StorePayment(m, r, amount), env);
  }

  /** The record of an accepted store, field by field: the paid amount, the whole-number legs at the rates
      in force, those rates, the ledger it was stored at and the rule's delay and settlement flag; and the
      event carries that record. */
  lemma StoredRecord(h: Host, s: State, env: Env, m: Address, r: Reference, amount: i128)
    requires Apply(h, s, StorePayment(m, r, amount), env).Ok?
    ensures var s' := Apply(h, s, StorePayment(m, r, amount), env).value;
            var rule := RuleInForce(s, env, m);
            && (m, r) in s'.payments
            && var record := s'.payments[(m, r)];
               && record.merchant == m && record.amount == amount && record.version == 1
               && record.platformBps == rule.platformBps && record.networkBps == rule.networkBps
               && record.delayLedger == rule.delayLedger && record.autoSettle == rule.autoSettle
               && record.ledger == env.sequence
               && (amount >= 0 ==>
                     && record.platformFee == PlatformLeg(amount, rule.platformBps)
                     && record.networkFee == NetworkLeg(amount, rule.platformBps, rule.networkBps)
                     && record.payout == Payout(amount, rule.platformBps, rule.networkBps))
               && (amount < 0 ==> record.platformFee == record.networkFee == record.payout == 0)
               && |s'.log| > |s.log| && s'.log[|s'.log| - 1] == PaymentStored(m, r, record)
  {
    StoreCallEffect(h, s, StorePayment(m, r, amount), env);
  }

  // ---- Dry runs ------------------------------------------------------------------------------------------------

  /** dry_run answers for execute: it refuses what execute would refuse before its arm, with the same
      error, and otherwise execute's outcome is the arm's alone. */
  lemma DryRunPredictsExecute(h: Host, s: State, env: Env, executor: Address, op: Operation)
    ensures var dry, run := Apply(h, s, DryRun(op), env), Apply(h, s, Execute(executor, op), env);
            && (dry.Ok? <==> && !s.paused && Queued(h, s, op) && s.queue[h.sha256(h.xdr(op))].executeAt <= env.now
                             && (s.pending == None || op == Operation.CancelRecovery))
            && (dry.Ok? ==> dry.value == s && OutcomeOf(run) == ArmVerdict(s, env, op))
            && (dry.Err? ==> run == Err(dry.error))
  {
    QueueAsVerdict(h, s, DryRun(op), env);
    ExecuteAsVerdict(h, s, Execute(executor, op), env);
  }

  // ---- Counts returned -----------------------------------------------------------------------------------------

  /** The batch calls return how many entries they really removed. */
  lemma BatchesReturnWhatTheyRemoved(h: Host, s: State, env: Env, signers: seq<Address>, ops: seq<Operation>,
                                     m: Address, references: seq<Reference>)
    ensures var r := DoCancelAll(h, s, env, signers, ops);
            r.Ok? ==> r.value.1 == |s.queue| - |r.value.0.queue| && |r.value.0.queue| <= |s.queue|
    ensures var r := DoPrunePayments(s, env, signers, m, references);
            r.Ok? ==> r.value.1 == |s.payments| - |r.value.0.payments| && |r.value.0.payments| <= |s.payments|
  {}

  // ---- Reads -----------------------------------------------------------------------------------------------------

  /** A merchant may read its own history, alone and authenticated; otherwise a quorum of admins must. It
      is readable while the merchant is registered. */
  function ReadVerdict(s: State, env: Env, m: Address, signers: seq<Address>): Guard {
    (if signers == [] then Need(m in env.auth, AuthMissing)
     else CheckAuth(s.admins, signers, env.auth, s.threshold))
    .Then(Need(m in s.merchants && m !in s.archived, PaymentOrphaned))
  }

  /** Every payment read: when it answers, what, and with which error it refuses otherwise. */
  lemma ReadsAnswerExactly(s: State, env: Env, m: Address, r: Reference, references: seq<Reference>, cursor: u32,
                           signers: seq<Address>)
    ensures OutcomeOf(GetPaymentReference(s, env, m, r, signers)) == ReadVerdict(s, env, m, signers)
    ensures OutcomeOf(GetPaymentCount(s, env, m, signers)) == ReadVerdict(s, env, m, signers)
    ensures OutcomeOf(GetPayments(s, env, m, references, cursor, signers)) ==
              ReadVerdict(s, env, m, signers)
              .Then(Need(|references| <= 100, BatchTooLarge))
              .Then(Need(|references| == 100 ==> cursor + 100 <= U32_MAX, IntegerTrap))
    ensures ReadVerdict(s, env, m, signers).Pass? ==>
              && GetPaymentReference(s, env, m, r, signers) ==
                   Ok(if (m, r) in s.payments then Some(s.payments[(m, r)]) else None)
              && GetPaymentCount(s, env, m, signers) == Ok(if m in s.counts then s.counts[m] else 0)
    ensures GetPayments(s, env, m, references, cursor, signers).Ok? ==>
              GetPayments(s, env, m, references, cursor, signers).value ==
                (Found(s.payments, m, references),
                 if |references| == 100 && cursor + 100 <= U32_MAX then Some(cursor + 100) else None)
  {}
}
