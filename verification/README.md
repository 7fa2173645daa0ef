# BettaPay settlement and governance: a verified model

This project models the two BettaPay Soroban contracts and the off-chain script that rebuilds the
timelock queue, and proves properties of them over every input, every run and every reachable state.

## How it is organised

- `Types`, `Multisig`, `Fees`: machine integers, addresses, rules, operations, admin sets, fee arithmetic.
- `Entry`: the specification. Each entry point maps the stored state, the call and the host environment
  (ledger time, authenticated addresses, governance answers) to the next state or an error. `Apply` is
  one invocation; `Step` is its committed effect, an abort rolling everything back.
- `Settlement`, `Governance`/`GovernanceContract`: the contracts in their own imperative form, classes whose
  fields are the storage entries, with the scans and batch loops written out. Each method is proved
  against its function in `Entry` or `Governance`; `Invoke` dispatches to all of them and adds the host's
  rollback. `Driver` shows that a driven object produces exactly the runs below.
- `Runs`, `Frames`: a run is a chain of invocations at nondecreasing ledger times starting after init.
- `Verdicts`, `Effects`, `Charges`, `Consent`, `GovernanceVerdicts`: when every entry point is accepted, what it
  then leaves, what payments and quotes cost and who agreed, stated on the stored fields, the
  authenticated addresses and the returned values alone. `RuleOrigins` follows every stored rule back to the
  call that gave it.
- `Timelock`, `PlainQueue`, `Recovery`, `Authority`, `Ledger`, `Registry`, `Rules`, `Degradation`,
  `World`, `EventLog`, `Offchain`: the theorems. Each aspect first proves what one invocation does to it, then
  argues over whole runs from that summary alone.
- `Reentry`, `ReentryCharges`, `ReentryLedger`, `ReentryRecords`, `Reached`, `ReentrySafety`,
  `ReentryWitness`: stores whose governance calls call back into any entry point. Committed transactions are
  flattened to chains of moves, and the theorems are about chains.

The operation encoding is an arbitrary injective function and the hash an arbitrary function, so every
timelock theorem holds with hash collisions.

## Where code and documentation differ

The model follows the code.

- Settlement's `change_threshold` demands one signer more than the threshold
  (settlement_contract/src/admin.rs:400), while tests in the same file expect the threshold to suffice
  (settlement_contract/src/admin.rs:1289-1327). `Authority.ChangeThresholdNeedsASpareAdmin` gives the exact
  condition under which any signer set can succeed.
- Initiating a recovery is said to stop every operation scheduled under the old admins from executing
  (settlement_contract/src/admin.rs:230-234); the veto ends with the recovery, and
  `SettlementRecovery.OldOperationsOutliveTheVeto` says exactly when such an operation executes afterwards,
  `SettlementRecovery.OldOperationRunsAfterRecovery` is a run.
- Admin/merchant exclusivity is said to hold in both directions (settlement_contract/src/admin.rs:373);
  a recovery can install a registered merchant (`Authority.RecoveryMayInstallMerchant` is a run), and
  `Authority.AdminMerchantsComeFromRecovery` says that nothing else does.
- The tombstone comment says it survives re-registration, so that history is never resurrected
  (settlement_contract/src/types.rs:215-219); both registration paths remove it.
  `Registry.ReregistrationRestoresUnprunedRecords` says exactly which records come back,
  `Registry.HistoryResurrects` is a run.
- The outage table says payments fall back to the bootstrap rule (settlement_contract/src/lib.rs:224);
  the code serves the last good governance rule first. `Degradation.OutageServesLastGood` is the exact
  condition, `Degradation.OutageServesCachedConfig` a run.
- The outage table says `update_governance` checks the new contract's interface
  (settlement_contract/src/lib.rs:233); the code only refuses the zero address:
  `Degradation.GovernanceChangeAsksNobody`, and `Degradation.DeadGovernanceIsAccepted` for a run.
- `get_pending_operation_count` is documented as the queue depth; that is exact only while the depth
  stays within u32, see `Timelock.PendingCountIsQueueSize`; `Timelock.CounterCanFallShort` is a run that
  leaves it.
- The placeholder is said to guard a store against re-entry (settlement_contract/src/payments.rs:541-545). It
  refuses a nested store, but not a nested prune of the key: `ReentryLedger.ReentrantCountIsExactIff` is the
  exact condition under which the counters survive, over every run; `ReentryWitness.CounterFallsShort` and
  `ReentryWitness.CounterCountsTooMany` are runs in which they do not. A nested store after such a prune is
  overwritten by the outer one; `ReentryRecords.ReentrantKeyIsStoredOnce` says that this is the only way.
- The off-chain report is documented as the pending set; `Offchain.ReportErrors` says exactly which
  hashes it gets wrong, `Offchain.DrainedIsStillReported` and `Offchain.RescheduledIsNotReported` are runs.

## Model

| member | source | states |
|---|---|---|
| `Fees.ClampFeeLegs` | settlement_contract/src/payments.rs:36-49 | legs are nonnegative, add up to max(gross, 0), and are untouched when they already fit |
| `Fees.SplitRefinesInteger` | settlement_contract/src/payments.rs:78-132 | for every i128 amount and u32 rates the split overflows exactly when amount*(p+n) or that plus 9999 leaves i128, always with AmountOverflow; otherwise the legs are the unbounded-integer legs, or zero for a negative gross |
| `Fees.SplitConserves` | settlement_contract/src/payments.rs:18-49 | every accepted split has nonnegative legs that sum to max(gross, 0) |
| `Fees.CeilFeeMeaning` | bettapay_common/src/types.rs:55-61 | the ceiling fee is the unique integer in [exact, exact + 1) |
| `Fees.CheckedFeeMeaning` | bettapay_common/src/types.rs:55-61 | whenever the numerator fits, the checked fee exists and, for a nonnegative amount, is the ceiling fee |
| `Fees.TwoLegsOvershootByAtMostOne` | FEE_ROUNDING.md:10-30 | rates summing to at most 100% overshoot the gross by at most one unit |
| `Fees.ClampTakesAtMostOneUnit` | settlement_contract/src/payments.rs:36-49 | for every accepted rule the platform leg is never clamped, the network leg loses at most one unit, each leg is less than a unit above its exact value, and for amounts of at least 100 fee*10000 < amount*(bps+100) |
| `Fees.SplitMonotone` | settlement_contract/src/payments.rs:388-406 | over every pair of accepted amounts, platform and clamped network legs never decrease, and with rates summing to at most 10000 the payout never drops by more than one unit |
| `Fees.PayoutCanDrop` | settlement_contract/src/payments.rs:78-132 | the one-unit payout drop really occurs, at the default minimum: at 2500 + 2500 bps a payment of 100 pays out 50 and one of 101 pays out 49 |
| `Fees.SplittingPayments` | bettapay_common/src/types.rs:55-61 | if the whole amount is accepted so is each of k parts, and the platform fees the split takes of the parts add up to at least the fee of the whole and at most k-1 units more |
| `Multisig.ValidateAdmins` | settlement_contract/src/storage.rs:95-111 | the nested scan reports exactly the specified first fault; it passes iff threshold is in range and admins are nonzero and distinct |
| `Multisig.VerifyAdminAuth` | settlement_contract/src/storage.rs:113-137 | the nested scan reports exactly the specified first fault; it passes iff enough distinct admins signed and are authenticated |
| `Multisig.FirstAdminFault` | settlement_contract/src/storage.rs:95-111 | an admin list is refused for its first entry that is zero or recurs, a zero entry with the zero-address error |
| `Multisig.FirstAuthFault` | settlement_contract/src/storage.rs:113-137 | a signer list is refused for its first entry that is no admin, recurs or is not authenticated, the last with its own error |
| `Multisig.CountsComeFirst` | settlement_contract/src/storage.rs:95-137 | a threshold out of range and too short a signer list are refused before any entry is looked at |
| `Multisig.ThresholdIsSatisfiable` | settlement_contract/src/storage.rs:113-137 | a usable admin set can always meet its threshold, and an accepted signer list has a first element |
| `Multisig.QuorumExists` | settlement_contract/src/storage.rs:113-137 | a signer count can be met iff there are that many admins |
| `Entry.RuleBounds` | settlement_contract/src/settlement.rs:35-55 | the five ordered checks accept exactly the rules with fees in [5, 5000], sum at most 10000 and delay at most 100000 |
| `Entry.FoundIsStoredSubsequence` | settlement_contract/src/payments.rs:811-851 | the records a batch read returns are those of exactly the stored requests, each under its request, in request order |
| `Runs.InitializeYieldsInitial` | settlement_contract/src/admin.rs:138-184 | init succeeds iff admins are usable, governance and recovery nonzero and deployer and every admin authenticated; it stores exactly those and nothing else |
| `Verdicts.AcceptedExactly` | settlement_contract/src/admin.rs:217-885 | every entry point, direct or timelocked, is accepted exactly when its conditions on the stored fields, the authenticated addresses and the values governance returned all hold, and otherwise refused with the error of the first that does not; the ceiling is a comparison rate by rate, the minimum is governance's value or 100 |
| `Verdicts.ConfiguredCeiling` | settlement_contract/src/storage.rs:732-748 | under governance rates (p, n) the ceiling passes a rule iff platform <= p and network <= n, and otherwise says FeeExceedsGovernanceConfig |
| `Verdicts.ResolutionLeaves` | settlement_contract/src/storage.rs:385-441 | resolution yields the rule of the first tier that has one, says which tier that was, and changes nothing but the last good config, which a config governance names replaces |
| `Effects.LeavesExactly` | settlement_contract/src/admin.rs:217-885 | every accepted entry point, direct or timelocked, stores exactly what it was given: the literal next state, field by field, and the events it announces; nothing else changes |
| `Consent.AcceptedIsConsented` | settlement_contract/src/storage.rs:113-137 | for every accepted invocation a quorum of the stored admins signed and is authenticated (one more for change_threshold), or the recovery address, its initiator or the merchant agreed, as the entry point asks |
| `Consent.EveryChangeWasAgreedTo` | settlement_contract/src/admin.rs:548-713 | whatever step of a run changes anything but the last good config, those concerned agreed to it there and then, or a quorum scheduled it at least 7 days before, or the recovery address initiated it at least 7 days before |
| `RuleOrigins.RulesWereGiven` | settlement_contract/src/settlement.rs:59-171 | at every point of every run a merchant has a rule iff an accepted call gave it that very rule and none since rewrote or removed it; likewise the default |
| `RuleOrigins.StoredRulesWereChecked` | settlement_contract/src/storage.rs:732-748 | at every point of every run every stored rule was given by a call at which it was within bounds, governance answered, and the rule lay under the config it answered, if any, rate by rate |
| `Charges.StoredRecord` | settlement_contract/src/payments.rs:555-597 | the record of an accepted store holds, field by field, the merchant, the amount, the whole-number legs at the rates in force, those rates, the ledger sequence, the rule's delay and settlement flag and version 1; the last event carries that record |
| `Charges.QuoteIsDue` | settlement_contract/src/payments.rs:611-628 | a quote is given iff the merchant is registered, the amount at least the minimum, the rule resolves and the split fits; it is the whole-number split at the rule in force |
| `Charges.QuoteIsCharge` | settlement_contract/src/payments.rs:611-628 | from the same state and answers an accepted store writes exactly the quoted split, and a quoted store is refused only for its key, the pause, the merchant's authentication or a full counter |
| `Charges.DryRunPredictsExecute` | settlement_contract/src/admin.rs:734-736 | dry_run succeeds iff unpaused, queued, due and not vetoed; then the outcome of execute is that of the operation's own conditions, and otherwise execute fails with dry_run's error |
| `Charges.BatchesReturnWhatTheyRemoved` | settlement_contract/src/payments.rs:687-718 | cancel_all and prune_payments return the number of entries they removed |
| `Charges.ReadsAnswerExactly` | settlement_contract/src/payments.rs:742-884 | the payment reads answer the authenticated merchant, or an authenticated quorum, while the merchant is registered; what they answer, the cursor included, and each refusal |
| `Settlement.SettlementContract.Init` | settlement_contract/src/admin.rs:138-184 | the imperative init yields a fresh contract in exactly the specified state, or the specified error |
| `Settlement.SettlementContract.Invoke` | settlement_contract/src/admin.rs:678-713 | one invocation commits exactly the specified next state or leaves the state unchanged, with the specified outcome, for all 25 entry points |
| `Settlement.SettlementContract.StorePayment` | settlement_contract/src/payments.rs:509-601 | guards, placeholder, resolution, record, counter; returns exactly the split stored in the record |
| `Settlement.SettlementContract.InstallAdmins` | settlement_contract/src/admin.rs:365-388 | the scan over the new admins refuses any registered merchant; otherwise the validated set is written and announced |
| `Settlement.SettlementContract.CancelEach` | settlement_contract/src/admin.rs:797-828 | the batch loop consumes exactly the slots its list names, repeated and missing ones aside, and returns their number |
| `Settlement.SettlementContract.PruneEach` | settlement_contract/src/payments.rs:687-718 | the batch loop removes exactly the stored references it names, repeated and missing ones aside, and returns their number |
| `Settlement.SettlementContract.ReadPayments` | settlement_contract/src/payments.rs:811-851 | returns the stored records among the requested references in order, with the paging cursor |
| `Timelock.StepQueue` | settlement_contract/src/admin.rs:548-713 | the complete effect of every entry point on the queue and its counter |
| `Timelock.TimelockSafety` | settlement_contract/src/admin.rs:839-885 | every executed operation has an earlier schedule of the byte-identical operation signed by an authenticated quorum of the admins of its time, delay between 7 and 30 days and fully elapsed, untouched in between; unpaused and not vetoed |
| `Timelock.MatchingIsOneToOne` | settlement_contract/src/admin.rs:662-671 | executions and their schedules match one to one |
| `Timelock.QueueConservation` | settlement_contract/src/admin.rs:614-628 | for every operation, scheduled = executed + cancelled + (1 if queued), at every point of every run |
| `Timelock.PendingCountIsQueueSize` | settlement_contract/src/storage.rs:312-343 | the counter equals the queue size throughout a run iff the size stays within u32, and then no decrement saturates |
| `Timelock.CounterCanFallShort` | settlement_contract/src/storage.rs:312-343 | over any collision-free hash, from every initial state, a run of U32_MAX + 1 schedules leaves that depth under a counter of U32_MAX |
| `PlainQueue.QueueRefinesPlainMap` | settlement_contract/src/admin.rs:592-628 | for any hash function, every step of the hash-indexed queue is the same step of a plain map from operation to execute time |
| `PlainQueue.CollisionsOnlyAddRefusals` | settlement_contract/src/admin.rs:592-606 | schedule accepts exactly the authenticated quorums, delays, sizes and operations a plain map would, minus occupied hashes, which give OperationHashCollision; a collision-free hash refuses nothing extra |
| `PlainQueue.ReadinessIsPlain` | settlement_contract/src/admin.rs:839-885 | readiness and cancellation depend only on the plain map |
| `PlainQueue.CancelAllCountsDistinctQueued` | settlement_contract/src/admin.rs:797-828 | cancel_all returns the number of distinct queued operations in its list and removes exactly those |
| `Recovery.PendingHasStart` | settlement_contract/src/admin.rs:235-261 | a pending record was written by the latest initiation and is unchanged since |
| `Recovery.RecoverySafety` | settlement_contract/src/admin.rs:319-340 | a completed recovery installs exactly the latest initiation's target, at least 7 days later, uncancelled |
| `SettlementRecovery.ExecutedRecoveryInstallsLatestTarget` | settlement_contract/src/admin.rs:319-340 | recovery safety over settlement runs, timelocked cancellation included |
| `SettlementRecovery.MatureRecoveryAlwaysCompletes` | settlement_contract/src/admin.rs:319-340 | in every reachable state execute_recovery succeeds iff a recovery is pending and mature |
| `SettlementRecovery.PendingRecordNeverChanges` | settlement_contract/src/admin.rs:241-258 | the record is frozen while it exists |
| `SettlementRecovery.ScheduledBehindRecovery` | settlement_contract/src/policy.rs:69-86 | an operation scheduled while a recovery is pending cannot be executable before the recovery is |
| `SettlementRecovery.QueuedBehindRecovery` | bettapay_common/src/constants.rs:52-57 | in every reachable state a queued operation scheduled after the recovery began waits at least as long as it |
| `SettlementRecovery.QueueSurvivesRecovery` | settlement_contract/src/admin.rs:867-881 | while a recovery stays pending every queued entry stays queued with its time unless cancelled |
| `SettlementRecovery.OldOperationsOutliveTheVeto` | settlement_contract/src/admin.rs:867-881 | an operation queued before a recovery began and untouched since is executable later iff unpaused, its time has come, and the recovery was cancelled or completed with none pending again (or it is CancelRecovery) |
| `SettlementRecovery.OldOperationRunsAfterRecovery` | settlement_contract/src/admin.rs:230-234 | from every initial state: admins schedule a governance change, a recovery replaces them after seven days, and the change still executes |
| `Authority.AuthorityInvariant` | settlement_contract/src/storage.rs:66-137 | in every reachable state admins are nonempty, distinct, nonzero with 1 <= threshold <= count; an admin is a merchant only as sole admin with threshold 1 |
| `Authority.QuorumAlwaysReachable` | settlement_contract/src/storage.rs:113-137 | in every reachable state the threshold can be met and accepted signer lists are nonempty |
| `Authority.FirstSignerNeverTraps` | settlement_contract/src/admin.rs:217-410 | no entry point can trap on its first signer while the admin set is usable |
| `Authority.OnlyRecoveryBreaksExclusivity` | settlement_contract/src/admin.rs:319-340 | from a state where no admin is a merchant, an invocation leaves one that is iff it is an execute_recovery of a due recovery whose nonzero target is registered |
| `Authority.AdminMerchantsComeFromRecovery` | settlement_contract/src/admin.rs:373-377 | at every point of every run an address is admin and merchant iff a recovery installed it while registered and since then nobody wrote the admins or unregistered it |
| `Authority.RecoveryMayInstallMerchant` | settlement_contract/src/admin.rs:235-340 | from every initial state, for every nonzero non-admin: registering it, initiating a recovery to it and completing that seven days later is a run that makes it admin and merchant |
| `Authority.ChangeThresholdNeedsASpareAdmin` | settlement_contract/src/admin.rs:390-410 | some signer set can change the threshold iff the new value is valid and different and the threshold is below the number of admins; no more signers than the threshold are always refused |
| `Authority.PauseWindow` | settlement_contract/src/lib.rs:178-202 | from a pause to the next unpause registry, rules, default, governance, queue and counter are frozen and payments only shrink |
| `Authority.AuthorityIgnoresPause` | settlement_contract/src/lib.rs:184-190 | admin transfer, threshold change, recovery and upgrade behave identically while paused |
| `Ledger.PaymentCountIsRecordCount` | settlement_contract/src/storage.rs:272-307 | in every reachable state each merchant's counter, and what get_payment_count reports, equals its number of records |
| `Ledger.CountStep` | settlement_contract/src/payments.rs:687-718 | every invocation keeps counters exact and batch pruning never saturates |
| `Ledger.StoreEffect` | settlement_contract/src/payments.rs:555-597 | an accepted store was of a registered merchant, unpaused, at or above the minimum, under a free key; it adds one record, the split of the paid amount (field by field in Charges.StoredRecord), and counts it once |
| `Ledger.RecordsAreTheirOwnSplit` | settlement_contract/src/payments.rs:555-577 | every stored record is the split of its own amount at its own rates |
| `Ledger.RecordsAreImmutable` | settlement_contract/src/payments.rs:529-534 | a record never changes until pruned, and its key cannot be stored again meanwhile |
| `Ledger.KeyFate` | settlement_contract/src/payments.rs:644-718 | over any window without a new store a key survives iff it was stored and never pruned |
| `Registry.RegistryInvariant` | settlement_contract/src/merchant.rs:24-129 | registered and tombstoned merchants are disjoint, rules belong to registered merchants, zero is never registered, every record's merchant is registered or tombstoned |
| `Registry.ReregistrationRestoresUnprunedRecords` | settlement_contract/src/storage.rs:219-231 | while unregistered the history is unreadable for everyone authorized; re-registration makes exactly the unpruned records readable, unchanged, by single, batch and count reads, whoever signs |
| `Registry.HistoryResurrects` | settlement_contract/src/types.rs:215-219 | from every initial state: register, store, unregister (the record is refused), register again (the same record is read) |
| `Reentry.RunIsChain` | settlement_contract/src/payments.rs:541-589 | with any entry point nested to any depth inside the governance calls of a store, a committed transaction is a gapless chain of accepted invocations and reserve, cache and commit moves |
| `Reentry.NoCallbacksIsStorePayment` | settlement_contract/src/payments.rs:509-601 | without callbacks the nested semantics is the ordinary entry point |
| `ReentryLedger.RunBracketed` | settlement_contract/src/payments.rs:541-589 | within a transaction, of any key and of any merchant, there are never more commits than reservations, and in the end as many |
| `ReentryCharges.StoreAcceptedExactly` | settlement_contract/src/payments.rs:509-601 | exactly when a store with calls nested in it is accepted, with the first failing condition otherwise: guards where it starts, amount and key where the minimum call left off, split and counter where its last governance call did |
| `ReentryCharges.StoreCloses` | settlement_contract/src/payments.rs:541-597 | the key is reserved where the minimum call left off and the record committed where the rule lookup did, in one invocation the merchant authenticated |
| `ReentryCharges.LookupLeaves` | settlement_contract/src/storage.rs:414-441 | the rule lookup runs the calls nested in the answers it asks for, in order, and keeps a config it gets as the last good one |
| `ReentryCharges.RunAllCharged` | settlement_contract/src/payments.rs:541-597 | over any transactions with any nesting each committed record holds the paid amount, the whole-number legs at the rule in force when its key was reserved, that rule's rates, delay and flag and the ledger of its invocation; its event carries it |
| `ReentryCharges.CallsRunInOrder` | settlement_contract/src/payments.rs:541-557 | nested calls run one after the other, each on what the last left, and one that aborts changes nothing |
| `ReentryLedger.PruneDrift` | settlement_contract/src/storage.rs:292-307 | a prune makes the counter miss as many records as it took reserved keys, capped by the committed records it left, since the counter stops at zero |
| `ReentryLedger.ReentrantCountIsExactIff` | settlement_contract/src/storage.rs:272-307 | over any transactions from an initial state, with any nesting: what a merchant's counter misses is the number of its commits that found their placeholder gone minus what prunes of it removed beyond its counter, so the counter is exact iff the two agree |
| `ReentryLedger.FreshCountIsExactIff` | settlement_contract/src/storage.rs:272-307 | when no store starts on a reserved key: the counter is exact iff every prune of one of the merchant's reserved keys left it no committed record or was followed by a prune that did |
| `ReentryRecords.ReentrantLedgerIsExact` | settlement_contract/src/payments.rs:541-589 | if no committed nested prune takes a reserved key, the counters are exact, every record is the split of its own amount, and no store starts on a reserved key |
| `ReentryRecords.ReentrantKeyIsStoredOnce` | settlement_contract/src/payments.rs:529-545 | in any transactions from any state, between two completed stores of a key lies a prune of it, unless the second is the commit of an enclosing store that held the key reserved when the first completed |
| `ReentryRecords.ReentrantRecordStays` | settlement_contract/src/payments.rs:529-545 | in any transactions from any state, until a prune of it a stored record changes only by the commit of a store that had already reserved its key; with no such reservation outstanding it does not change |
| `ReentryRecords.ReentrantRecordsAreTrue` | settlement_contract/src/payments.rs:555-589 | after any transactions from an initial state every record is the one the last completed store of its key wrote, and is the split of its own amount; no placeholder is left |
| `ReentryRecords.TopLevelIsSafe` | settlement_contract/src/payments.rs:541-557 | if only top-level invocations prune, no committed prune takes a reserved key |
| `ReentryRecords.TopLevelKeyIsStoredOnce` | settlement_contract/src/payments.rs:529-545 | if only top-level invocations prune, between two completed stores of a key, nested or not, lies a prune of it |
| `ReentryRecords.TopLevelRecordStays` | settlement_contract/src/payments.rs:529-545 | if only top-level invocations prune, a record stays as its completed store wrote it until a prune of it |
| `Reached.ReserveInFlight` | settlement_contract/src/payments.rs:536-557 | writing the placeholder moves counter plus reserved keys = stored entries from the reserved keys to those and the new one |
| `Reached.CallsKeepBooks` | settlement_contract/src/payments.rs:541-589 | if no reached call takes a reserved key, every call reached at any depth, aborted and rolled-back ones included, starts with exactly the keys its enclosing stores reserved in flight, and one that commits leaves the books so and the reserved keys untouched |
| `Reached.TopLevelPruningKeepsBooks` | settlement_contract/src/storage.rs:272-307 | if only top-level invocations prune, counters are exact and records true in every committed state of every run of nested transactions, and every nested call starts with its enclosing keys in flight |
| `ReentryWitness.CounterFallsShort` | settlement_contract/src/payments.rs:644-668 | from every initial state: register, store one payment, store another whose governance call prunes it midway; two records are counted as one |
| `ReentryWitness.CounterCountsTooMany` | settlement_contract/src/payments.rs:541-589 | from every initial state: register, then store a payment whose governance call prunes it and stores it again midway; one record is counted twice |
| `ReentryWitness.NestedStoreIsOverwritten` | settlement_contract/src/payments.rs:579-589 | a nested prune and a nested store of the key being stored: both stores complete and the inner record is overwritten |
| `ReentrySafety.ReentrantInvariants` | settlement_contract/src/storage.rs:66-137 | after any transactions with any nesting the admin set is usable and the registry consistent; if governance answered as modelled, rules are in bounds, every effective rule resolves in bounds and stored amounts are nonnegative |
| `ReentrySafety.ReentrantTimelockSafety` | settlement_contract/src/admin.rs:839-885 | timelock safety, the scheduling quorum included, for executions anywhere inside any transactions |
| `ReentrySafety.ReentrantRecoverySafety` | settlement_contract/src/admin.rs:319-340 | recovery safety for completions anywhere inside any transactions |
| `Rules.ClassifyAcceptsExactly` | settlement_contract/src/storage.rs:637-676 | a returned value is a config iff it is a map of exactly the two required u32 fields; only non-maps mean no config |
| `Rules.CacheIsLastGood` | settlement_contract/src/storage.rs:509-557 | the cache is the last well-formed config committed on the read path by any governance address |
| `Rules.ResolutionFollowsHistory` | settlement_contract/src/storage.rs:385-441 | resolution in every reachable state follows the documented tiers, a failed call serving the last good config or bootstrap |
| `Rules.RemovalAnnouncesEffectiveRule` | settlement_contract/src/merchant.rs:109-120 | whatever invocation removes a merchant's rule announces the rule effective immediately afterwards |
| `Rules.DirectAndTimelockedAgree` | settlement_contract/src/settlement.rs:59-171 | authorization aside, direct and timelocked setters accept the same inputs and leave the same stored state from every reachable state |
| `Degradation.OutageRefusesSetters` | settlement_contract/src/lib.rs:209-236 | while every governance call fails, schedule, both rule setters and their timelocked forms are refused, whatever the state, arguments and signers |
| `Degradation.OutageRefusesNothingElse` | settlement_contract/src/lib.rs:209-236 | while every governance call fails, no other entry point can end in GovernanceCallFailed |
| `Degradation.GovernanceChangeAsksNobody` | settlement_contract/src/admin.rs:217-228 | update_governance, direct or timelocked, gives the same result whatever any address answers, and accepts exactly the nonzero addresses of an authorized, unpaused (or due) call |
| `Degradation.DeadGovernanceIsAccepted` | settlement_contract/src/admin.rs:217-228 | from every initial state the admins can install an address that answers nothing, after which every setter and schedule is refused |
| `Degradation.OutageServesLastGood` | settlement_contract/src/storage.rs:509-557 | however long an outage lasts, a merchant under neither rule nor default is served the last good config from before it, and the bootstrap rule only if there was none |
| `Degradation.OutageServesCachedConfig` | settlement_contract/src/storage.rs:509-557 | from every initial state and for every config: one good answer read, every later outage serves it to every merchant |
| `Governance.InitializeEstablishes` | governance_contract/src/lib.rs:385-420 | init succeeds iff admins are usable, recovery nonzero and everyone authenticated, and then stores exactly those with no recovery pending |
| `GovernanceVerdicts.AcceptedExactly` | governance_contract/src/lib.rs:441-781 | every governance entry point is accepted exactly when its conditions hold, else refused with the first failing one's error; it then stores exactly what it was given and nothing else, with an authenticated quorum or the recovery address behind it |
| `GovernanceVerdicts.StepStores` | governance_contract/src/lib.rs:704-781 | a parameter or the fee config has a value after a step iff that step set it or it had it and the step did not set it |
| `GovernanceVerdicts.SettlementFollowsGovernance` | settlement_contract/src/storage.rs:385-441 | settlement under an answering governance: its minimum is min_payment or 100, unruled merchants get its fee config rate by rate unless bypassed, and a rule setter's ceiling is that config |
| `Governance.StepKeepsGovInv` | governance_contract/src/lib.rs:704-781 | every entry point keeps admins usable, the pending target nonzero, the fee config in bounds and parameters nonnegative, and never traps on its first signer |
| `Governance.GovInvariant` | governance_contract/src/lib.rs:856-898 | the invariant over every governance run |
| `Governance.ExecutedRecoveryInstallsLatestTarget` | governance_contract/src/lib.rs:574-601 | recovery safety over governance runs |
| `Governance.PendingRecoveryIsFrozenAndExecutable` | governance_contract/src/lib.rs:507-601 | the pending record is frozen and its execution succeeds iff mature, leaving a usable admin set |
| `GovernanceRuntime.GovernanceContract.Init` | governance_contract/src/lib.rs:385-420 | the imperative init matches its specification |
| `GovernanceRuntime.GovernanceContract.Invoke` | governance_contract/src/lib.rs:441-781 | one invocation commits exactly the specified next state or leaves the state unchanged |
| `World.ModelledGovernanceIsGovLike` | governance_contract/src/lib.rs:736-786 | what a modelled governance contract or an outage answers is well formed, in bounds and nonnegative |
| `World.EffectiveRuleIsBounded` | settlement_contract/src/storage.rs:385-441 | under such answers every tier resolves, within bounds |
| `World.CrossContractBoundedness` | settlement_contract/src/storage.rs:509-577 | over every interleaving of settlement calls, governance calls, deployments and outages every effective rule resolves within the protocol bounds and every stored amount is nonnegative |
| `EventLog.StepLog` | settlement_contract/src/admin.rs:630-633 | which op_* events each entry point publishes |
| `Offchain.CollectPending` | scripts/lib/soroban_events.py:453-483 | the report is sorted and holds exactly the latest scheduling entry of every hash no finish event names, filtered by contract, with both dictionary sizes |
| `Offchain.ReportMeaning` | scripts/lib/soroban_events.py:453-483 | each reported entry has, field by field, what the latest event scheduling its hash says, and is reported iff no event ever executes or cancels the hash and the contract matches |
| `Offchain.OrderedMeaning` | scripts/lib/soroban_events.py:481-483 | the order of the report is earlier execute times first, missing ones last, equal ones by hash |
| `Offchain.ReportErrors` | scripts/lib/soroban_events.py:429-483 | over the events of any run, a reported hash is off the queue iff cancel_all drained it after its last schedule, a queued hash is missing iff an earlier finish event named it, and agreed hashes carry the true execute time |
| `Offchain.DrainedIsStillReported` | scripts/lib/soroban_events.py:453-483 | from every initial state, scheduling any operation and draining it with cancel_all leaves it off the queue and reported to every reader |
| `Offchain.RescheduledIsNotReported` | scripts/lib/soroban_events.py:453-483 | from every initial state, scheduling, cancelling and rescheduling any operation leaves it queued and reported to no reader |
| `Offchain.ReportIsTheQueue` | scripts/lib/soroban_events.py:453-483 | without drains only queued operations are reported, without rescheduling all of them, with neither the report is the on-chain queue, times included |
| `Driver.Drive` | settlement_contract/src/admin.rs:548-713 | a driven settlement object produces exactly the runs the theorems quantify over |
| `Driver.DriveGovernance` | governance_contract/src/lib.rs:441-781 | a driven governance object produces exactly the governance runs |

## Left out

- Storage lifetime (TTL bumps, archival): storage is a map that never evicts, so the keep-alive and the
  TTL-neutral readers of a rule are one function here.
- XDR, SHA-256 and signature checking: host services; encoding is any injective function, hashing any
  function, authentication a set of addresses given with each invocation.
- Calls nested inside the governance calls of entry points other than `store_payment_reference`.
- The state before `init`: apart from init itself, only initialized contracts are modelled.
- Wasm upgrade, direct and timelocked: the probe is a given truth value and the code swap changes no
  modelled state.
- Settlement.SettlementContract.Init: does not model the AlreadyInitialized refusal of a second init, nor the
  deployer, in-progress and schema entries, which nothing modelled reads.
- GovernanceRuntime.GovernanceContract.Init: does not model the AlreadyInitialized refusal, the deployer and
  schema entries or the initialized event.
- GovernanceRuntime.GovernanceContract.Invoke: does not model governance events, upgrade, migrate and anchors,
  which change no modelled state.
- `migrate`, `version`, capability flags, interface probes, anchors and error-code numbers: constants or
  plain stores with no property beyond their bodies.
- Events of the governance contract, and old-format pending-recovery records.
- `merchant` field reads such as `get_settlement_rule` and `get_default_rule`: plain lookups.
- RPC paging, CSV and JSON output, base64 and StrKey decoding in the event script: events arrive decoded.
