/** Values shared by both contracts: machine integers, addresses, rules, operations,
    governance answers and the host environment of one invocation. */
module Types {

  const U32_MAX := 0xFFFF_FFFF
  const U64_MAX := 0xFFFF_FFFF_FFFF_FFFF
  const I128_MAX := 0x7FFF_FFFF_FFFF_FFFF_FFFF_FFFF_FFFF_FFFF

  type u32 = x: int | 0 <= x <= U32_MAX
  type u64 = x: int | 0 <= x <= U64_MAX
  type i128 = x: int | -I128_MAX - 1 <= x <= I128_MAX

  const BPS_DENOMINATOR: u32 := 10_000
  const MIN_FEE_BPS: u32 := 5
  const MAX_FEE_BPS: u32 := 5_000
  const RECOVERY_DELAY_SECONDS: u64 := 7 * 24 * 60 * 60
  const MAX_PAUSE_REASON: u32 := 99
  const MIN_PAYMENT_AMOUNT: i128 := 100
  const MAX_SETTLEMENT_DELAY_LEDGER: u32 := 100_000
  const MAX_PAYMENTS_BATCH: u32 := 100
  const MAX_CANCEL_ALL_BATCH: u32 := 50
  const MIN_TIMELOCK_DELAY_SECONDS: u64 := 7 * 24 * 60 * 60
  const MAX_TIMELOCK_DELAY_SECONDS: u64 := 30 * 24 * 60 * 60
  const MAX_SCHEDULED_OPERATION_PAYLOAD_LEN := 4096

  datatype Option<+T> = None | Some(value: T)

  /** Typed contract errors, plus the two ways the host itself aborts a call. */
  datatype Error =
    | Unauthorized | InvalidFeeBps | Paused | InvalidAdmin
    | InvalidRecoveryAddress | RecoveryNotPending | RecoveryDelayActive | ExecutionNotReady
    | OperationNotScheduled | OperationAlreadyScheduled | InvalidWasmInterface | InvalidThreshold
    | RecoveryAlreadyPending | AlreadyPaused | AlreadyUnpaused | MerchantExists | MerchantMissing
    | DuplicatePaymentReference | MerchantRuleNotSet | ZeroAddress | InvalidPaymentReference
    | InvalidSettlementDelay | InvalidGovernance | AmountOverflow | GovernanceCallFailed
    | FeeExceedsGovernanceConfig | AmountTooSmall | BatchTooLarge | PaymentOrphaned
    | OperationHashCollision | SameAdmin | PayloadTooLarge | ExecutionDelayTooLong
    | InvalidPauseReason | InvalidParamValue
    | AuthMissing    // require_auth refused by the host
    | IntegerTrap    // checked integer overflow in release builds
    | NoFirstSigner  // signers.get(0).unwrap() on an empty list

  datatype Result<+T> = Ok(value: T) | Err(error: Error)

  /** Outcome of a check: it passes, or the invocation aborts. */
  datatype Guard = Pass | Fail(error: Error) {
    /** The first of two checks that fails, if any. */
    function Then(next: Guard): Guard { if this.Fail? then this else next }
  }

  function Need(condition: bool, error: Error): Guard {
    if condition then Pass else Fail(error)
  }

  datatype Address = Zero | Account(id: nat)
  datatype Reference = ZeroReference | Reference(id: nat)
  type WasmHash = nat   // 0 stands for the all-zero hash
  type Symbol = string
  type Bytes = seq<nat>
  type Hash = nat

  predicate Distinct<T(==)>(xs: seq<T>) {
    forall i, j :: 0 <= i < j < |xs| ==> xs[i] != xs[j]
  }

  datatype Rule = Rule(platformBps: u32, networkBps: u32, delayLedger: u32, autoSettle: bool)

  const BOOTSTRAP_RULE := Rule(100, MIN_FEE_BPS, 0, false)

  /** The bounds both contracts promise for every fee rule in force. */
  predicate RuleInBounds(r: Rule) {
    && MIN_FEE_BPS <= r.platformBps <= MAX_FEE_BPS
    && MIN_FEE_BPS <= r.networkBps <= MAX_FEE_BPS
    && r.platformBps + r.networkBps <= BPS_DENOMINATOR
    && r.delayLedger <= MAX_SETTLEMENT_DELAY_LEDGER
  }

  datatype Operation =
    | UpdateGovernance(newGovernance: Address)
    | CancelRecovery
    | TransferAdmin(newAdmins: seq<Address>, newThreshold: u32)
    | Upgrade(wasm: WasmHash)
    | RegisterMerchant(merchant: Address)
    | UnregisterMerchant(merchant: Address)
    | SetSettlementRule(merchant: Address, rule: Rule)
    | ClearSettlementRule(merchant: Address)
    | SetDefaultRule(rule: Rule)

  /** The host's two byte-level services. The hash is arbitrary: collisions are allowed. */
  datatype Host = Host(xdr: Operation -> Bytes, sha256: Bytes -> Hash) {
    /** Encoding loses nothing. */
    ghost predicate Faithful() {
      forall a, b :: xdr(a) == xdr(b) ==> a == b
    }
    ghost predicate CollisionFree() {
      forall a, b :: sha256(xdr(a)) == sha256(xdr(b)) ==> xdr(a) == xdr(b)
    }
    function Key(op: Operation): Hash { sha256(xdr(op)) }
  }

  /** A raw value returned by a contract call. */
  datatype Val = Void | U32Val(n: u32) | OtherVal | MapVal(entries: map<Symbol, Val>)

  datatype FeeAnswer = FeeCallFailed | FeeReturned(val: Val)
  datatype ParamAnswer = ParamCallFailed | ParamUnset | ParamValue(value: i128)

  /** What one governance address answers during one invocation, one answer per call site: the two
      parameter reads, get_fee_config on the read path, and get_fee_config as the setters' ceiling
      or schedule's liveness probe. The answers need not agree with each other. */
  datatype GovView = GovView(bypass: ParamAnswer, minPayment: ParamAnswer, fee: FeeAnswer, ceiling: FeeAnswer)

  /** Every call to the address fails. */
  const OUTAGE := GovView(ParamCallFailed, ParamCallFailed, FeeCallFailed, FeeCallFailed)

  /** Everything an invocation reads from outside the contract. */
  datatype Env = Env(now: u64, sequence: u32, auth: set<Address>,
                     gov: Address -> GovView, wasmOk: WasmHash -> bool)

  datatype PendingRecovery = PendingRecovery(newAdmin: Address, executeAfter: u64, initiatedBy: Address)
  datatype ScheduledOp = ScheduledOp(xdr: Bytes, executeAt: u64)

  function SaturatingSub(a: u32, b: nat): u32 { if a < b then 0 else a - b }
  function SaturatingInc(a: u32): u32 { if a == U32_MAX then a else a + 1 }
}
