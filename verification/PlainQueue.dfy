/** The hash-indexed queue is a plain map from operation to execute time, for any hash function. */
module PlainQueue {
  import opened Types
  import opened Multisig
  import opened Entry
  import opened Runs
  import opened Timelock

  /** Every slot holds the encoding of some operation that hashes to its key. */
  ghost predicate Honest(h: Host, q: map<Hash, ScheduledOp>) {
    forall k | k in q :: exists op :: h.Key(op) == k && h.xdr(op) == q[k].xdr
  }

  ghost function Decoded(h: Host, k: Hash, bytes: Bytes): Operation
    requires exists op :: h.Key(op) == k && h.xdr(op) == bytes
  {
    var op :| h.Key(op) == k && h.xdr(op) == bytes;
    op
  }

  ghost function Operations(h: Host, q: map<Hash, ScheduledOp>): set<Operation>
    requires Honest(h, q)
  {
    set k | k in q :: Decoded(h, k, q[k].xdr)
  }

  /** The queue as a reader thinks of it. */
  ghost function Plain(h: Host, q: map<Hash, ScheduledOp>): map<Operation, u64>
    requires Honest(h, q)
  {
    map op | op in Operations(h, q) && h.Key(op) in q :: q[h.Key(op)].executeAt
  }

  lemma PlainMeaning(h: Host, q: map<Hash, ScheduledOp>, op: Operation)
    requires h.Faithful() && Honest(h, q)
    ensures op in Plain(h, q) <==> SlotMatches(h, q, op)
    ensures op in Plain(h, q) ==> Plain(h, q)[op] == q[h.Key(op)].executeAt
  {
    if op in Plain(h, q) {
      var k :| k in q && op == Decoded(h, k, q[k].xdr);
    }
    if SlotMatches(h, q, op) {
      assert Decoded(h, h.Key(op), q[h.Key(op)].xdr) == op;
    }
  }

  lemma HonestStep(h: Host, r: Rec)
    requires QueueEffect(h, r) && Honest(h, r.pre.queue)
    ensures Honest(h, r.post.queue)
  {
    forall k | k in r.post.queue ensures exists op :: h.Key(op) == k && h.xdr(op) == r.post.queue[k].xdr {
      if r.ok && r.call.Schedule? && k == h.Key(r.call.operation) {
        assert h.xdr(r.call.operation) == r.post.queue[k].xdr;
      } else {
        assert k in r.pre.queue && r.post.queue[k] == r.pre.queue[k];
      }
    }
  }

  /** Every reachable queue is honest. */
  lemma {:induction false} RunIsHonest(h: Host, t: seq<Rec>, n: nat)
    requires QueueRun(h, t) && 0 < |t| && n <= |t|
    ensures Honest(h, StateAt(t, n).queue)
  {
    if n == 0 {
    } else {
      RunIsHonest(h, t, n - 1);
      assert StateAt(t, n) == t[n - 1].post;
      HonestStep(h, t[n - 1]);
    }
  }

  /** A step of the plain queue. */
  ghost predicate PlainStep(p: map<Operation, u64>, r: Rec, p': map<Operation, u64>) {
    if !r.ok then p' == p
    else match r.call
      case Schedule(_, op, delay) =>
        op !in p && r.env.now + delay <= U64_MAX && p' == p[op := r.env.now + delay]
      case Execute(_, op) => op in p && p[op] <= r.env.now && p' == p - {op}
      case Cancel(_, op) => op in p && p' == p - {op}
      case CancelAll(_, ops) => p' == p - (set op | op in ops)
      case _ => p' == p
  }

  /** The plain step, one operation at a time. */
  ghost predicate PlainPoint(h: Host, r: Rec, p: map<Operation, u64>, op: Operation, p': map<Operation, u64>) {
    var gone := Executes(r, op) || Cancels(h, r, op);
    && (Schedules(r, op) ==> op !in p)
    && (gone ==> op in p)
    && (r.ok && r.call.CancelAll? && op in r.call.operations && op in p ==> Cancels(h, r, op))
    && (op in p' <==> Schedules(r, op) || (op in p && !gone))
    && (Executes(r, op) ==> p[op] <= r.env.now)
    && (op in p' ==> p'[op] == if Schedules(r, op) then r.env.now + r.call.executeIn else p[op])
  }

  lemma PlainPointwise(h: Host, r: Rec, op: Operation)
    requires h.Faithful() && QueueEffect(h, r) && Honest(h, r.pre.queue) && Honest(h, r.post.queue)
    ensures PlainPoint(h, r, Plain(h, r.pre.queue), op, Plain(h, r.post.queue))
  {
    PlainMeaning(h, r.pre.queue, op);
    PlainMeaning(h, r.post.queue, op);
    SlotStep(h, r, op);
  }

  lemma PointsMakeStep(h: Host, r: Rec, p: map<Operation, u64>, p': map<Operation, u64>)
    requires QueueEffect(h, r)
    requires forall op {:trigger op in p} {:trigger op in p'} :: PlainPoint(h, r, p, op, p')
    ensures PlainStep(p, r, p')
  {
    if r.ok && r.call.Schedule? {
      var op := r.call.operation;
      assert PlainPoint(h, r, p, op, p');
      assert p' == p[op := r.env.now + r.call.executeIn];
    } else if r.ok && (r.call.Execute? || r.call.Cancel?) {
      assert PlainPoint(h, r, p, r.call.operation, p');
      assert p' == p - {r.call.operation};
    } else if r.ok && r.call.CancelAll? {
      assert p' == p - (set op | op in r.call.operations);
    } else {
      assert p' == p;
    }
  }

  /** Whatever the hash function, each step of the contract's queue is the same step of the plain
      queue. */
  lemma StepRefinesPlain(h: Host, r: Rec)
    requires h.Faithful() && QueueEffect(h, r) && Honest(h, r.pre.queue)
    ensures Honest(h, r.post.queue)
    ensures PlainStep(Plain(h, r.pre.queue), r, Plain(h, r.post.queue))
  {
    HonestStep(h, r);
    forall op ensures PlainPoint(h, r, Plain(h, r.pre.queue), op, Plain(h, r.post.queue)) {
      PlainPointwise(h, r, op);
    }
    PointsMakeStep(h, r, Plain(h, r.pre.queue), Plain(h, r.post.queue));
  }

  /** Whole runs: the contract's queue tracks a plain queue that starts empty. */
  lemma QueueRefinesPlainMap(h: Host, t: seq<Rec>)
    requires ValidRun(h, t) && h.Faithful() && 0 < |t|
    ensures forall n | 0 <= n <= |t| :: Honest(h, StateAt(t, n).queue)
    ensures Plain(h, StateAt(t, 0).queue) == map[]
    ensures forall i | 0 <= i < |t| ::
              PlainStep(Plain(h, StateAt(t, i).queue), t[i], Plain(h, StateAt(t, i + 1).queue))
  {
    RunIsQueueRun(h, t);
    forall n | 0 <= n <= |t| ensures Honest(h, StateAt(t, n).queue) {
      RunIsHonest(h, t, n);
    }
    forall i | 0 <= i < |t|
      ensures PlainStep(Plain(h, StateAt(t, i).queue), t[i], Plain(h, StateAt(t, i + 1).queue))
    {
      assert StateAt(t, i) == t[i].pre && StateAt(t, i + 1) == t[i].post;
      StepRefinesPlain(h, t[i]);
    }
  }

  /** Acceptance against the plain queue: beside the checks that never look at the queue, a plain
      queue would refuse exactly a queued operation. Collisions can only add refusals, and a
      collision-free hash adds none. */
  lemma CollisionsOnlyAddRefusals(h: Host, s: State, env: Env, signers: seq<Address>, op: Operation, delay: u64)
    requires h.Faithful() && Honest(h, s.queue)
    ensures var plain := && !s.paused && AuthOk(s.admins, signers, env.auth, s.threshold) && signers != []
                         && MIN_TIMELOCK_DELAY_SECONDS <= delay <= MAX_TIMELOCK_DELAY_SECONDS
                         && (op.TransferAdmin? ==> 1 <= op.newThreshold <= |op.newAdmins|)
                         && (op.SetSettlementRule? ==> op.rule.delayLedger <= MAX_SETTLEMENT_DELAY_LEDGER)
                         && |h.xdr(op)| <= MAX_SCHEDULED_OPERATION_PAYLOAD_LEN
                         && env.gov(s.governance).ceiling.FeeReturned?
                         && env.now + delay <= U64_MAX && op !in Plain(h, s.queue);
            var r := DoSchedule(h, s, env, signers, op, delay);
            && (r.Ok? <==> plain && h.Key(op) !in s.queue)
            && (plain && h.Key(op) in s.queue ==> r == Err(OperationHashCollision))
            && (h.CollisionFree() ==> (r.Ok? <==> plain))
  {
    PlainMeaning(h, s.queue, op);
    if h.CollisionFree() && h.Key(op) in s.queue {
      var other :| h.Key(other) == h.Key(op) && h.xdr(other) == s.queue[h.Key(op)].xdr;
      assert h.xdr(other) == h.xdr(op);
    }
  }

  /** Readiness and cancellation are exactly the plain queue's, collisions or not. */
  lemma ReadinessIsPlain(h: Host, s: State, env: Env, signers: seq<Address>, op: Operation)
    requires h.Faithful() && Honest(h, s.queue)
    ensures var p := Plain(h, s.queue);
            ExecutionGuard(h, s, env, op).Pass? <==>
              !s.paused && op in p && p[op] <= env.now && (s.pending.None? || op == Operation.CancelRecovery)
    ensures DoCancel(h, s, env, signers, op).Ok? <==>
              && AuthOk(s.admins, signers, env.auth, s.threshold) && signers != []
              && !s.paused && op in Plain(h, s.queue)
  {
    PlainMeaning(h, s.queue, op);
  }

  /** cancel_all returns the number of distinct queued operations in its list and removes exactly
      those, as the plain queue would. */
  lemma CancelAllCountsDistinctQueued(h: Host, s: State, env: Env, signers: seq<Address>, ops: seq<Operation>)
    requires h.Faithful() && Honest(h, s.queue)
    requires DoCancelAll(h, s, env, signers, ops).Ok?
    ensures var (s', count) := DoCancelAll(h, s, env, signers, ops).value;
            && count == |(set op | op in ops && op in Plain(h, s.queue))|
            && Honest(h, s'.queue)
            && Plain(h, s'.queue) == Plain(h, s.queue) - (set op | op in ops)
            && |s'.queue| == |s.queue| - count
  {
    var (s', count) := DoCancelAll(h, s, env, signers, ops).value;
    HitsCountDistinct(h, s.queue, ops);
    var r := Rec(s, Call.CancelAll(signers, ops), env, s', true);
    assert QueueEffect(h, r);
    StepRefinesPlain(h, r);
    MapMinusSize(s.queue, Hits(h, s.queue, ops));
  }

  lemma HitsCountDistinct(h: Host, q: map<Hash, ScheduledOp>, ops: seq<Operation>)
    requires h.Faithful() && Honest(h, q)
    ensures |Hits(h, q, ops)| == |(set op | op in ops && op in Plain(h, q))|
  {
    var named := set op | op in ops && op in Plain(h, q);
    forall op ensures op in Plain(h, q) <==> SlotMatches(h, q, op) {
      PlainMeaning(h, q, op);
    }
    assert Hits(h, q, ops) == set op | op in named :: h.Key(op);
    ImageSize(h, named);
  }

  lemma {:induction false} ImageSize(h: Host, ops: set<Operation>)
    requires forall a, b | a in ops && b in ops :: h.Key(a) == h.Key(b) ==> a == b
    ensures |(set op | op in ops :: h.Key(op))| == |ops|
  {
    if ops == {} {
    } else {
      var a :| a in ops;
      ImageSize(h, ops - {a});
      assert (set op | op in ops :: h.Key(op)) == (set op | op in ops - {a} :: h.Key(op)) + {h.Key(a)};
    }
  }
}
