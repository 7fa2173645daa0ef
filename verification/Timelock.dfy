/** The timelock queue over whole runs. */
module Timelock {
  import opened Types
  import opened Multisig
  import opened Entry
  import opened Runs
  import opened Frames

  /** What an invocation did to the queue, its counter and the guards around it. */
  ghost predicate QueueEffect(h: Host, r: Rec) {
    if !r.ok then r.post.queue == r.pre.queue && r.post.queueCount == r.pre.queueCount
    else match r.call
      case Schedule(signers, op, delay) =>
        && !r.pre.paused && AuthOk(r.pre.admins, signers, r.env.auth, r.pre.threshold)
        && MIN_TIMELOCK_DELAY_SECONDS <= delay <= MAX_TIMELOCK_DELAY_SECONDS
        && h.Key(op) !in r.pre.queue
        && r.env.now + delay <= U64_MAX
        && r.post.queue == r.pre.queue[h.Key(op) := ScheduledOp(h.xdr(op), r.env.now + delay)]
        && r.post.queueCount == SaturatingInc(r.pre.queueCount)
      case Execute(_, op) =>
        && !r.pre.paused
        && SlotMatches(h, r.pre.queue, op)
        && r.pre.queue[h.Key(op)].executeAt <= r.env.now
        && (r.pre.pending == None || op == Operation.CancelRecovery)
        && r.post.queue == r.pre.queue - {h.Key(op)}
        && r.post.queueCount == SaturatingSub(r.pre.queueCount, 1)
      case Cancel(signers, op) =>
        && !r.pre.paused && AuthOk(r.pre.admins, signers, r.env.auth, r.pre.threshold)
        && SlotMatches(h, r.pre.queue, op)
        && r.post.queue == r.pre.queue - {h.Key(op)}
        && r.post.queueCount == SaturatingSub(r.pre.queueCount, 1)
      case CancelAll(signers, ops) =>
        && !r.pre.paused && AuthOk(r.pre.admins, signers, r.env.auth, r.pre.threshold)
        && r.post.queue == r.pre.queue - Hits(h, r.pre.queue, ops)
        && r.post.queueCount == SaturatingSub(r.pre.queueCount, |Hits(h, r.pre.queue, ops)|)
      case _ => r.post.queue == r.pre.queue && r.post.queueCount == r.pre.queueCount
  }

  lemma StepQueue(h: Host, r: Rec)
    requires Legit(h, r)
    ensures QueueEffect(h, r)
  {
    if !r.ok {
      AbortFrame(h, r);
    } else if IsAuthorityCall(r.call) {
      AuthorityFrame(h, r);
    } else if IsRegistryCall(r.call) {
      RegistryFrame(h, r);
    } else if IsLedgerCall(r.call) {
      LedgerFrame(h, r);
    } else if IsReadCall(r.call) {
      ReadFrame(h, r);
    } else if r.call.Execute? {
      ExecuteFrame(h, r);
      ArmFrame(Consume(r.pre, {h.Key(r.call.operation)}), r.env, r.call.executor, r.call.operation);
    }
  }

  /** A chain of invocations seen only through their queue effects. */
  ghost predicate QueueRun(h: Host, t: seq<Rec>) {
    && h.Faithful()
    && Chained(t)
    && (forall i | 0 <= i < |t| :: QueueEffect(h, t[i]))
    && (|t| > 0 ==> t[0].pre.queue == map[] && t[0].pre.queueCount == 0)
  }

  lemma RunIsQueueRun(h: Host, t: seq<Rec>)
    requires ValidRun(h, t) && h.Faithful()
    ensures QueueRun(h, t)
  {
    forall i | 0 <= i < |t| ensures QueueEffect(h, t[i]) {
      StepQueue(h, t[i]);
    }
  }

  // ---- Vocabulary over a run ------------------------------------------------------------------

  predicate Schedules(r: Rec, op: Operation) { r.ok && r.call.Schedule? && r.call.operation == op }

  predicate Executes(r: Rec, op: Operation) { r.ok && r.call.Execute? && r.call.operation == op }

  /** The invocation really removed op: a cancel of it, or a batch that found it queued. */
  predicate Cancels(h: Host, r: Rec, op: Operation) {
    && r.ok
    && (|| (r.call.Cancel? && r.call.operation == op)
        || (r.call.CancelAll? && op in r.call.operations && SlotMatches(h, r.pre.queue, op)))
  }

  predicate Touches(h: Host, r: Rec, op: Operation) {
    Schedules(r, op) || Executes(r, op) || Cancels(h, r, op)
  }

  /** k is the schedule of op that is still in force just before step i. */
  predicate InForce(h: Host, t: seq<Rec>, k: nat, i: nat, op: Operation)
    requires i <= |t|
  {
    && k < i
    && Schedules(t[k], op)
    && (forall j | k < j < i :: !Touches(h, t[j], op))
  }

  function StateAt(t: seq<Rec>, n: nat): State
    requires 0 < |t| && n <= |t|
  {
    if n < |t| then t[n].pre else t[n - 1].post
  }

  /** One step's effect on a single operation's slot. */
  lemma SlotStep(h: Host, r: Rec, op: Operation)
    requires h.Faithful() && QueueEffect(h, r)
    ensures var gone := Executes(r, op) || Cancels(h, r, op);
            && (Schedules(r, op) ==> !SlotMatches(h, r.pre.queue, op))
            && (gone ==> SlotMatches(h, r.pre.queue, op))
            && (SlotMatches(h, r.post.queue, op) <==>
                  Schedules(r, op) || (SlotMatches(h, r.pre.queue, op) && !gone))
            && (SlotMatches(h, r.post.queue, op) ==>
                  r.post.queue[h.Key(op)].executeAt ==
                    if Schedules(r, op) then r.env.now + r.call.executeIn
                    else r.pre.queue[h.Key(op)].executeAt)
  {
    if r.ok && r.call.CancelAll? {
      if h.Key(op) in Hits(h, r.pre.queue, r.call.operations) {
        var other :| other in r.call.operations && SlotMatches(h, r.pre.queue, other) && h.Key(other) == h.Key(op);
        assert SlotMatches(h, r.pre.queue, op) ==> other == op;
      }
    }
  }

  lemma ForceExtends(h: Host, t: seq<Rec>, k: nat, n: nat, op: Operation)
    requires n < |t| && InForce(h, t, k, n, op) && !Touches(h, t[n], op)
    ensures InForce(h, t, k, n + 1, op)
  {}

  /** Every queued operation has a schedule in force that fixed its execute time. */
  lemma {:induction false} QueuedHasSchedule(h: Host, t: seq<Rec>, n: nat, op: Operation) returns (k: nat)
    requires QueueRun(h, t) && 0 < |t| && n <= |t|
    requires SlotMatches(h, StateAt(t, n).queue, op)
    ensures InForce(h, t, k, n, op)
    ensures StateAt(t, n).queue[h.Key(op)].executeAt == t[k].env.now + t[k].call.executeIn
  {
    assert n > 0;
    var r := t[n - 1];
    assert StateAt(t, n) == r.post;
    SlotStep(h, r, op);
    if Schedules(r, op) {
      k := n - 1;
    } else {
      k := QueuedHasSchedule(h, t, n - 1, op);
      ForceExtends(h, t, k, n - 1, op);
    }
  }

  /** The quorum of the moment signed the schedule. */
  ghost predicate SignedByQuorum(r: Rec) {
    r.call.Schedule? && AuthOk(r.pre.admins, r.call.signers, r.env.auth, r.pre.threshold)
  }

  /** Timelock safety: an executed operation was scheduled byte for byte by a quorum of the admins, with
      a delay between 7 and 30 days that had fully elapsed, and nothing touched it in between; the
      contract was unpaused and no recovery vetoed it. */
  lemma TimelockSafety(h: Host, t: seq<Rec>, i: nat, op: Operation) returns (k: nat)
    requires ValidRun(h, t) && h.Faithful()
    requires i < |t| && Executes(t[i], op)
    ensures InForce(h, t, k, i, op) && SignedByQuorum(t[k])
    ensures MIN_TIMELOCK_DELAY_SECONDS <= t[k].call.executeIn <= MAX_TIMELOCK_DELAY_SECONDS
    ensures t[k].env.now + t[k].call.executeIn <= t[i].env.now
    ensures !t[i].pre.paused
    ensures t[i].pre.pending == None || op == Operation.CancelRecovery
  {
    RunIsQueueRun(h, t);
    k := QueueSafety(h, t, i, op);
  }

  /** The same of any chain of queue effects. */
  lemma QueueSafety(h: Host, t: seq<Rec>, i: nat, op: Operation) returns (k: nat)
    requires QueueRun(h, t) && i < |t| && Executes(t[i], op)
    ensures InForce(h, t, k, i, op) && SignedByQuorum(t[k])
    ensures MIN_TIMELOCK_DELAY_SECONDS <= t[k].call.executeIn <= MAX_TIMELOCK_DELAY_SECONDS
    ensures t[k].env.now + t[k].call.executeIn <= t[i].env.now
    ensures !t[i].pre.paused
    ensures t[i].pre.pending == None || op == Operation.CancelRecovery
  {
    assert QueueEffect(h, t[i]);
    k := QueuedHasSchedule(h, t, i, op);
    assert QueueEffect(h, t[k]);
  }

  /** The matching is one to one: a step has one schedule in force, and no schedule serves two
      executions. */
  lemma MatchingIsOneToOne(h: Host, t: seq<Rec>, k: nat, i: nat, op: Operation, k': nat, i': nat, op': Operation)
    requires i < |t| && i' < |t|
    requires InForce(h, t, k, i, op) && InForce(h, t, k', i', op')
    requires Executes(t[i], op) && Executes(t[i'], op')
    ensures k == k' <==> i == i'
    ensures k == k' ==> op == op'
  {
  }

  /** An operation schedule takes, whatever the queue holds. */
  predicate Schedulable(h: Host, s: State, env: Env, op: Operation) {
    && ScheduleBounds(op).Pass? && |h.xdr(op)| <= MAX_SCHEDULED_OPERATION_PAYLOAD_LEN
    && !env.gov(s.governance).ceiling.FeeCallFailed? && env.now + MIN_TIMELOCK_DELAY_SECONDS <= U64_MAX
    && forall a | a in s.admins :: a in env.auth
  }

  /** All admins together can schedule such an operation under any free hash of an unpaused contract. */
  lemma AdminsSchedule(h: Host, s: State, env: Env, op: Operation) returns (r: Rec)
    requires AdminsOk(s.admins, s.threshold) && !s.paused && Schedulable(h, s, env, op) && h.Key(op) !in s.queue
    ensures Legit(h, r) && r.pre == s && r.env == env && Schedules(r, op) && r.call.signers == s.admins
    ensures var at := env.now + MIN_TIMELOCK_DELAY_SECONDS;
            r.post == s.(queue := s.queue[h.Key(op) := ScheduledOp(h.xdr(op), at)],
                         queueCount := SaturatingInc(s.queueCount),
                         log := s.log + [OpScheduled(h.Key(op), s.admins[0], at)])
  {
    r := Invocation(h, s, Schedule(s.admins, op, MIN_TIMELOCK_DELAY_SECONDS), env);
    assert AuthOk(s.admins, s.admins, env.auth, s.threshold);
  }

  // ---- Conservation ------------------------------------------------------------------------------

  function TimesScheduled(t: seq<Rec>, n: nat, op: Operation): nat
    requires n <= |t|
  {
    if n == 0 then 0 else TimesScheduled(t, n - 1, op) + if Schedules(t[n - 1], op) then 1 else 0
  }

  function TimesExecuted(t: seq<Rec>, n: nat, op: Operation): nat
    requires n <= |t|
  {
    if n == 0 then 0 else TimesExecuted(t, n - 1, op) + if Executes(t[n - 1], op) then 1 else 0
  }

  function TimesCancelled(h: Host, t: seq<Rec>, n: nat, op: Operation): nat
    requires n <= |t|
  {
    if n == 0 then 0 else TimesCancelled(h, t, n - 1, op) + if Cancels(h, t[n - 1], op) then 1 else 0
  }

  lemma {:induction false} Conservation(h: Host, t: seq<Rec>, n: nat, op: Operation)
    requires QueueRun(h, t) && 0 < |t| && n <= |t|
    ensures TimesScheduled(t, n, op) == TimesExecuted(t, n, op) + TimesCancelled(h, t, n, op)
              + if SlotMatches(h, StateAt(t, n).queue, op) then 1 else 0
  {
    if n == 0 {
    } else {
      Conservation(h, t, n - 1, op);
      SlotStep(h, t[n - 1], op);
      assert StateAt(t, n) == t[n - 1].post;
    }
  }

  /** For every operation: scheduled = executed + cancelled + (1 if queued now). */
  lemma QueueConservation(h: Host, t: seq<Rec>, n: nat, op: Operation)
    requires ValidRun(h, t) && h.Faithful() && 0 < |t| && n <= |t|
    ensures TimesScheduled(t, n, op) == TimesExecuted(t, n, op) + TimesCancelled(h, t, n, op)
              + if SlotMatches(h, StateAt(t, n).queue, op) then 1 else 0
  {
    RunIsQueueRun(h, t);
    Conservation(h, t, n, op);
  }

  lemma MapMinusSize<K, V>(m: map<K, V>, ks: set<K>)
    requires ks <= m.Keys
    ensures |m - ks| == |m| - |ks|
  {
    assert (m - ks).Keys == m.Keys - ks;
  }

  lemma CounterStep(h: Host, r: Rec)
    requires QueueEffect(h, r) && r.pre.queueCount == |r.pre.queue| && |r.post.queue| <= U32_MAX
    ensures r.post.queueCount == |r.post.queue|
    ensures r.pre.queueCount >= |r.pre.queue| - |r.post.queue|
  {
    if r.ok {
      if r.call.Execute? || r.call.Cancel? {
        MapMinusSize(r.pre.queue, {h.Key(r.call.operation)});
      } else if r.call.CancelAll? {
        MapMinusSize(r.pre.queue, Hits(h, r.pre.queue, r.call.operations));
      }
    }
  }

  lemma {:induction false} CounterFollowsQueue(h: Host, t: seq<Rec>, n: nat)
    requires QueueRun(h, t) && 0 < |t| && n <= |t|
    requires forall m | 0 <= m <= n :: |StateAt(t, m).queue| <= U32_MAX
    ensures StateAt(t, n).queueCount == |StateAt(t, n).queue|
  {
    if n == 0 {
    } else {
      CounterFollowsQueue(h, t, n - 1);
      assert StateAt(t, n) == t[n - 1].post;
      CounterStep(h, t[n - 1]);
    }
  }

  /** The counter reports the queue depth throughout a run exactly when the depth stays within u32;
      then no decrement ever saturates. */
  lemma PendingCountIsQueueSize(h: Host, t: seq<Rec>, n: nat)
    requires ValidRun(h, t) && h.Faithful() && 0 < |t| && n <= |t|
    ensures (forall m | 0 <= m <= n :: |StateAt(t, m).queue| <= U32_MAX) <==>
            (forall m | 0 <= m <= n :: StateAt(t, m).queueCount == |StateAt(t, m).queue|)
    ensures (forall m | 0 <= m <= n :: |StateAt(t, m).queue| <= U32_MAX) ==>
              forall i | 0 <= i < n :: t[i].pre.queueCount >= |t[i].pre.queue| - |t[i].post.queue|
  {
    RunIsQueueRun(h, t);
    if forall m | 0 <= m <= n :: |StateAt(t, m).queue| <= U32_MAX {
      forall m | 0 <= m <= n ensures StateAt(t, m).queueCount == |StateAt(t, m).queue| {
        CounterFollowsQueue(h, t, m);
      }
      forall i | 0 <= i < n ensures t[i].pre.queueCount >= |t[i].pre.queue| - |t[i].post.queue| {
        assert StateAt(t, i) == t[i].pre && StateAt(t, i + 1) == t[i].post;
        CounterStep(h, t[i]);
      }
    } else {
      var m :| 0 <= m <= n && |StateAt(t, m).queue| > U32_MAX;
      assert StateAt(t, m).queueCount <= U32_MAX;
    }
  }

  /** Operations without end, all different. */
  function Numbered(i: nat): Operation { Operation.UpdateGovernance(Account(i)) }

  ghost predicate HoldsNumbered(h: Host, queue: map<Hash, ScheduledOp>, n: nat) {
    && |queue| == n
    && forall i: nat :: h.Key(Numbered(i)) in queue <==> i < n
  }

  /** t schedules the first n numbered operations and ends in the given state. */
  ghost predicate FillsTo(h: Host, s: State, env: Env, t: seq<Rec>, n: nat, end: State) {
    && ValidRun(h, t) && |t| == n && end == (if n == 0 then s else t[n - 1].post)
    && (forall i | 0 <= i < n :: t[i].env == env && Schedules(t[i], Numbered(i)))
    && end == s.(queue := end.queue, queueCount := end.queueCount, log := end.log)
  }

  lemma FillExtends(h: Host, s: State, env: Env, t: seq<Rec>, n: nat, end: State, r: Rec)
    requires Initial(s) && FillsTo(h, s, env, t, n, end)
    requires Legit(h, r) && r.pre == end && r.env == env && Schedules(r, Numbered(n))
    requires r.post == end.(queue := r.post.queue, queueCount := r.post.queueCount, log := r.post.log)
    ensures FillsTo(h, s, env, t + [r], n + 1, r.post)
  {
    RunExtends(h, t, r);
  }

  /** Over a collision-free hash the queue can be filled to any depth, one schedule at a time. */
  lemma {:induction false} QueueCanReach(h: Host, s: State, env: Env, n: nat) returns (t: seq<Rec>, end: State)
    requires Initial(s) && h.Faithful() && h.CollisionFree()
    requires forall i | 0 <= i < n :: Schedulable(h, s, env, Numbered(i))
    ensures FillsTo(h, s, env, t, n, end)
    ensures HoldsNumbered(h, end.queue, n)
    ensures end.queueCount == if n <= U32_MAX then n else U32_MAX
  {
    if n == 0 {
      t, end := [], s;
    } else {
      t, end := QueueCanReach(h, s, env, n - 1);
      assert Schedulable(h, s, env, Numbered(n - 1));
      var r := ScheduleNext(h, end, env, n - 1);
      FillExtends(h, s, env, t, n - 1, end, r);
      t, end := t + [r], r.post;
    }
  }

  lemma ScheduleNext(h: Host, s: State, env: Env, n: nat) returns (r: Rec)
    requires AdminsOk(s.admins, s.threshold) && !s.paused && Schedulable(h, s, env, Numbered(n))
    requires h.Faithful() && h.CollisionFree() && HoldsNumbered(h, s.queue, n)
    requires s.queueCount == if n <= U32_MAX then n else U32_MAX
    ensures Legit(h, r) && r.pre == s && r.env == env && Schedules(r, Numbered(n))
    ensures HoldsNumbered(h, r.post.queue, n + 1)
    ensures r.post.queueCount == if n + 1 <= U32_MAX then n + 1 else U32_MAX
    ensures r.post == s.(queue := r.post.queue, queueCount := r.post.queueCount, log := r.post.log)
  {
    r := AdminsSchedule(h, s, env, Numbered(n));
    OneDeeper(h, s.queue, n, r.post.queue[h.Key(Numbered(n))]);
  }

  lemma OneDeeper(h: Host, queue: map<Hash, ScheduledOp>, n: nat, slot: ScheduledOp)
    requires h.Faithful() && h.CollisionFree() && HoldsNumbered(h, queue, n)
    ensures HoldsNumbered(h, queue[h.Key(Numbered(n)) := slot], n + 1)
  {
    forall i: nat ensures h.Key(Numbered(i)) == h.Key(Numbered(n)) <==> i == n {
      assert h.Key(Numbered(i)) == h.Key(Numbered(n)) ==> Numbered(i) == Numbered(n);
    }
  }

  /** So the counter really can fall short of the depth. */
  lemma CounterCanFallShort(h: Host, s: State, env: Env) returns (t: seq<Rec>)
    requires Initial(s) && h.Faithful() && h.CollisionFree()
    requires forall i | 0 <= i <= U32_MAX :: Schedulable(h, s, env, Numbered(i))
    ensures ValidRun(h, t) && |t| == U32_MAX + 1
    ensures |StateAt(t, |t|).queue| == U32_MAX + 1 && StateAt(t, |t|).queueCount == U32_MAX
  {
    var end;
    t, end := QueueCanReach(h, s, env, U32_MAX + 1);
  }
}
