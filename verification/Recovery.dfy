/** The recovery protocol, shared by both contracts, and its life over whole runs. */
module Recovery {
  import opened Types

  /** What an invocation did to the recovery record. */
  datatype Act =
    | Start(newAdmin: Address, initiator: Address)
    | Stop
    | Finish(admins: seq<Address>, threshold: u32)
    | Other

  datatype Beat = Beat(pre: Option<PendingRecovery>, act: Act, now: u64, post: Option<PendingRecovery>)

  predicate BeatOk(b: Beat) {
    match b.act
    case Start(a, i) =>
      && b.pre == None && a != Zero && b.now + RECOVERY_DELAY_SECONDS <= U64_MAX
      && b.post == Some(PendingRecovery(a, b.now + RECOVERY_DELAY_SECONDS, i))
    case Stop => b.pre.Some? && b.post == None
    case Finish(admins, threshold) =>
      && b.pre.Some? && b.pre.value.executeAfter <= b.now && b.post == None
      && admins == [b.pre.value.newAdmin] && threshold == 1
    case Other => b.post == b.pre
  }

  ghost predicate RecoveryRun(bs: seq<Beat>) {
    && (forall i | 0 <= i < |bs| :: BeatOk(bs[i]))
    && (forall i, j | 0 <= i < j < |bs| && j == i + 1 :: bs[j].pre == bs[i].post && bs[i].now <= bs[j].now)
    && (|bs| > 0 ==> bs[0].pre == None)
  }

  /** k started the recovery that is still open just before step n. */
  predicate OpenedBy(bs: seq<Beat>, k: nat, n: nat) {
    k < n <= |bs| && bs[k].act.Start? && forall j | k < j < n :: bs[j].act.Other?
  }

  function PendingAt(bs: seq<Beat>, n: nat): Option<PendingRecovery>
    requires 0 < |bs| && n <= |bs|
  {
    if n < |bs| then bs[n].pre else bs[n - 1].post
  }

  /** A pending record was written by exactly the latest initiation, unchanged since. */
  lemma {:induction false} PendingHasStart(bs: seq<Beat>, n: nat) returns (k: nat)
    requires RecoveryRun(bs) && 0 < |bs| && n <= |bs| && PendingAt(bs, n).Some?
    ensures OpenedBy(bs, k, n)
    ensures PendingAt(bs, n) == bs[k].post && bs[k].act.newAdmin != Zero
    ensures PendingAt(bs, n).value ==
              PendingRecovery(bs[k].act.newAdmin, bs[k].now + RECOVERY_DELAY_SECONDS, bs[k].act.initiator)
  {
    assert n > 0;
    assert PendingAt(bs, n) == bs[n - 1].post && BeatOk(bs[n - 1]);
    if bs[n - 1].act.Start? {
      k := n - 1;
    } else {
      k := PendingHasStart(bs, n - 1);
    }
  }

  /** An executed recovery installs exactly the target of the latest initiation, made at least
      seven days earlier and neither cancelled nor executed since. */
  lemma RecoverySafety(bs: seq<Beat>, i: nat) returns (k: nat)
    requires RecoveryRun(bs) && i < |bs| && bs[i].act.Finish?
    ensures OpenedBy(bs, k, i)
    ensures bs[i].act == Finish([bs[k].act.newAdmin], 1)
    ensures bs[k].now + RECOVERY_DELAY_SECONDS <= bs[i].now
  {
    assert BeatOk(bs[i]);
    k := PendingHasStart(bs, i);
  }

  /** Step m ended a recovery and none has started since, just before step n. */
  predicate ClosedBy(bs: seq<Beat>, m: int, n: nat) {
    && 0 <= m < n <= |bs| && (bs[m].act.Stop? || bs[m].act.Finish?)
    && forall j | m < j < n :: bs[j].act.Other?
  }

  /** After an initiation nothing is pending exactly when a cancellation or a completion has ended
      every recovery since. */
  lemma {:induction false} IdleMeansClosed(bs: seq<Beat>, i: nat, n: nat)
    requires RecoveryRun(bs) && i < n <= |bs| && bs[i].act.Start?
    ensures PendingAt(bs, n).None? <==> exists m :: i < m && ClosedBy(bs, m, n)
    decreases n - i
  {
    var b := bs[n - 1];
    assert BeatOk(b) && PendingAt(bs, n) == b.post && PendingAt(bs, n - 1) == b.pre;
    if i == n - 1 {
    } else {
      var before: nat := n - 1;
      IdleMeansClosed(bs, i, before);
      forall m ensures ClosedBy(bs, m, n) <==>
                       (m == before && (b.act.Stop? || b.act.Finish?)) || (ClosedBy(bs, m, before) && b.act.Other?) {
        ClosedStep(bs, m, before);
      }
      if b.act.Stop? || b.act.Finish? {
        assert ClosedBy(bs, n - 1, n);
      } else if exists m :: i < m && ClosedBy(bs, m, before) {
        var m :| i < m && ClosedBy(bs, m, before);
        assert ClosedBy(bs, m, n) <==> b.act.Other?;
      }
    }
  }

  lemma ClosedStep(bs: seq<Beat>, m: int, n: nat)
    requires n < |bs|
    ensures ClosedBy(bs, m, n + 1) <==>
              (m == n && (bs[n].act.Stop? || bs[n].act.Finish?)) || (ClosedBy(bs, m, n) && bs[n].act.Other?)
  {}

  /** While a recovery stays pending its record never changes. */
  lemma {:induction false} PendingIsFrozen(bs: seq<Beat>, i: nat, j: nat)
    requires RecoveryRun(bs) && 0 < |bs| && i <= j <= |bs|
    requires forall m | i <= m <= j :: PendingAt(bs, m).Some?
    ensures PendingAt(bs, i) == PendingAt(bs, j)
    decreases j - i
  {
    if i == j {
    } else {
      PendingIsFrozen(bs, i, j - 1);
      assert BeatOk(bs[j - 1]);
      assert PendingAt(bs, j - 1) == bs[j - 1].pre && PendingAt(bs, j) == bs[j - 1].post;
    }
  }
}

/** The settlement contract's recovery and the order it imposes on the timelock. */
module SettlementRecovery {
  import opened Types
  import opened Multisig
  import opened Entry
  import opened Runs
  import opened Frames
  import opened Timelock
  import opened Recovery

  function ActOf(r: Rec): Act {
    if !r.ok then Other
    else match r.call
      case InitiateRecovery(a) => Start(a, r.pre.recovery)
      case CancelRecovery(_) => Stop
      case ExecuteRecovery => Finish(r.post.admins, r.post.threshold)
      case Execute(_, op) => if op.CancelRecovery? then Stop else Other
      case _ => Other
  }

  function BeatOf(r: Rec): Beat { Beat(r.pre.pending, ActOf(r), r.env.now, r.post.pending) }

  function Beats(t: seq<Rec>): (bs: seq<Beat>)
    ensures |bs| == |t| && forall i | 0 <= i < |t| :: bs[i] == BeatOf(t[i])
  {
    seq(|t|, i requires 0 <= i < |t| => BeatOf(t[i]))
  }

  lemma StepBeat(h: Host, r: Rec)
    requires Legit(h, r)
    ensures BeatOk(BeatOf(r))
  {
    if !r.ok {
      AbortFrame(h, r);
    } else if IsQueueCall(r.call) {
      QueueFrame(h, r);
    } else if IsRegistryCall(r.call) {
      RegistryFrame(h, r);
    } else if IsLedgerCall(r.call) {
      LedgerFrame(h, r);
    } else if IsReadCall(r.call) {
      ReadFrame(h, r);
    } else if r.call.Execute? {
      ExecuteFrame(h, r);
      ArmFrame(Consume(r.pre, {h.Key(r.call.operation)}), r.env, r.call.executor, r.call.operation);
    }
  }

  lemma RunIsRecoveryRun(h: Host, t: seq<Rec>)
    requires ValidRun(h, t)
    ensures RecoveryRun(Beats(t))
  {
    forall i | 0 <= i < |t| ensures BeatOk(Beats(t)[i]) {
      StepBeat(h, t[i]);
    }
  }

  /** Recovery safety for the settlement contract: the admins after execute_recovery are exactly
      the latest initiation's target, seven days on, uncancelled. */
  lemma ExecutedRecoveryInstallsLatestTarget(h: Host, t: seq<Rec>, i: nat) returns (k: nat)
    requires ValidRun(h, t) && i < |t| && t[i].ok && t[i].call.ExecuteRecovery?
    ensures k < i && t[k].ok && t[k].call.InitiateRecovery?
    ensures t[i].post.admins == [t[k].call.newAdmin] && t[i].post.threshold == 1 && t[i].post.pending == None
    ensures t[k].env.now + RECOVERY_DELAY_SECONDS <= t[i].env.now
    ensures forall j | k < j < i :: ActOf(t[j]).Other?
  {
    RunIsRecoveryRun(h, t);
    k := FinishHasStart(t, i);
  }

  lemma FinishHasStart(t: seq<Rec>, i: nat) returns (k: nat)
    requires RecoveryRun(Beats(t)) && i < |t| && t[i].ok && t[i].call.ExecuteRecovery?
    ensures k < i && t[k].ok && t[k].call.InitiateRecovery?
    ensures t[i].post.admins == [t[k].call.newAdmin] && t[i].post.threshold == 1 && t[i].post.pending == None
    ensures t[k].env.now + RECOVERY_DELAY_SECONDS <= t[i].env.now
    ensures forall j | k < j < i :: ActOf(t[j]).Other?
  {
    assert BeatOk(Beats(t)[i]);
    k := RecoverySafety(Beats(t), i);
    forall j | k < j < i ensures ActOf(t[j]).Other? {
      assert Beats(t)[j].act.Other?;
    }
  }

  lemma TargetIsNonzero(h: Host, t: seq<Rec>, n: nat)
    requires ValidRun(h, t) && 0 < |t| && n <= |t| && StateAt(t, n).pending.Some?
    ensures StateAt(t, n).pending.value.newAdmin != Zero
  {
    RunIsRecoveryRun(h, t);
    var k := PendingHasStart(Beats(t), n);
  }

  /** execute_recovery succeeds in a reachable state exactly when a recovery is pending and its
      delay has passed: the stored target can never be the zero address. */
  lemma MatureRecoveryAlwaysCompletes(h: Host, t: seq<Rec>, n: nat, env: Env)
    requires ValidRun(h, t) && 0 < |t| && n <= |t|
    ensures var s := StateAt(t, n);
            DoExecuteRecovery(s, env).Ok? <==> s.pending.Some? && s.pending.value.executeAfter <= env.now
  {
    if StateAt(t, n).pending.Some? {
      TargetIsNonzero(h, t, n);
    }
    CompletionCondition(StateAt(t, n), env);
  }

  lemma CompletionCondition(s: State, env: Env)
    ensures DoExecuteRecovery(s, env).Ok? <==>
              s.pending.Some? && s.pending.value.executeAfter <= env.now && s.pending.value.newAdmin != Zero
  {
    if s.pending.Some? && s.pending.value.newAdmin != Zero {
      assert AdminsOk([s.pending.value.newAdmin], 1);
    }
  }

  /** The record is frozen while it exists. */
  lemma PendingRecordNeverChanges(h: Host, t: seq<Rec>, i: nat, j: nat)
    requires ValidRun(h, t) && 0 < |t| && i <= j <= |t|
    requires forall m | i <= m <= j :: StateAt(t, m).pending.Some?
    ensures StateAt(t, j).pending == StateAt(t, i).pending
  {
    RunIsRecoveryRun(h, t);
    forall m | i <= m <= j ensures PendingAt(Beats(t), m) == StateAt(t, m).pending {}
    PendingIsFrozen(Beats(t), i, j);
  }

  /** An operation scheduled while a recovery is pending, CancelRecovery included, cannot become
      executable before that recovery does. */
  lemma ScheduledBehindRecovery(h: Host, t: seq<Rec>, i: nat, op: Operation)
    requires ValidRun(h, t) && h.Faithful() && i < |t| && Schedules(t[i], op) && t[i].pre.pending.Some?
    ensures SlotMatches(h, t[i].post.queue, op)
    ensures t[i].post.queue[h.Key(op)].executeAt >= t[i].pre.pending.value.executeAfter
  {
    RunIsRecoveryRun(h, t);
    var k := PendingHasStart(Beats(t), i);
    TimeIsMonotone(t, k, i);
    StepQueue(h, t[i]);
  }

  /** Reachable states: a queued operation whose schedule came after the pending recovery's start
      waits at least as long as the recovery. */
  lemma QueuedBehindRecovery(h: Host, t: seq<Rec>, n: nat, op: Operation, k: nat, start: nat)
    requires ValidRun(h, t) && h.Faithful() && 0 < |t| && n <= |t|
    requires SlotMatches(h, StateAt(t, n).queue, op) && InForce(h, t, k, n, op)
    requires StateAt(t, n).pending.Some? && OpenedBy(Beats(t), start, n) && start < k
    ensures StateAt(t, n).queue[h.Key(op)].executeAt >= StateAt(t, n).pending.value.executeAfter
  {
    RunIsQueueRun(h, t);
    RunIsRecoveryRun(h, t);
    var k' := QueuedHasSchedule(h, t, n, op);
    assert k' == k by {
      assert k < k' ==> Touches(h, t[k'], op);
      assert k' < k ==> Touches(h, t[k], op);
    }
    var start' := PendingHasStart(Beats(t), n);
    assert start' == start by {
      assert Beats(t)[start].act.Start? && Beats(t)[start'].act.Start?;
    }
    TimeIsMonotone(t, start, k);
    StepQueue(h, t[k]);
  }

  /** While a recovery stays pending, what was queued stays queued with its execute time unless
      it is cancelled. (Executing CancelRecovery ends the window.) */
  lemma QueueSurvivesRecovery(h: Host, t: seq<Rec>, i: nat, j: nat, op: Operation)
    requires ValidRun(h, t) && h.Faithful() && 0 < |t| && i <= j <= |t|
    requires forall m | i <= m <= j :: StateAt(t, m).pending.Some?
    requires SlotMatches(h, StateAt(t, i).queue, op)
    requires forall m | i <= m < j :: !Cancels(h, t[m], op)
    ensures SlotMatches(h, StateAt(t, j).queue, op)
    ensures StateAt(t, j).queue[h.Key(op)].executeAt == StateAt(t, i).queue[h.Key(op)].executeAt
  {
    RunIsQueueRun(h, t);
    RunIsRecoveryRun(h, t);
    SlotSurvives(h, t, i, j, op);
  }

  lemma {:induction false} SlotSurvives(h: Host, t: seq<Rec>, i: nat, j: nat, op: Operation)
    requires QueueRun(h, t) && RecoveryRun(Beats(t)) && 0 < |t| && i <= j <= |t|
    requires forall m | i <= m <= j :: StateAt(t, m).pending.Some?
    requires SlotMatches(h, StateAt(t, i).queue, op)
    requires forall m | i <= m < j :: !Cancels(h, t[m], op)
    ensures SlotMatches(h, StateAt(t, j).queue, op)
    ensures StateAt(t, j).queue[h.Key(op)].executeAt == StateAt(t, i).queue[h.Key(op)].executeAt
    decreases j - i
  {
    if i == j {
    } else {
      SlotSurvives(h, t, i, j - 1, op);
      var r := t[j - 1];
      assert StateAt(t, j - 1) == r.pre && StateAt(t, j) == r.post;
      assert BeatOk(Beats(t)[j - 1]) && QueueEffect(h, r);
      VetoedStepKeepsSlot(h, r, op);
    }
  }

  lemma VetoedStepKeepsSlot(h: Host, r: Rec, op: Operation)
    requires h.Faithful() && QueueEffect(h, r) && BeatOk(BeatOf(r))
    requires r.pre.pending.Some? && r.post.pending.Some?
    requires SlotMatches(h, r.pre.queue, op) && !Cancels(h, r, op)
    ensures SlotMatches(h, r.post.queue, op)
    ensures r.post.queue[h.Key(op)].executeAt == r.pre.queue[h.Key(op)].executeAt
  {
    SlotStep(h, r, op);
    assert Executes(r, op) ==> ActOf(r).Stop?;
  }

  // ---- What the veto leaves behind -----------------------------------------------------------------

  lemma {:induction false} UntouchedSlotStays(h: Host, t: seq<Rec>, i: nat, n: nat, op: Operation)
    requires QueueRun(h, t) && 0 < |t| && i <= n <= |t| && SlotMatches(h, StateAt(t, i).queue, op)
    requires forall j | i <= j < n :: !Cancels(h, t[j], op) && !Executes(t[j], op)
    ensures SlotMatches(h, StateAt(t, n).queue, op)
    ensures StateAt(t, n).queue[h.Key(op)].executeAt == StateAt(t, i).queue[h.Key(op)].executeAt
    decreases n - i
  {
    if i == n {
    } else {
      UntouchedSlotStays(h, t, i, n - 1, op);
      assert StateAt(t, n - 1) == t[n - 1].pre && StateAt(t, n) == t[n - 1].post && QueueEffect(h, t[n - 1]);
      SlotStep(h, t[n - 1], op);
    }
  }

  /** An operation queued before a recovery began, and neither cancelled nor executed since, is
      executable later exactly when the contract is unpaused, its own time has come, and the recovery
      has been cancelled or completed with none pending again (or it is CancelRecovery): the veto ends
      with the recovery, and completing the recovery does not remove what the old admins queued. */
  lemma OldOperationsOutliveTheVeto(h: Host, t: seq<Rec>, i: nat, n: nat, op: Operation, env: Env)
    requires ValidRun(h, t) && h.Faithful() && i < n <= |t|
    requires t[i].ok && t[i].call.InitiateRecovery? && SlotMatches(h, t[i].pre.queue, op)
    requires forall j | i <= j < n :: !Cancels(h, t[j], op) && !Executes(t[j], op)
    ensures ExecutionGuard(h, StateAt(t, n), env, op).Pass? <==>
              && !StateAt(t, n).paused
              && t[i].pre.queue[h.Key(op)].executeAt <= env.now
              && (op == Operation.CancelRecovery || exists m :: i < m && ClosedBy(Beats(t), m, n))
  {
    RunIsQueueRun(h, t);
    UntouchedSlotStays(h, t, i, n, op);
    RunIsRecoveryRun(h, t);
    IdleMeansClosed(Beats(t), i, n);
    assert PendingAt(Beats(t), n) == StateAt(t, n).pending;
    QueuedReadiness(h, StateAt(t, n), env, op);
  }

  lemma QueuedReadiness(h: Host, s: State, env: Env, op: Operation)
    requires SlotMatches(h, s.queue, op)
    ensures ExecutionGuard(h, s, env, op).Pass? <==>
              && !s.paused && s.queue[h.Key(op)].executeAt <= env.now
              && (op == Operation.CancelRecovery || s.pending == None)
  {}

  /** From every initial state: the admins queue a governance change, a recovery replaces them seven
      days later, and the change they queued still executes. */
  lemma OldOperationRunsAfterRecovery(h: Host, s: State, env: Env, m: Address, g: Address) returns (t: seq<Rec>)
    requires Initial(s) && m != Zero && g != Zero && s.recovery in env.auth
    requires Schedulable(h, s, env, Operation.UpdateGovernance(g))
    ensures ValidRun(h, t) && |t| == 4 && t[0].pre == s && forall i | 0 <= i < 4 :: t[i].ok
    ensures Schedules(t[0], Operation.UpdateGovernance(g)) && t[0].call.signers == s.admins
    ensures t[1].call == InitiateRecovery(m) && t[2].call.ExecuteRecovery? && t[3].pre.admins == [m]
    ensures Executes(t[3], Operation.UpdateGovernance(g)) && StateAt(t, 4).governance == g
  {
    var later := env.(now := env.now + RECOVERY_DELAY_SECONDS);
    var r0 := AdminsSchedule(h, s, env, Operation.UpdateGovernance(g));
    var r1, r2 := RecoveryKeepsQueue(h, r0.post, env, m, later);
    var r3 := GovernanceChangeExecutes(h, r2.post, later, m, g);
    RunOfThree(h, r0, r1, r2);
    RunExtends(h, [r0, r1, r2], r3);
    t := [r0, r1, r2] + [r3];
  }

  lemma RecoveryKeepsQueue(h: Host, s: State, env: Env, m: Address, later: Env) returns (r1: Rec, r2: Rec)
    requires s.pending == None && m != Zero && s.recovery in env.auth
    requires env.now + RECOVERY_DELAY_SECONDS <= U64_MAX && later.now == env.now + RECOVERY_DELAY_SECONDS
    ensures Legit(h, r1) && r1.ok && r1.pre == s && r1.call == InitiateRecovery(m) && r1.env == env
    ensures Legit(h, r2) && r2.ok && r2.pre == r1.post && r2.call == ExecuteRecovery && r2.env == later
    ensures r2.post.admins == [m] && r2.post.pending == None
    ensures r2.post.queue == s.queue && r2.post.paused == s.paused
  {
    r1 := Invocation(h, s, InitiateRecovery(m), env);
    r2 := Invocation(h, r1.post, ExecuteRecovery, later);
    assert AdminsOk([m], 1);
  }

  lemma GovernanceChangeExecutes(h: Host, s: State, env: Env, executor: Address, g: Address) returns (r: Rec)
    requires ExecutionGuard(h, s, env, Operation.UpdateGovernance(g)).Pass? && g != Zero
    ensures Legit(h, r) && r.pre == s && r.env == env && Executes(r, Operation.UpdateGovernance(g))
    ensures r.post.governance == g
  {
    r := Invocation(h, s, Execute(executor, Operation.UpdateGovernance(g)), env);
  }
}
