/** The op_* events a run publishes, and what they say about the queue. */
module EventLog {
  import opened Types
  import opened Entry
  import opened Runs
  import opened Frames
  import opened Timelock

  predicate IsOpEvent(e: Event) { e.OpScheduled? || e.OpExecuted? || e.OpCancelled? || e.OpsCancelled? }

  /** b extends a by events that are not op_* events. */
  predicate Quiet(a: seq<Event>, b: seq<Event>) {
    a <= b && forall i | |a| <= i < |b| :: !IsOpEvent(b[i])
  }

  /** The events an invocation appended. */
  ghost predicate LogEffect(h: Host, r: Rec) {
    if r.ok && r.call.Schedule? then
      r.call.signers != [] && r.env.now + r.call.executeIn <= U64_MAX
      && r.post.log == r.pre.log
           + [OpScheduled(h.Key(r.call.operation), r.call.signers[0], r.env.now + r.call.executeIn)]
    else if r.ok && r.call.Execute? then
      exists mid :: Quiet(r.pre.log, mid) && r.post.log == mid + [OpExecuted(h.Key(r.call.operation))]
    else if r.ok && r.call.Cancel? then
      r.call.signers != [] && r.post.log == r.pre.log + [OpCancelled(h.Key(r.call.operation), r.call.signers[0])]
    else if r.ok && r.call.CancelAll? then
      r.call.signers != []
      && r.post.log == r.pre.log + [OpsCancelled(r.call.signers[0], |Hits(h, r.pre.queue, r.call.operations)|)]
    else Quiet(r.pre.log, r.post.log)
  }

  lemma QueueCallLog(h: Host, r: Rec)
    requires Legit(h, r) && r.ok && IsQueueCall(r.call)
    ensures LogEffect(h, r)
  {}

  lemma RecoveryCallLog(h: Host, r: Rec)
    requires Legit(h, r) && r.ok
    requires r.call.InitiateRecovery? || r.call.CancelRecovery? || r.call.UpdateRecoveryAddress?
    ensures Quiet(r.pre.log, r.post.log)
  {}

  lemma AdminCallLog(h: Host, r: Rec)
    requires Legit(h, r) && r.ok && (r.call.ExecuteRecovery? || r.call.TransferAdmin? || r.call.ChangeThreshold?)
    ensures Quiet(r.pre.log, r.post.log)
  {}

  lemma PauseCallLog(h: Host, r: Rec)
    requires Legit(h, r) && r.ok && (r.call.Upgrade? || r.call.Pause? || r.call.Unpause?)
    ensures Quiet(r.pre.log, r.post.log)
  {}

  lemma RegisterCallLog(h: Host, r: Rec)
    requires Legit(h, r) && r.ok && (r.call.UpdateGovernance? || r.call.RegisterMerchant? || r.call.SetDefaultRule?)
    ensures Quiet(r.pre.log, r.post.log)
  {}

  lemma RuleCallLog(h: Host, r: Rec)
    requires Legit(h, r) && r.ok && (r.call.SetSettlementRule? || r.call.ClearSettlementRule?)
    ensures Quiet(r.pre.log, r.post.log)
  {}

  lemma UnregisterCallLog(h: Host, r: Rec)
    requires Legit(h, r) && r.ok && (r.call.UnregisterMerchant?)
    ensures Quiet(r.pre.log, r.post.log)
  {}

  lemma StoreCallLog(h: Host, r: Rec)
    requires Legit(h, r) && r.ok && (r.call.StorePayment?)
    ensures Quiet(r.pre.log, r.post.log)
  {}

  lemma PruneCallLog(h: Host, r: Rec)
    requires Legit(h, r) && r.ok && (r.call.PrunePayment? || r.call.PrunePayments?)
    ensures Quiet(r.pre.log, r.post.log)
  {}

  lemma RuleArmLog(s: State, env: Env, executor: Address, op: Operation)
    requires Arm(s, env, executor, op).Ok? && (op.SetSettlementRule? || op.ClearSettlementRule? || op.SetDefaultRule?)
    ensures Quiet(s.log, Arm(s, env, executor, op).value.log)
  {}

  lemma UnregisterArmLog(s: State, env: Env, executor: Address, op: Operation)
    requires Arm(s, env, executor, op).Ok? && op.UnregisterMerchant?
    ensures Quiet(s.log, Arm(s, env, executor, op).value.log)
  {}

  lemma ArmLog(s: State, env: Env, executor: Address, op: Operation)
    requires Arm(s, env, executor, op).Ok?
    ensures Quiet(s.log, Arm(s, env, executor, op).value.log)
  {
    if op.UnregisterMerchant? {
      UnregisterArmLog(s, env, executor, op);
    } else if op.SetSettlementRule? || op.ClearSettlementRule? || op.SetDefaultRule? {
      RuleArmLog(s, env, executor, op);
    } else {
      OtherArmLog(s, env, executor, op);
    }
  }

  lemma OtherArmLog(s: State, env: Env, executor: Address, op: Operation)
    requires Arm(s, env, executor, op).Ok? && !op.UnregisterMerchant?
    requires !op.SetSettlementRule? && !op.ClearSettlementRule? && !op.SetDefaultRule?
    ensures Quiet(s.log, Arm(s, env, executor, op).value.log)
  {}

  lemma StepLog(h: Host, r: Rec)
    requires Legit(h, r)
    ensures LogEffect(h, r)
  {
    if !r.ok {
      AbortFrame(h, r);
    } else if IsQueueCall(r.call) {
      QueueCallLog(h, r);
    } else if r.call.InitiateRecovery? || r.call.CancelRecovery? || r.call.UpdateRecoveryAddress? {
      RecoveryCallLog(h, r);
    } else if r.call.ExecuteRecovery? || r.call.TransferAdmin? || r.call.ChangeThreshold? {
      AdminCallLog(h, r);
    } else if IsAuthorityCall(r.call) {
      PauseCallLog(h, r);
    } else if r.call.UpdateGovernance? || r.call.RegisterMerchant? || r.call.SetDefaultRule? {
      RegisterCallLog(h, r);
    } else if r.call.SetSettlementRule? || r.call.ClearSettlementRule? {
      RuleCallLog(h, r);
    } else if r.call.UnregisterMerchant? {
      UnregisterCallLog(h, r);
    } else if r.call.StorePayment? {
      StoreCallLog(h, r);
    } else if r.call.Execute? {
      ExecuteFrame(h, r);
      var s := Consume(r.pre, {h.Key(r.call.operation)});
      ArmLog(s, r.env, r.call.executor, r.call.operation);
      assert Quiet(r.pre.log, Arm(s, r.env, r.call.executor, r.call.operation).value.log);
    } else if IsReadCall(r.call) {
      ReadFrame(h, r);
    } else {
      PruneCallLog(h, r);
    }
  }

  // ---- What the events say -----------------------------------------------------------------------

  /** The execute time in the last op_scheduled event of each hash. */
  function LastScheduled(log: seq<Event>): map<Hash, u64> {
    if log == [] then map[]
    else
      var before := LastScheduled(log[..|log| - 1]);
      var e := log[|log| - 1];
      if e.OpScheduled? then before[e.hash := e.executeAt] else before
  }

  /** The hashes named by an op_executed or op_cancelled event. */
  function Finished(log: seq<Event>): set<Hash> {
    if log == [] then {}
    else
      var before := Finished(log[..|log| - 1]);
      var e := log[|log| - 1];
      if e.OpExecuted? || e.OpCancelled? then before + {e.hash} else before
  }

  lemma Append(log: seq<Event>, e: Event)
    ensures LastScheduled(log + [e]) == if e.OpScheduled? then LastScheduled(log)[e.hash := e.executeAt]
                                        else LastScheduled(log)
    ensures Finished(log + [e]) == if e.OpExecuted? || e.OpCancelled? then Finished(log) + {e.hash} else Finished(log)
  {
    assert (log + [e])[..|log + [e]| - 1] == log;
  }

  lemma {:induction false} QuietSaysNothing(a: seq<Event>, b: seq<Event>)
    requires Quiet(a, b)
    ensures LastScheduled(b) == LastScheduled(a) && Finished(b) == Finished(a)
    decreases |b|
  {
    if |a| == |b| {
      assert a == b;
    } else {
      var b' := b[..|b| - 1];
      assert b == b' + [b[|b| - 1]];
      Append(b', b[|b| - 1]);
      QuietSaysNothing(a, b');
    }
  }

  // ---- One hash through one step --------------------------------------------------------------------

  predicate SchedulesKey(h: Host, r: Rec, k: Hash) { r.ok && r.call.Schedule? && h.Key(r.call.operation) == k }

  /** Executed or cancelled with an event that carries the hash. */
  predicate FinishesKey(h: Host, r: Rec, k: Hash) {
    r.ok && (r.call.Execute? || r.call.Cancel?) && h.Key(r.call.operation) == k
  }

  /** Removed by cancel_all, whose event carries no hash. */
  predicate DrainsKey(h: Host, r: Rec, k: Hash) {
    r.ok && r.call.CancelAll? && k in Hits(h, r.pre.queue, r.call.operations)
  }

  /** A hash's slot and its standing in the events. */
  datatype Standing = Standing(slot: Option<u64>, announced: Option<u64>, finished: bool)

  function StandingOf(s: State, k: Hash): Standing {
    Standing(if k in s.queue then Some(s.queue[k].executeAt) else None,
             if k in LastScheduled(s.log) then Some(LastScheduled(s.log)[k]) else None,
             k in Finished(s.log))
  }

  /** One step as the hash sees it. */
  datatype KeyBeat = KeyBeat(pre: Standing, schedules: bool, finishes: bool, drains: bool, post: Standing)

  predicate KeyBeatOk(b: KeyBeat) {
    && (b.schedules ==> b.pre.slot == None && b.post.slot.Some? && b.post.announced == b.post.slot
                        && b.post.finished == b.pre.finished && !b.finishes && !b.drains)
    && (b.finishes || b.drains ==> b.pre.slot.Some? && b.post.slot == None)
    && (!b.schedules ==> b.post.announced == b.pre.announced && b.post.finished == (b.pre.finished || b.finishes))
    && (!b.schedules && !b.finishes && !b.drains ==> b.post.slot == b.pre.slot)
  }

  function KeyBeatOf(h: Host, r: Rec, k: Hash): KeyBeat {
    KeyBeat(StandingOf(r.pre, k), SchedulesKey(h, r, k), FinishesKey(h, r, k), DrainsKey(h, r, k),
            StandingOf(r.post, k))
  }

  function KeyBeats(h: Host, t: seq<Rec>, k: Hash): (bs: seq<KeyBeat>)
    ensures |bs| == |t| && forall i | 0 <= i < |t| :: bs[i] == KeyBeatOf(h, t[i], k)
  {
    seq(|t|, i requires 0 <= i < |t| => KeyBeatOf(h, t[i], k))
  }

  lemma StepKeyBeat(h: Host, r: Rec, k: Hash)
    requires QueueEffect(h, r) && LogEffect(h, r)
    ensures KeyBeatOk(KeyBeatOf(h, r, k))
  {
    LogTotals(h, r);
  }

  lemma LogTotals(h: Host, r: Rec)
    requires LogEffect(h, r)
    ensures LastScheduled(r.post.log) ==
              if r.ok && r.call.Schedule? && r.env.now + r.call.executeIn <= U64_MAX
              then LastScheduled(r.pre.log)[h.Key(r.call.operation) := r.env.now + r.call.executeIn]
              else LastScheduled(r.pre.log)
    ensures Finished(r.post.log) ==
              if r.ok && (r.call.Execute? || r.call.Cancel?) then Finished(r.pre.log) + {h.Key(r.call.operation)}
              else Finished(r.pre.log)
  {
    if r.ok && r.call.Execute? {
      var mid :| Quiet(r.pre.log, mid) && r.post.log == mid + [OpExecuted(h.Key(r.call.operation))];
      QuietSaysNothing(r.pre.log, mid);
      Append(mid, OpExecuted(h.Key(r.call.operation)));
    } else if r.ok && (r.call.Schedule? || r.call.Cancel? || r.call.CancelAll?) {
      Append(r.pre.log, r.post.log[|r.pre.log|]);
    } else {
      QuietSaysNothing(r.pre.log, r.post.log);
    }
  }

  // ---- One hash through a run ------------------------------------------------------------------------

  ghost predicate KeyRun(bs: seq<KeyBeat>) {
    && (forall i | 0 <= i < |bs| :: KeyBeatOk(bs[i]))
    && (forall i, j | 0 <= i < j < |bs| && j == i + 1 :: bs[j].pre == bs[i].post)
    && (|bs| > 0 ==> bs[0].pre == Standing(None, None, false))
  }

  lemma RunIsKeyRun(h: Host, t: seq<Rec>, k: Hash)
    requires ValidRun(h, t)
    ensures KeyRun(KeyBeats(h, t, k))
  {
    forall i | 0 <= i < |t| ensures KeyBeatOk(KeyBeats(h, t, k)[i]) {
      StepQueue(h, t[i]);
      StepLog(h, t[i]);
      StepKeyBeat(h, t[i], k);
    }
  }

  function StandingAt(bs: seq<KeyBeat>, n: nat): Standing
    requires 0 < |bs| && n <= |bs|
  {
    if n < |bs| then bs[n].pre else bs[n - 1].post
  }

  /** A queued hash was announced, with its current execute time. */
  lemma {:induction false} QueuedIsAnnounced(bs: seq<KeyBeat>, n: nat)
    requires KeyRun(bs) && 0 < |bs| && n <= |bs| && StandingAt(bs, n).slot.Some?
    ensures StandingAt(bs, n).announced == StandingAt(bs, n).slot
  {
    assert n > 0;
    assert KeyBeatOk(bs[n - 1]) && StandingAt(bs, n) == bs[n - 1].post && StandingAt(bs, n - 1) == bs[n - 1].pre;
    if !bs[n - 1].schedules {
      QueuedIsAnnounced(bs, n - 1);
    }
  }

  lemma {:induction false} FinishedMeansFinishedOnce(bs: seq<KeyBeat>, n: nat)
    requires KeyRun(bs) && 0 < |bs| && n <= |bs|
    ensures StandingAt(bs, n).finished <==> exists i :: 0 <= i < n && bs[i].finishes
  {
    if n == 0 {
    } else {
      FinishedMeansFinishedOnce(bs, n - 1);
      var b := bs[n - 1];
      assert KeyBeatOk(b) && StandingAt(bs, n) == b.post && StandingAt(bs, n - 1) == b.pre;
      assert StandingAt(bs, n).finished <==> StandingAt(bs, n - 1).finished || b.finishes;
    }
  }

  /** Step i drained the hash and nothing scheduled it again before n. */
  predicate DrainedSince(bs: seq<KeyBeat>, i: int, n: nat)
    requires n <= |bs|
  {
    0 <= i < n && bs[i].drains && forall j | i < j < n :: !bs[j].schedules
  }

  /** An announced, never finished hash is off the queue exactly when cancel_all drained it and it
      was not scheduled since. */
  lemma {:induction false} OffQueueMeansDrained(bs: seq<KeyBeat>, n: nat)
    requires KeyRun(bs) && 0 < |bs| && n <= |bs|
    requires StandingAt(bs, n).announced.Some? && !StandingAt(bs, n).finished
    ensures StandingAt(bs, n).slot == None <==> exists i :: DrainedSince(bs, i, n)
  {
    assert n > 0;
    var b := bs[n - 1];
    assert KeyBeatOk(b) && StandingAt(bs, n) == b.post && StandingAt(bs, n - 1) == b.pre;
    forall i ensures DrainedSince(bs, i, n) <==>
                     (DrainedSince(bs, i, n - 1) && !b.schedules) || (i == n - 1 && b.drains) {
      DrainedStep(bs, i, n - 1);
    }
    if b.drains {
      assert DrainedSince(bs, n - 1, n);
    } else if !b.schedules {
      OffQueueMeansDrained(bs, n - 1);
      var m: nat := n - 1;
      if i :| DrainedSince(bs, i, m) {
        assert DrainedSince(bs, i, n);
      }
    }
  }

  lemma DrainedStep(bs: seq<KeyBeat>, i: int, n: nat)
    requires n < |bs|
    ensures DrainedSince(bs, i, n + 1) <==>
            (DrainedSince(bs, i, n) && !bs[n].schedules) || (i == n && bs[n].drains)
  {}
}
