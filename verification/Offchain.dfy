/** The off-chain reconstruction of the queue from published events. */
module Offchain {
  import opened Types
  import opened Multisig
  import opened Entry
  import opened Runs
  import opened Timelock
  import opened EventLog

  datatype Topic = OpScheduledTopic | OpExecutedTopic | OpCancelledTopic | OtherTopic

  /** A decoded event: the hash is absent when the event has no second topic. */
  datatype ChainEvent = ChainEvent(contractId: string, topic0: Topic, opHash: Option<Hash>,
                                   caller: Option<Address>, executeAt: Option<u64>, ledger: nat, pagingToken: string)

  datatype Pending = Pending(contractId: string, opHash: Hash, executeAt: Option<u64>, caller: Option<Address>,
                             scheduledLedger: nat, pagingToken: string)

  // ---- Meaning of the event list ---------------------------------------------------------------------

  predicate Opens(e: ChainEvent) { e.topic0.OpScheduledTopic? && e.opHash.Some? }
  predicate Closes(e: ChainEvent) { (e.topic0.OpExecutedTopic? || e.topic0.OpCancelledTopic?) && e.opHash.Some? }

  function PendingOf(e: ChainEvent): Pending
    requires e.opHash.Some?
  {
    Pending(e.contractId, e.opHash.value, e.executeAt, e.caller, e.ledger, e.pagingToken)
  }

  /** The latest scheduling event of each hash. */
  function Opened(events: seq<ChainEvent>): (m: map<Hash, Pending>)
    ensures forall k | k in m :: m[k].opHash == k
  {
    if events == [] then map[]
    else
      var before := Opened(events[..|events| - 1]);
      var e := events[|events| - 1];
      if Opens(e) then before[e.opHash.value := PendingOf(e)] else before
  }

  function Closed(events: seq<ChainEvent>): set<Hash> {
    if events == [] then {}
    else
      var before := Closed(events[..|events| - 1]);
      var e := events[|events| - 1];
      if Closes(e) then before + {e.opHash.value} else before
  }

  /** What a reader is told is pending. */
  function Reported(events: seq<ChainEvent>, contractId: Option<string>): (m: map<Hash, Pending>)
    ensures forall k | k in m :: m[k].opHash == k
  {
    var latest := Opened(events);
    map k | k in latest && k !in Closed(events) && (contractId.None? || latest[k].contractId == contractId.value)
      :: latest[k]
  }

  predicate OpensKey(e: ChainEvent, k: Hash) { e.topic0.OpScheduledTopic? && e.opHash == Some(k) }

  predicate ClosesKey(e: ChainEvent, k: Hash) {
    (e.topic0.OpExecutedTopic? || e.topic0.OpCancelledTopic?) && e.opHash == Some(k)
  }

  predicate LatestOpening(events: seq<ChainEvent>, i: int, k: Hash) {
    0 <= i < |events| && OpensKey(events[i], k) && forall j | i < j < |events| :: !OpensKey(events[j], k)
  }

  ghost predicate EverCloses(events: seq<ChainEvent>, k: Hash) { exists e :: e in events && ClosesKey(e, k) }

  lemma {:induction false} ClosedMeaning(events: seq<ChainEvent>, k: Hash)
    ensures k in Closed(events) <==> EverCloses(events, k)
  {
    if events != [] {
      var n := |events| - 1;
      ClosedMeaning(events[..n], k);
      assert forall e :: e in events <==> e in events[..n] || e == events[n];
      if EverCloses(events, k) {
        var e :| e in events && ClosesKey(e, k);
        assert e in events[..n] ==> EverCloses(events[..n], k);
      } else {
        assert !ClosesKey(events[n], k);
      }
    }
  }

  /** The report says of a hash what the latest event that schedules it says, unless any event executes or
      cancels it. */
  lemma {:induction false} ReportMeaning(events: seq<ChainEvent>, contractId: Option<string>, k: Hash)
    ensures k in Opened(events) <==> exists i :: LatestOpening(events, i, k)
    ensures forall i | LatestOpening(events, i, k) ::
              && k in Opened(events)
              && (k in Reported(events, contractId) <==>
                    !EverCloses(events, k) && (contractId == None || contractId == Some(events[i].contractId)))
              && Opened(events)[k] == Pending(
                   contractId := events[i].contractId, opHash := k, executeAt := events[i].executeAt,
                   caller := events[i].caller, scheduledLedger := events[i].ledger,
                   pagingToken := events[i].pagingToken)
  {
    ClosedMeaning(events, k);
    if events != [] {
      var n := |events| - 1;
      ReportMeaning(events[..n], contractId, k);
      forall i | 0 <= i < n
        ensures LatestOpening(events, i, k) <==> LatestOpening(events[..n], i, k) && !OpensKey(events[n], k)
      {}
      assert LatestOpening(events, n, k) <==> OpensKey(events[n], k);
    }
  }

  /** Order of the report: execute time (missing last), then hash. */
  function SortKey(p: Pending): int { if p.executeAt.Some? then p.executeAt.value else U64_MAX + 1 }

  predicate Before(a: Pending, b: Pending) {
    SortKey(a) < SortKey(b) || (SortKey(a) == SortKey(b) && a.opHash < b.opHash)
  }

  predicate Ordered(ps: seq<Pending>) { forall i, j | 0 <= i < j < |ps| :: Before(ps[i], ps[j]) }

  /** The order spelled out: earlier execute times first, missing ones last, equal ones by hash. */
  lemma OrderedMeaning(ps: seq<Pending>)
    ensures Ordered(ps) <==> forall i, j | 0 <= i < j < |ps| :: InOrder(ps[i], ps[j])
  {
    forall a, b ensures Before(a, b) <==> InOrder(a, b) {}
  }

  predicate InOrder(a: Pending, b: Pending) {
    if a.executeAt == b.executeAt then a.opHash < b.opHash
    else a.executeAt.Some? && (b.executeAt.None? || a.executeAt.value < b.executeAt.value)
  }

  /** Once p does not come after ps[i], it comes before all that follows. */
  lemma PrecedesTail(ps: seq<Pending>, p: Pending, i: nat, j: nat)
    requires Ordered(ps) && i <= j < |ps| && !Before(ps[i], p) && ps[i].opHash != p.opHash
    ensures Before(p, ps[j])
  {}

  lemma InsertionIsOrdered(ps: seq<Pending>, p: Pending, i: nat)
    requires Ordered(ps) && i <= |ps|
    requires forall j | 0 <= j < i :: Before(ps[j], p)
    requires forall j | i <= j < |ps| :: Before(p, ps[j])
    ensures Ordered(ps[..i] + [p] + ps[i..])
  {}

  /** ps with p inserted where the order wants it. */
  method InsertInOrder(ps: seq<Pending>, p: Pending) returns (r: seq<Pending>)
    requires Ordered(ps) && forall q | q in ps :: q.opHash != p.opHash
    ensures Ordered(r) && multiset(r) == multiset(ps) + multiset{p}
  {
    var i := 0;
    while i < |ps| && Before(ps[i], p)
      invariant 0 <= i <= |ps|
      invariant forall j | 0 <= j < i :: Before(ps[j], p)
    {
      i := i + 1;
    }
    forall j | i <= j < |ps| ensures Before(p, ps[j]) {
      assert ps[i] in ps;
      PrecedesTail(ps, p, i, j);
    }
    InsertionIsOrdered(ps, p, i);
    r := ps[..i] + [p] + ps[i..];
    assert ps == ps[..i] + ps[i..];
  }

  /** The pass that fills the two dictionaries. */
  method ScanEvents(events: seq<ChainEvent>) returns (scheduled: map<Hash, Pending>, finished: map<Hash, Topic>)
    ensures scheduled == Opened(events) && finished.Keys == Closed(events)
  {
    scheduled, finished := map[], map[];
    for i := 0 to |events|
      invariant scheduled == Opened(events[..i])
      invariant finished.Keys == Closed(events[..i])
    {
      var e := events[i];
      assert events[..i + 1][..i] == events[..i];
      if e.topic0.OtherTopic? || e.opHash.None? {
        continue;
      }
      if e.topic0.OpScheduledTopic? {
        scheduled := scheduled[e.opHash.value := PendingOf(e)];
      } else {
        finished := finished[e.opHash.value := e.topic0];
      }
    }
    assert events[..|events|] == events;
  }

  /** collect_pending: two dictionaries filled in one pass, then a filtered, sorted report. */
  method CollectPending(events: seq<ChainEvent>, contractId: Option<string>)
    returns (pending: seq<Pending>, scheduledCount: nat, finishedCount: nat)
    ensures Ordered(pending)
    ensures |pending| == |Reported(events, contractId)|
    ensures forall p :: p in pending <==>
              p.opHash in Reported(events, contractId) && Reported(events, contractId)[p.opHash] == p
    ensures scheduledCount == |Opened(events)| && finishedCount == |Closed(events)|
  {
    var scheduled, finished := ScanEvents(events);
    scheduledCount, finishedCount := |scheduled|, |finished.Keys|;
    var kept := map k | k in scheduled && k !in finished
                        && (contractId.None? || scheduled[k].contractId == contractId.value) :: scheduled[k];
    assert kept == Reported(events, contractId);
    pending := SortEntries(kept);
  }

  method SortEntries(entries: map<Hash, Pending>) returns (sorted: seq<Pending>)
    requires forall k | k in entries :: entries[k].opHash == k
    ensures Ordered(sorted) && |sorted| == |entries|
    ensures forall p :: p in sorted <==> p.opHash in entries && entries[p.opHash] == p
  {
    sorted := [];
    var todo := entries.Keys;
    while todo != {}
      invariant todo <= entries.Keys && Ordered(sorted)
      invariant |sorted| == |entries| - |todo|
      invariant forall p :: p in sorted <==> p.opHash in entries && p.opHash !in todo && entries[p.opHash] == p
      decreases todo
    {
      var k :| k in todo;
      ghost var was := sorted;
      sorted := InsertInOrder(sorted, entries[k]);
      InsertedMembers(was, entries[k], sorted);
      todo := todo - {k};
    }
  }

  lemma InsertedMembers<T>(was: seq<T>, x: T, now: seq<T>)
    requires multiset(now) == multiset(was) + multiset{x}
    ensures |now| == |was| + 1
    ensures forall y :: y in now <==> y in was || y == x
  {
    assert |multiset(now)| == |now| && |multiset(was)| == |was|;
    forall y ensures y in now <==> y in was || y == x {
      assert y in now <==> y in multiset(now);
      assert y in was <==> y in multiset(was);
    }
  }

  // ---- Against the contract --------------------------------------------------------------------------

  /** How the contract's events look once published and decoded: the batch cancellation carries no
      hash topic. */
  function Decoded(e: Event, contractId: string, ledger: nat, token: string): ChainEvent {
    match e
    case OpScheduled(k, who, at) =>
      ChainEvent(contractId, OpScheduledTopic, Some(k), Some(who), Some(at), ledger, token)
    case OpExecuted(k) => ChainEvent(contractId, OpExecutedTopic, Some(k), None, None, ledger, token)
    case OpCancelled(k, _) => ChainEvent(contractId, OpCancelledTopic, Some(k), None, None, ledger, token)
    case OpsCancelled(_, _) => ChainEvent(contractId, OpCancelledTopic, None, None, None, ledger, token)
    case _ => ChainEvent(contractId, OtherTopic, None, None, None, ledger, token)
  }

  /** The published form of a contract's log, each event at some ledger and paging token. */
  predicate Published(log: seq<Event>, contractId: string, events: seq<ChainEvent>) {
    |events| == |log| &&
    forall i | 0 <= i < |log| :: events[i] == Decoded(log[i], contractId, events[i].ledger, events[i].pagingToken)
  }

  lemma {:induction false} PublishedMeaning(log: seq<Event>, contractId: string, events: seq<ChainEvent>)
    requires Published(log, contractId, events)
    ensures Opened(events).Keys == LastScheduled(log).Keys && Closed(events) == Finished(log)
    ensures forall k | k in Opened(events) ::
              Opened(events)[k].executeAt == Some(LastScheduled(log)[k]) && Opened(events)[k].contractId == contractId
  {
    if log == [] {
    } else {
      var n := |log| - 1;
      PublishedMeaning(log[..n], contractId, events[..n]);
      assert events[n] == Decoded(log[n], contractId, events[n].ledger, events[n].pagingToken);
    }
  }

  lemma ReportedMeaning(s: State, contractId: string, events: seq<ChainEvent>, filter: Option<string>, k: Hash)
    requires Published(s.log, contractId, events) && (filter.None? || filter.value == contractId)
    ensures k in Reported(events, filter) <==> StandingOf(s, k).announced.Some? && !StandingOf(s, k).finished
    ensures k in Reported(events, filter) ==> Reported(events, filter)[k].executeAt == StandingOf(s, k).announced
  {
    PublishedMeaning(s.log, contractId, events);
  }

  /** Exactly which hashes the report gets wrong, over the published events of any run. A reported
      hash is off the queue exactly when cancel_all drained it after its last schedule; a queued
      hash is missing exactly when an earlier execute or cancel event named it; and a reported,
      queued hash carries its true execute time. */
  lemma ReportErrors(h: Host, t: seq<Rec>, n: nat, contractId: string, events: seq<ChainEvent>,
                     filter: Option<string>, k: Hash)
    requires ValidRun(h, t) && 0 < |t| && n <= |t|
    requires Published(StateAt(t, n).log, contractId, events) && (filter.None? || filter.value == contractId)
    ensures var report, queue, bs := Reported(events, filter), StateAt(t, n).queue, KeyBeats(h, t, k);
            && (k in report ==> (k !in queue <==> exists i :: DrainedSince(bs, i, n)))
            && (k in queue ==> (k !in report <==> exists i :: 0 <= i < n && FinishesKey(h, t[i], k)))
            && (k in report && k in queue ==> report[k].executeAt == Some(queue[k].executeAt))
  {
    var s, bs := StateAt(t, n), KeyBeats(h, t, k);
    ReportedMeaning(s, contractId, events, filter, k);
    RunIsKeyRun(h, t, k);
    assert StandingAt(bs, n) == StandingOf(s, k);
    if k in Reported(events, filter) {
      OffQueueMeansDrained(bs, n);
    }
    if k in s.queue {
      QueuedIsAnnounced(bs, n);
      FinishedMeansFinishedOnce(bs, n);
      assert forall i | 0 <= i < n :: bs[i].finishes == FinishesKey(h, t[i], k);
    }
  }

  /** Every reader of the contract's published log is told k is pending. */
  ghost predicate AlwaysReported(log: seq<Event>, k: Hash) {
    forall contractId, events, filter |
      Published(log, contractId, events) && (filter == None || filter == Some(contractId)) ::
      k in Reported(events, filter)
  }

  /** No reader of the contract's published log is told k is pending. */
  ghost predicate NeverReported(log: seq<Event>, k: Hash) {
    forall contractId, events, filter |
      Published(log, contractId, events) && (filter == None || filter == Some(contractId)) ::
      k !in Reported(events, filter)
  }

  lemma StandingDecidesReport(s: State, k: Hash)
    ensures StandingOf(s, k).announced.Some? && !StandingOf(s, k).finished ==> AlwaysReported(s.log, k)
    ensures StandingOf(s, k).announced.None? || StandingOf(s, k).finished ==> NeverReported(s.log, k)
  {
    forall contractId, events, filter |
      Published(s.log, contractId, events) && (filter == None || filter == Some(contractId))
      ensures k in Reported(events, filter) <==> StandingOf(s, k).announced.Some? && !StandingOf(s, k).finished
    {
      ReportedMeaning(s, contractId, events, filter, k);
    }
  }

  /** Both errors occur. From every initial state, scheduling any operation and draining it with
      cancel_all leaves it reported though it is off the queue. */
  lemma DrainedIsStillReported(h: Host, s: State, env: Env, op: Operation) returns (t: seq<Rec>)
    requires Initial(s) && Schedulable(h, s, env, op)
    ensures ValidRun(h, t) && |t| == 2 && t[0].pre == s && Schedules(t[0], op)
    ensures t[1].ok && t[1].call == CancelAll(s.admins, [op])
    ensures h.Key(op) !in StateAt(t, 2).queue
    ensures AlwaysReported(StateAt(t, 2).log, h.Key(op))
  {
    var r0 := AdminsSchedule(h, s, env, op);
    var r1 := AdminsDrain(h, r0.post, env, op);
    RunOfTwo(h, r0, r1);
    t := [r0, r1];
    DrainedStanding(r1.post, h.Key(op));
    StandingDecidesReport(r1.post, h.Key(op));
  }

  lemma DrainedStanding(s: State, k: Hash)
    requires |s.log| == 2 && s.log[0].OpScheduled? && s.log[0].hash == k && s.log[1].OpsCancelled?
    ensures StandingOf(s, k).announced.Some? && !StandingOf(s, k).finished
  {
    assert s.log == [] + [s.log[0]] + [s.log[1]];
    Append([], s.log[0]);
    Append([] + [s.log[0]], s.log[1]);
  }

  lemma RescheduledStanding(s: State, k: Hash)
    requires |s.log| == 3 && s.log[1].OpCancelled? && s.log[1].hash == k && s.log[2].OpScheduled?
    ensures StandingOf(s, k).finished
  {
    assert s.log == s.log[..1] + [s.log[1]] + [s.log[2]];
    Append(s.log[..1], s.log[1]);
    Append(s.log[..1] + [s.log[1]], s.log[2]);
  }

  lemma AdminsDrain(h: Host, s: State, env: Env, op: Operation) returns (r: Rec)
    requires AdminsOk(s.admins, s.threshold) && !s.paused && SlotMatches(h, s.queue, op)
    requires forall a | a in s.admins :: a in env.auth
    ensures Legit(h, r) && r.ok && r.pre == s && r.env == env && r.call == CancelAll(s.admins, [op])
    ensures h.Key(op) !in r.post.queue && r.post.log == s.log + [OpsCancelled(s.admins[0], 1)]
  {
    r := Invocation(h, s, CancelAll(s.admins, [op]), env);
    assert AuthOk(s.admins, s.admins, env.auth, s.threshold);
    assert op in [op];
    assert Hits(h, s.queue, [op]) == {h.Key(op)};
  }

  /** And scheduling, cancelling and scheduling it again leaves it unreported though it is queued. */
  lemma RescheduledIsNotReported(h: Host, s: State, env: Env, op: Operation) returns (t: seq<Rec>)
    requires Initial(s) && Schedulable(h, s, env, op)
    ensures ValidRun(h, t) && |t| == 3 && t[0].pre == s && Schedules(t[0], op) && Schedules(t[2], op)
    ensures t[1].ok && t[1].call == Cancel(s.admins, op)
    ensures SlotMatches(h, StateAt(t, 3).queue, op)
    ensures NeverReported(StateAt(t, 3).log, h.Key(op))
  {
    var r0 := AdminsSchedule(h, s, env, op);
    var r1 := AdminsCancel(h, r0.post, env, op);
    var r2 := AdminsSchedule(h, r1.post, env, op);
    RunOfThree(h, r0, r1, r2);
    t := [r0, r1, r2];
    RescheduledStanding(r2.post, h.Key(op));
    StandingDecidesReport(r2.post, h.Key(op));
  }

  lemma AdminsCancel(h: Host, s: State, env: Env, op: Operation) returns (r: Rec)
    requires AdminsOk(s.admins, s.threshold) && !s.paused && SlotMatches(h, s.queue, op)
    requires forall a | a in s.admins :: a in env.auth
    ensures Legit(h, r) && r.ok && r.pre == s && r.env == env && r.call == Cancel(s.admins, op)
    ensures r.post == Consume(s, {h.Key(op)}).Emit(OpCancelled(h.Key(op), s.admins[0]))
  {
    r := Invocation(h, s, Cancel(s.admins, op), env);
    assert AuthOk(s.admins, s.admins, env.auth, s.threshold);
  }

  /** No cancel_all of the run removed anything. */
  ghost predicate NoDrain(h: Host, t: seq<Rec>, n: nat)
    requires n <= |t|
  {
    forall i | 0 <= i < n && t[i].ok && t[i].call.CancelAll? :: Hits(h, t[i].pre.queue, t[i].call.operations) == {}
  }

  /** No hash was scheduled again after an execute or cancel event named it. */
  ghost predicate NoReschedule(h: Host, t: seq<Rec>, n: nat)
    requires n <= |t|
  {
    forall i, j, k | 0 <= i < j < n && FinishesKey(h, t[i], k) :: !SchedulesKey(h, t[j], k)
  }

  lemma {:induction false} FinishedThenQueuedMeansRescheduled(bs: seq<KeyBeat>, i: nat, n: nat) returns (j: nat)
    requires KeyRun(bs) && i < n <= |bs| && bs[i].finishes && StandingAt(bs, n).slot.Some?
    ensures i < j < n && bs[j].schedules
  {
    var b := bs[n - 1];
    assert KeyBeatOk(b) && StandingAt(bs, n) == b.post && StandingAt(bs, n - 1) == b.pre;
    if b.schedules {
      j := n - 1;
    } else {
      j := FinishedThenQueuedMeansRescheduled(bs, i, n - 1);
    }
  }

  lemma QueuedIsUnfinished(h: Host, t: seq<Rec>, n: nat, k: Hash)
    requires ValidRun(h, t) && 0 < |t| && n <= |t| && NoReschedule(h, t, n) && k in StateAt(t, n).queue
    ensures forall i | 0 <= i < n :: !FinishesKey(h, t[i], k)
  {
    RunIsKeyRun(h, t, k);
    var bs := KeyBeats(h, t, k);
    assert StandingAt(bs, n) == StandingOf(StateAt(t, n), k);
    forall i | 0 <= i < n ensures !FinishesKey(h, t[i], k) {
      if FinishesKey(h, t[i], k) {
        var j := FinishedThenQueuedMeansRescheduled(bs, i, n);
      }
    }
  }

  /** The documented use: without batch drains the report holds only queued operations; without
      rescheduling it holds all of them; with neither it is the on-chain queue, times included. */
  lemma ReportIsTheQueue(h: Host, t: seq<Rec>, n: nat, contractId: string, events: seq<ChainEvent>,
                         filter: Option<string>)
    requires ValidRun(h, t) && 0 < |t| && n <= |t|
    requires Published(StateAt(t, n).log, contractId, events) && (filter.None? || filter.value == contractId)
    ensures var report, queue := Reported(events, filter), StateAt(t, n).queue;
            && (NoDrain(h, t, n) ==> report.Keys <= queue.Keys)
            && (NoReschedule(h, t, n) ==> queue.Keys <= report.Keys)
            && (forall k | k in report && k in queue :: report[k].executeAt == Some(queue[k].executeAt))
  {
    var report, queue := Reported(events, filter), StateAt(t, n).queue;
    forall k | k in report && NoDrain(h, t, n) ensures k in queue {
      ReportErrors(h, t, n, contractId, events, filter, k);
      assert forall i | 0 <= i < n :: !DrainsKey(h, t[i], k);
    }
    forall k | k in queue && NoReschedule(h, t, n) ensures k in report {
      ReportErrors(h, t, n, contractId, events, filter, k);
      QueuedIsUnfinished(h, t, n, k);
    }
    forall k | k in report && k in queue ensures report[k].executeAt == Some(queue[k].executeAt) {
      ReportErrors(h, t, n, contractId, events, filter, k);
    }
  }
}
