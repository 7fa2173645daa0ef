/** The other guarantees over transactions that nest any entry point. */
module ReentrySafety {
  import opened Types
  import opened Entry
  import opened Runs
  import opened Timelock
  import opened Recovery
  import opened SettlementRecovery
  import opened Authority
  import opened Registry
  import opened World
  import opened Reentry

  // ---- Invariants -----------------------------------------------------------------------------------------

  /** Governance answers the move as the modelled contract, or an outage, would. */
  predicate AnsweredGovLike(v: Move) {
    match v.deed
    case Invoked(_) => GovLike(v.env.gov(v.pre.governance))
    case Caching(view) => GovLike(view)
    case Committing(_, _, _, view) => view.minPayment.ParamValue? ==> view.minPayment.value >= 0
    case Reserving(_) => true
  }

  lemma MoveKeepsAuthority(h: Host, v: Move)
    requires MoveOk(h, v) && AuthorityInv(v.pre)
    ensures AuthorityInv(v.post)
  {
    if v.deed.Invoked? {
      StepKeepsAuthority(h, Rec(v.pre, v.deed.call, v.env, v.post, true));
    }
  }

  lemma MoveKeepsRegistry(h: Host, v: Move)
    requires MoveOk(h, v) && RegistryInv(v.pre)
    ensures RegistryInv(v.post)
  {
    if v.deed.Invoked? {
      StepKeepsRegistry(h, Rec(v.pre, v.deed.call, v.env, v.post, true));
    }
  }

  lemma MoveKeepsBounds(h: Host, v: Move)
    requires MoveOk(h, v) && AnsweredGovLike(v) && Bounded(v.pre)
    ensures Bounded(v.post)
  {
    if v.deed.Invoked? {
      StepKeepsBounds(h, Rec(v.pre, v.deed.call, v.env, v.post, true));
    }
  }

  lemma MoveKeepsAmounts(h: Host, v: Move)
    requires MoveOk(h, v) && AnsweredGovLike(v) && AmountsNonnegative(v.pre)
    ensures AmountsNonnegative(v.post)
  {
    if v.deed.Invoked? {
      StepKeepsAmounts(h, Rec(v.pre, v.deed.call, v.env, v.post, true));
    }
  }

  lemma {:induction false} ChainKeepsBounds(h: Host, s: State, vs: seq<Move>, s': State)
    requires ChainOk(h, s, vs, s') && Bounded(s) && AmountsNonnegative(s)
    requires forall i | 0 <= i < |vs| :: AnsweredGovLike(vs[i])
    ensures Bounded(s') && AmountsNonnegative(s')
    decreases |vs|
  {
    if vs == [] {
    } else {
      var n := |vs| - 1;
      assert vs[..n] != [] ==> vs[..n][0] == vs[0] && vs[n].pre == vs[n - 1].post;
      ChainKeepsBounds(h, s, vs[..n], vs[n].pre);
      MoveKeepsBounds(h, vs[n]);
      MoveKeepsAmounts(h, vs[n]);
    }
  }

  lemma {:induction false} ChainKeepsInvariants(h: Host, s: State, vs: seq<Move>, s': State)
    requires ChainOk(h, s, vs, s') && AuthorityInv(s) && RegistryInv(s)
    ensures AuthorityInv(s') && RegistryInv(s')
    decreases |vs|
  {
    if vs == [] {
    } else {
      var n := |vs| - 1;
      assert vs[..n] != [] ==> vs[..n][0] == vs[0] && vs[n].pre == vs[n - 1].post;
      ChainKeepsInvariants(h, s, vs[..n], vs[n].pre);
      MoveKeepsAuthority(h, vs[n]);
      MoveKeepsRegistry(h, vs[n]);
    }
  }

  /** After any transactions, whatever nests in them: the admin set is usable, the registry is
      consistent, and, if governance answered as modelled, every rule in force is within bounds, so that
      every merchant's effective rule resolves within bounds, and every stored amount is nonnegative. */
  lemma ReentrantInvariants(h: Host, s: State, steps: seq<Inner>)
    requires Initial(s)
    ensures var (s', vs) := RunAll(h, s, steps);
            && AuthorityInv(s') && RegistryInv(s')
            && ((forall i | 0 <= i < |vs| :: AnsweredGovLike(vs[i])) ==>
                  && Bounded(s') && AmountsNonnegative(s')
                  && forall env: Env, m | GovLike(env.gov(s'.governance)) ::
                       Resolve(s', env, m).Ok? && RuleInBounds(Resolve(s', env, m).value.1.rule))
  {
    var (s', vs) := RunAll(h, s, steps);
    RunAllIsChain(h, s, steps);
    ChainKeepsInvariants(h, s, vs, s');
    if forall i | 0 <= i < |vs| :: AnsweredGovLike(vs[i]) {
      ChainKeepsBounds(h, s, vs, s');
      forall env: Env, m | GovLike(env.gov(s'.governance))
        ensures Resolve(s', env, m).Ok? && RuleInBounds(Resolve(s', env, m).value.1.rule)
      {
        EffectiveRuleIsBounded(s', env, m);
      }
    }
  }

  // ---- Timelock and recovery ----------------------------------------------------------------------------------

  /** The move as an invocation record; the store's own moves touch neither queue nor recovery, and
      stand as records of no accepted call. */
  function RecOf(v: Move): Rec {
    match v.deed
    case Invoked(call) => Rec(v.pre, call, v.env, v.post, true)
    case _ => Rec(v.pre, GetEffectiveRule(Zero), v.env, v.post, false)
  }

  function Recs(vs: seq<Move>): (t: seq<Rec>)
    ensures |t| == |vs| && forall i | 0 <= i < |vs| :: t[i] == RecOf(vs[i])
  {
    seq(|vs|, i requires 0 <= i < |vs| => RecOf(vs[i]))
  }

  lemma MoveEffects(h: Host, v: Move)
    requires MoveOk(h, v)
    ensures QueueEffect(h, RecOf(v)) && BeatOk(BeatOf(RecOf(v)))
  {
    if v.deed.Invoked? {
      StepQueue(h, RecOf(v));
      StepBeat(h, RecOf(v));
    }
  }

  /** Ledger time never runs backwards along the moves. */
  ghost predicate Timely(vs: seq<Move>) {
    forall i, j | 0 <= i < j < |vs| && j == i + 1 :: vs[i].env.now <= vs[j].env.now
  }

  lemma ChainIsQueueRun(h: Host, s: State, vs: seq<Move>, s': State)
    requires ChainOk(h, s, vs, s') && Timely(vs) && h.Faithful() && s.queue == map[] && s.queueCount == 0
    ensures QueueRun(h, Recs(vs))
  {
    forall i | 0 <= i < |vs| ensures QueueEffect(h, Recs(vs)[i]) {
      MoveEffects(h, vs[i]);
    }
  }

  lemma ChainIsRecoveryRun(h: Host, s: State, vs: seq<Move>, s': State)
    requires ChainOk(h, s, vs, s') && Timely(vs) && s.pending == None
    ensures RecoveryRun(Beats(Recs(vs)))
  {
    forall i | 0 <= i < |vs| ensures BeatOk(Beats(Recs(vs))[i]) {
      MoveEffects(h, vs[i]);
    }
  }

  /** Timelock safety with nesting: an execution anywhere inside any transaction answers a committed
      schedule of the byte-identical operation, its delay elapsed, untouched in between. */
  lemma ReentrantTimelockSafety(h: Host, s: State, steps: seq<Inner>, i: nat, op: Operation) returns (k: nat)
    requires Initial(s) && h.Faithful() && Timely(RunAll(h, s, steps).1)
    requires i < |RunAll(h, s, steps).1| && Executes(RecOf(RunAll(h, s, steps).1[i]), op)
    ensures var t := Recs(RunAll(h, s, steps).1);
            && InForce(h, t, k, i, op) && SignedByQuorum(t[k])
            && MIN_TIMELOCK_DELAY_SECONDS <= t[k].call.executeIn <= MAX_TIMELOCK_DELAY_SECONDS
            && t[k].env.now + t[k].call.executeIn <= t[i].env.now
            && !t[i].pre.paused && (t[i].pre.pending == None || op == Operation.CancelRecovery)
  {
    RunAllIsChain(h, s, steps);
    ChainIsQueueRun(h, s, RunAll(h, s, steps).1, RunAll(h, s, steps).0);
    k := QueueSafety(h, Recs(RunAll(h, s, steps).1), i, op);
  }

  /** Recovery safety with nesting: a recovery completed anywhere inside any transaction installs the
      latest initiation's target, seven days on, uncancelled. */
  lemma ReentrantRecoverySafety(h: Host, s: State, steps: seq<Inner>, i: nat) returns (k: nat)
    requires Initial(s) && Timely(RunAll(h, s, steps).1)
    requires i < |RunAll(h, s, steps).1| && RunAll(h, s, steps).1[i].deed == Invoked(ExecuteRecovery)
    ensures var t := Recs(RunAll(h, s, steps).1);
            && k < i && t[k].ok && t[k].call.InitiateRecovery?
            && t[i].post.admins == [t[k].call.newAdmin] && t[i].post.threshold == 1 && t[i].post.pending == None
            && t[k].env.now + RECOVERY_DELAY_SECONDS <= t[i].env.now
            && forall j | k < j < i :: ActOf(t[j]).Other?
  {
    RunAllIsChain(h, s, steps);
    ChainIsRecoveryRun(h, s, RunAll(h, s, steps).1, RunAll(h, s, steps).0);
    k := FinishHasStart(Recs(RunAll(h, s, steps).1), i);
  }
}
