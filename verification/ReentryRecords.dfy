/** The records over transactions that nest any entry point: what keeps them, and when a key is stored
    once. */
module ReentryRecords {
  import opened Types
  import opened Entry
  import opened Runs
  import opened Ledger
  import opened Reentry
  import opened ReentryLedger

  // ---- One key through a chain ------------------------------------------------------------------------------

  /** One key's view of a move. */
  ghost predicate KeyEffect(v: Move, k: PayKey) {
    && (Starts(v, k) ==> k !in v.pre.payments && k in v.post.payments)
    && (Completes(v, k) ==> k in v.post.payments && RecordOk(k, v.post.payments[k]))
    && (!Starts(v, k) && !Completes(v, k) ==>
          && (k in v.post.payments <==> k in v.pre.payments && !PrunesKey(v, k))
          && (k in v.post.payments ==> v.post.payments[k] == v.pre.payments[k]))
  }

  ghost predicate KeyEffectAt(vs: seq<Move>, i: int, k: PayKey) { 0 <= i < |vs| ==> KeyEffect(vs[i], k) }

  /** Move i prunes k. */
  predicate PrunesAt(vs: seq<Move>, i: int, k: PayKey) { 0 <= i < |vs| && PrunesKey(vs[i], k) }

  lemma MoveKeyEffect(v: Move, k: PayKey)
    requires BooksEffect(v)
    ensures KeyEffect(v, k)
  {}

  /** A chain seen only through what it does to one key. */
  ghost predicate KeyChain(vs: seq<Move>, k: PayKey) {
    && Bracketed(vs, OnKey(k))
    && (forall i :: KeyEffectAt(vs, i, k))
    && (forall i, j | 0 <= i < j < |vs| && j == i + 1 :: vs[j].pre == vs[i].post)
  }

  lemma RunAllIsKeyChain(h: Host, s: State, steps: seq<Inner>, k: PayKey)
    ensures KeyChain(RunAll(h, s, steps).1, k)
  {
    var vs := RunAll(h, s, steps).1;
    RunAllIsChain(h, s, steps);
    RunAllBracketed(h, s, steps, OnKey(k));
    forall i ensures KeyEffectAt(vs, i, k) {
      if 0 <= i < |vs| {
        MoveBooks(h, vs[i]);
        MoveKeyEffect(vs[i], k);
      }
    }
  }

  /** Nothing reserves k in the moves from i to j, so a commit of k among them closes a reservation made
      before them. */
  predicate NoReservation(vs: seq<Move>, i: nat, j: nat, k: PayKey)
    requires j <= |vs|
  {
    forall c | i <= c < j :: vs[c].deed != Reserving(k)
  }

  ghost predicate Rewritten(vs: seq<Move>, i: nat, j: nat, k: PayKey)
    requires j <= |vs|
  {
    exists c :: i <= c < j && Commits(vs[c], k)
  }

  lemma StoredStep(v: Move, k: PayKey)
    requires KeyEffect(v, k) && k in v.pre.payments && !PrunesKey(v, k)
    ensures k in v.post.payments && !Starts(v, k)
    ensures Change(v, OnKey(k)) == if Commits(v, k) then -1 else 0
    ensures !Commits(v, k) ==> v.post.payments[k] == v.pre.payments[k]
  {}

  lemma {:induction false} StoredStays(vs: seq<Move>, i: nat, j: nat, k: PayKey)
    requires KeyChain(vs, k) && 0 < |vs| && i <= j <= |vs|
    requires k in StateOf(vs, i).payments && forall p | i <= p < j :: !PrunesAt(vs, p, k)
    ensures k in StateOf(vs, j).payments
    ensures Outstanding(vs, j, OnKey(k)) <= Outstanding(vs, i, OnKey(k))
    ensures Outstanding(vs, j, OnKey(k)) == Outstanding(vs, i, OnKey(k)) ==>
              StateOf(vs, j).payments[k] == StateOf(vs, i).payments[k]
    decreases j - i
  {
    if i == j {
    } else {
      StoredStays(vs, i, j - 1, k);
      StoredMove(vs, j - 1, k);
    }
  }

  lemma StoredMove(vs: seq<Move>, i: nat, k: PayKey)
    requires KeyChain(vs, k) && i < |vs| && k in StateOf(vs, i).payments && !PrunesAt(vs, i, k)
    ensures k in StateOf(vs, i + 1).payments && !Starts(vs[i], k)
    ensures Outstanding(vs, i + 1, OnKey(k)) == Outstanding(vs, i, OnKey(k)) - if Commits(vs[i], k) then 1 else 0
    ensures !Commits(vs[i], k) ==> StateOf(vs, i + 1).payments[k] == StateOf(vs, i).payments[k]
  {
    assert StateOf(vs, i) == vs[i].pre && StateOf(vs, i + 1) == vs[i].post && KeyEffectAt(vs, i, k);
    StoredStep(vs[i], k);
  }

  lemma NothingReserves(vs: seq<Move>, i: nat, j: nat, k: PayKey)
    requires KeyChain(vs, k) && 0 < |vs| && i <= j <= |vs|
    requires k in StateOf(vs, i).payments && forall p | i <= p < j :: !PrunesAt(vs, p, k)
    ensures NoReservation(vs, i, j, k)
  {
    forall c | i <= c < j ensures vs[c].deed != Reserving(k) {
      StoredStays(vs, i, c, k);
      StoredMove(vs, c, k);
    }
  }

  lemma {:induction false} FewerOutstandingMeansCommit(vs: seq<Move>, i: nat, j: nat, k: PayKey)
    requires i <= j <= |vs| && Outstanding(vs, j, OnKey(k)) < Outstanding(vs, i, OnKey(k))
    ensures Rewritten(vs, i, j, k)
    decreases j - i
  {
    if Commits(vs[j - 1], k) {
    } else {
      var before: nat := j - 1;
      FewerOutstandingMeansCommit(vs, i, before, k);
      var c :| i <= c < before && Commits(vs[c], k);
      assert i <= c < j && Commits(vs[c], k);
    }
  }

  /** A stored record, across the moves of any transactions from any state, until a prune of it: nothing
      reserves its key, so only an enclosing store that had reserved it before can still change it, by
      committing; with no such reservation outstanding it does not change. */
  lemma ReentrantRecordStays(h: Host, s: State, steps: seq<Inner>, i: nat, j: nat, k: PayKey)
    requires 0 < |RunAll(h, s, steps).1| && i <= j <= |RunAll(h, s, steps).1|
    requires var vs := RunAll(h, s, steps).1;
             k in StateOf(vs, i).payments && forall p | i <= p < j :: !PrunesAt(vs, p, k)
    ensures var vs := RunAll(h, s, steps).1;
            && k in StateOf(vs, j).payments && NoReservation(vs, i, j, k)
            && (StateOf(vs, j).payments[k] != StateOf(vs, i).payments[k] ==> Rewritten(vs, i, j, k))
            && (Outstanding(vs, i, OnKey(k)) == 0 ==> StateOf(vs, j).payments[k] == StateOf(vs, i).payments[k])
  {
    var vs := RunAll(h, s, steps).1;
    RunAllIsKeyChain(h, s, steps, k);
    StoredStays(vs, i, j, k);
    NothingReserves(vs, i, j, k);
    assert Outstanding(vs, j, OnKey(k)) >= 0;
    if Outstanding(vs, j, OnKey(k)) < Outstanding(vs, i, OnKey(k)) {
      FewerOutstandingMeansCommit(vs, i, j, k);
    }
  }

  /** Two completed stores of one key have a prune of it between them, unless the first was nested in the
      second: then the second is the commit of a store that held the key reserved all along. */
  lemma ReentrantKeyIsStoredOnce(h: Host, s: State, steps: seq<Inner>, i: nat, j: nat, k: PayKey)
    requires i < j < |RunAll(h, s, steps).1|
    requires Completes(RunAll(h, s, steps).1[i], k) && Completes(RunAll(h, s, steps).1[j], k)
    ensures var vs := RunAll(h, s, steps).1;
            || (exists p :: i < p < j && PrunesAt(vs, p, k))
            || (Commits(vs[j], k) && Outstanding(vs, i + 1, OnKey(k)) > 0 && NoReservation(vs, i + 1, j, k))
  {
    var vs := RunAll(h, s, steps).1;
    RunAllIsKeyChain(h, s, steps, k);
    if forall p | i < p < j :: !PrunesAt(vs, p, k) {
      SecondIsEnclosing(vs, i, j, k);
    }
  }

  lemma SecondIsEnclosing(vs: seq<Move>, i: nat, j: nat, k: PayKey)
    requires KeyChain(vs, k) && i < j < |vs|
    requires Completes(vs[i], k) && Completes(vs[j], k) && forall p | i < p < j :: !PrunesAt(vs, p, k)
    ensures Commits(vs[j], k) && Outstanding(vs, i + 1, OnKey(k)) > 0 && NoReservation(vs, i + 1, j, k)
  {
    CompletedIsStored(vs, i, k);
    StoredStays(vs, i + 1, j, k);
    NothingReserves(vs, i + 1, j, k);
    StoredCompletion(vs, j, k);
  }

  lemma CompletedIsStored(vs: seq<Move>, i: nat, k: PayKey)
    requires KeyChain(vs, k) && i < |vs| && Completes(vs[i], k)
    ensures StateOf(vs, i + 1) == vs[i].post && k in vs[i].post.payments
  {
    assert KeyEffectAt(vs, i, k);
  }

  lemma StaysOnceClosed(vs: seq<Move>, i: nat, j: nat, k: PayKey)
    requires KeyChain(vs, k) && i < j <= |vs| && Completes(vs[i], k) && Outstanding(vs, i + 1, OnKey(k)) == 0
    requires forall p | i < p < j :: !PrunesAt(vs, p, k)
    ensures k in vs[i].post.payments && k in StateOf(vs, j).payments
    ensures StateOf(vs, j).payments[k] == vs[i].post.payments[k]
  {
    CompletedIsStored(vs, i, k);
    StoredStays(vs, i + 1, j, k);
    assert Outstanding(vs, j, OnKey(k)) >= 0;
  }

  lemma StoredCompletion(vs: seq<Move>, j: nat, k: PayKey)
    requires KeyChain(vs, k) && j < |vs| && k in StateOf(vs, j).payments && Completes(vs[j], k)
    ensures Commits(vs[j], k) && Outstanding(vs, j, OnKey(k)) > 0
  {
    assert StateOf(vs, j) == vs[j].pre && KeyEffectAt(vs, j, k);
    assert Outstanding(vs, j + 1, OnKey(k)) >= 0;
  }

  /** Where no reservation of k is outstanding, the record of k is the one the last completed store of it
      wrote, and it is the split of its own amount. */
  lemma {:induction false} StoredWasCompleted(vs: seq<Move>, n: nat, k: PayKey) returns (i: nat)
    requires KeyChain(vs, k) && 0 < |vs| && n <= |vs| && vs[0].pre.payments == map[]
    requires k in StateOf(vs, n).payments && Outstanding(vs, n, OnKey(k)) == 0
    ensures i < n && Completes(vs[i], k) && forall p | i < p < n :: !Completes(vs[p], k) && !PrunesAt(vs, p, k)
    ensures k in vs[i].post.payments && vs[i].post.payments[k] == StateOf(vs, n).payments[k]
    ensures RecordOk(k, StateOf(vs, n).payments[k])
  {
    assert n > 0;
    var v := vs[n - 1];
    assert StateOf(vs, n) == v.post && StateOf(vs, n - 1) == v.pre && KeyEffectAt(vs, n - 1, k);
    assert Outstanding(vs, n - 1, OnKey(k)) >= 0;
    if Completes(v, k) {
      i := n - 1;
    } else {
      UntouchedStep(v, k);
      i := StoredWasCompleted(vs, n - 1, k);
    }
  }

  lemma UntouchedStep(v: Move, k: PayKey)
    requires KeyEffect(v, k) && k in v.post.payments && !Completes(v, k) && Change(v, OnKey(k)) <= 0
    ensures Change(v, OnKey(k)) == 0 && k in v.pre.payments && !PrunesKey(v, k)
    ensures v.post.payments[k] == v.pre.payments[k]
  {}

  /** After any transactions every record is the one the last completed store of its key wrote, and is the
      split of its own amount: no placeholder is left behind. */
  lemma ReentrantRecordsAreTrue(h: Host, s: State, steps: seq<Inner>, k: PayKey) returns (i: nat)
    requires Initial(s) && k in RunAll(h, s, steps).0.payments
    ensures var (s', vs) := RunAll(h, s, steps);
            && i < |vs| && Completes(vs[i], k)
            && (forall p | i < p < |vs| :: !Completes(vs[p], k) && !PrunesAt(vs, p, k))
            && k in vs[i].post.payments && vs[i].post.payments[k] == s'.payments[k]
            && RecordOk(k, s'.payments[k])
  {
    RunAllIsChain(h, s, steps);
    RunAllIsKeyChain(h, s, steps, k);
    i := StoredWasCompleted(RunAll(h, s, steps).1, |RunAll(h, s, steps).1|, k);
  }

  // ---- Safe transactions ---------------------------------------------------------------------------------

  /** No committed move prunes a key that is reserved at that point. */
  ghost predicate Safe(vs: seq<Move>) { forall i, m :: !BreaksAt(vs, i, m) }

  lemma SafeMove(open: set<PayKey>, v: Move)
    requires BooksEffect(v) && open <= v.pre.payments.Keys && forall m :: !Breaks(open, v, m)
    ensures OpenStep(open, v) <= v.post.payments.Keys
    ensures forall k | Starts(v, k) :: k !in open
  {
    if v.deed.Invoked? && (v.deed.call.PrunePayment? || v.deed.call.PrunePayments?) {
      assert !Breaks(open, v, v.deed.call.merchant);
      forall k | k in open ensures k !in Removed(v) {
        assert k !in Removed(v) * open;
      }
    }
  }

  lemma {:induction false} ReservedStaysStored(h: Host, s: State, vs: seq<Move>, s': State, n: nat)
    requires ChainOk(h, s, vs, s') && Safe(vs) && 0 < |vs| && n <= |vs|
    ensures OpenAt({}, vs, n) <= StateOf(vs, n).payments.Keys
  {
    if n == 0 {
    } else {
      ReservedStaysStored(h, s, vs, s', n - 1);
      SafeMoveAt(h, s, vs, s', n - 1);
    }
  }

  lemma SafeMoveAt(h: Host, s: State, vs: seq<Move>, s': State, i: nat)
    requires ChainOk(h, s, vs, s') && Safe(vs) && i < |vs|
    requires OpenAt({}, vs, i) <= StateOf(vs, i).payments.Keys
    ensures OpenAt({}, vs, i + 1) <= StateOf(vs, i + 1).payments.Keys
    ensures forall k | Starts(vs[i], k) :: k !in OpenAt({}, vs, i)
  {
    assert StateOf(vs, i) == vs[i].pre && StateOf(vs, i + 1) == vs[i].post;
    forall m ensures !Breaks(OpenAt({}, vs, i), vs[i], m) {
      assert !BreaksAt(vs, i, m);
    }
    MoveBooks(h, vs[i]);
    SafeMove(OpenAt({}, vs, i), vs[i]);
  }

  /** Without such a prune no store can start on a reserved key: the placeholder refuses it. */
  lemma SafeIsFresh(h: Host, s: State, vs: seq<Move>, s': State)
    requires ChainOk(h, s, vs, s') && Safe(vs)
    ensures Fresh({}, vs)
  {
    forall i, k | 0 <= i < |vs| && Starts(vs[i], k) ensures k !in OpenAt({}, vs, i) {
      ReservedStaysStored(h, s, vs, s', i);
      SafeMoveAt(h, s, vs, s', i);
    }
  }

  /** Whatever entry points nest in whatever transactions, from an initial state: if no committed nested
      prune takes a reserved key, the counters are exact, every record is the split of its own amount,
      and no store ever starts on a reserved key. */
  lemma ReentrantLedgerIsExact(h: Host, s: State, steps: seq<Inner>)
    requires Initial(s) && Safe(RunAll(h, s, steps).1)
    ensures var (s', vs) := RunAll(h, s, steps);
            && Fresh({}, vs) && CountsExact(s')
            && forall k | k in s'.payments :: RecordOk(k, s'.payments[k])
  {
    var (s', vs) := RunAll(h, s, steps);
    RunAllIsChain(h, s, steps);
    SafeIsFresh(h, s, vs, s');
    forall m ensures CountOf(s'.counts, m) == |RecordsOf(s'.payments, m)| {
      FreshCountIsExactIff(h, s, steps, m);
    }
    forall k | k in s'.payments ensures RecordOk(k, s'.payments[k]) {
      var i := ReentrantRecordsAreTrue(h, s, steps, k);
    }
  }

  // ---- Pruning at top level only ---------------------------------------------------------------------------

  /** Nothing in the tree prunes. */
  ghost predicate PruneFree(c: Inner) {
    match c
    case Plain(call, _) => !call.PrunePayment? && !call.PrunePayments?
    case Storing(_, _, _, _, _, atMin, atBypass, atFee) =>
      && (forall d | d in atMin :: PruneFree(d))
      && (forall d | d in atBypass :: PruneFree(d))
      && (forall d | d in atFee :: PruneFree(d))
  }

  /** Only top-level invocations prune. */
  ghost predicate PrunesOnTop(steps: seq<Inner>) { forall c | c in steps :: c.Plain? || PruneFree(c) }

  predicate IsPrune(v: Move) { v.deed.Invoked? && (v.deed.call.PrunePayment? || v.deed.call.PrunePayments?) }

  predicate NoPrune(vs: seq<Move>) { forall i | 0 <= i < |vs| :: !IsPrune(vs[i]) }

  lemma {:induction false} PruneFreeRun(h: Host, s: State, c: Inner)
    requires PruneFree(c) && Run(h, s, c).Ok?
    ensures NoPrune(Run(h, s, c).value.1)
    decreases c, 2
  {
    if c.Storing? {
      var s0, l0, s1, s2, rule, l2 := StoringUnfolds(h, s, c);
      PruneFreeDuring(h, s, c.view.minPayment.ParamCallFailed?, c.atMin);
      PruneFreeRule(h, s1, c);
    }
  }

  lemma {:induction false} PruneFreeRule(h: Host, s: State, c: Inner)
    requires c.Storing? && PruneFree(c) && FindRule(h, s, c).Ok?
    ensures NoPrune(FindRule(h, s, c).value.2)
    decreases c, 1
  {
    if c.merchant !in s.rules && s.defaultRule.None? {
      var s1 := During(h, s, c.view.bypass.ParamCallFailed?, c.atBypass).0;
      PruneFreeDuring(h, s, c.view.bypass.ParamCallFailed?, c.atBypass);
      if c.view.bypass != ParamValue(1) {
        PruneFreeDuring(h, s1, c.view.fee.FeeCallFailed?, c.atFee);
      }
    }
  }

  lemma {:induction false} PruneFreeDuring(h: Host, s: State, failed: bool, cs: seq<Inner>)
    requires forall d | d in cs :: PruneFree(d)
    ensures NoPrune(During(h, s, failed, cs).1)
    decreases cs, 1
  {
    if !failed {
      PruneFreeRunAll(h, s, cs);
    }
  }

  lemma {:induction false} PruneFreeRunAll(h: Host, s: State, cs: seq<Inner>)
    requires forall d | d in cs :: PruneFree(d)
    ensures NoPrune(RunAll(h, s, cs).1)
    decreases cs, 0
  {
    if cs == [] {
    } else {
      var first := Run(h, s, cs[0]);
      if first.Ok? {
        PruneFreeRun(h, s, cs[0]);
        PruneFreeRunAll(h, first.value.0, cs[1..]);
      } else {
        PruneFreeRunAll(h, s, cs[1..]);
      }
    }
  }

  /** Every prune comes when no reservation is outstanding. */
  ghost predicate PrunesAtRest(vs: seq<Move>, k: PayKey) {
    forall i | 0 <= i < |vs| && IsPrune(vs[i]) :: Outstanding(vs, i, OnKey(k)) == 0
  }

  lemma AtRestJoin(us: seq<Move>, vs: seq<Move>, k: PayKey)
    requires PrunesAtRest(us, k) && Bracketed(us, OnKey(k)) && PrunesAtRest(vs, k)
    ensures PrunesAtRest(us + vs, k)
  {
    var ws := us + vs;
    forall i | 0 <= i < |ws| && IsPrune(ws[i]) ensures Outstanding(ws, i, OnKey(k)) == 0 {
      if i < |us| {
        OutstandingPrefix(us, vs, i, OnKey(k));
      } else {
        OutstandingSuffix(us, vs, i - |us|, OnKey(k));
      }
    }
  }

  lemma {:induction false} OnTopMeansAtRest(h: Host, s: State, steps: seq<Inner>, k: PayKey)
    requires PrunesOnTop(steps)
    ensures PrunesAtRest(RunAll(h, s, steps).1, k)
    decreases steps
  {
    if steps == [] {
    } else {
      assert forall c | c in steps[1..] :: c in steps;
      var first := Run(h, s, steps[0]);
      if first.Ok? {
        OneOnTop(h, s, steps[0], k);
        RunBracketed(h, s, steps[0], OnKey(k));
        OnTopMeansAtRest(h, first.value.0, steps[1..], k);
        AtRestJoin(first.value.1, RunAll(h, first.value.0, steps[1..]).1, k);
      } else {
        OnTopMeansAtRest(h, s, steps[1..], k);
      }
    }
  }

  lemma OneOnTop(h: Host, s: State, c: Inner, k: PayKey)
    requires (c.Plain? || PruneFree(c)) && Run(h, s, c).Ok?
    ensures PrunesAtRest(Run(h, s, c).value.1, k)
  {
    if PruneFree(c) {
      PruneFreeRun(h, s, c);
    }
  }

  /** If only top-level invocations prune, no committed prune takes a reserved key. */
  lemma TopLevelIsSafe(h: Host, s: State, steps: seq<Inner>)
    requires PrunesOnTop(steps)
    ensures Safe(RunAll(h, s, steps).1)
  {
    var vs := RunAll(h, s, steps).1;
    forall i, m ensures !BreaksAt(vs, i, m) {
      if BreaksAt(vs, i, m) {
        assert IsPrune(vs[i]);
        var k :| k in Removed(vs[i]) * OpenAt({}, vs, i);
        RunAllBracketed(h, s, steps, OnKey(k));
        OpenIsOutstanding(vs, i, k);
        OnTopMeansAtRest(h, s, steps, k);
      }
    }
  }

  /** Right after a store of k completes, no reservation of k is outstanding. */
  lemma CompletionCloses(h: Host, s: State, steps: seq<Inner>, i: nat, k: PayKey)
    requires PrunesOnTop(steps) && i < |RunAll(h, s, steps).1| && Completes(RunAll(h, s, steps).1[i], k)
    ensures Outstanding(RunAll(h, s, steps).1, i + 1, OnKey(k)) == 0
  {
    var (s', vs) := RunAll(h, s, steps);
    TopLevelIsSafe(h, s, steps);
    RunAllIsChain(h, s, steps);
    SafeIsFresh(h, s, vs, s');
    RunAllBracketed(h, s, steps, OnKey(k));
    FreshMeansOneReservation(vs, i, k);
    FreshMeansOneReservation(vs, i + 1, k);
    assert StoresAtOnce(vs[i], k) ==> Starts(vs[i], k);
  }

  /** If only top-level invocations prune, each key is stored once: between two completed stores of it,
      nested or not, lies a prune of it. */
  lemma TopLevelKeyIsStoredOnce(h: Host, s: State, steps: seq<Inner>, i: nat, j: nat, k: PayKey) returns (p: nat)
    requires PrunesOnTop(steps) && i < j < |RunAll(h, s, steps).1|
    requires Completes(RunAll(h, s, steps).1[i], k) && Completes(RunAll(h, s, steps).1[j], k)
    ensures i < p < j && PrunesAt(RunAll(h, s, steps).1, p, k)
  {
    CompletionCloses(h, s, steps, i, k);
    ReentrantKeyIsStoredOnce(h, s, steps, i, j, k);
    p :| i < p < j && PrunesAt(RunAll(h, s, steps).1, p, k);
  }

  /** And a record, once its store completes, stays as it is until a prune of it. */
  lemma TopLevelRecordStays(h: Host, s: State, steps: seq<Inner>, i: nat, j: nat, k: PayKey)
    requires PrunesOnTop(steps) && i < j <= |RunAll(h, s, steps).1| && Completes(RunAll(h, s, steps).1[i], k)
    requires forall p | i < p < j :: !PrunesAt(RunAll(h, s, steps).1, p, k)
    ensures var vs := RunAll(h, s, steps).1;
            && k in vs[i].post.payments && k in StateOf(vs, j).payments
            && StateOf(vs, j).payments[k] == vs[i].post.payments[k]
  {
    CompletionCloses(h, s, steps, i, k);
    RunAllIsKeyChain(h, s, steps, k);
    StaysOnceClosed(RunAll(h, s, steps).1, i, j, k);
  }
}
