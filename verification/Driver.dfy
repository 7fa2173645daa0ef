/** Driven contract objects produce exactly the runs the theorems speak about. */
module Driver {
  import opened Types
  import opened Entry
  import opened Runs
  import opened Timelock
  import opened Settlement
  import opened GovernanceRuntime
  import G = Governance

  /** Sends the calls in order. The invocations form a valid run that ends in the object's state. */
  method Drive(c: SettlementContract, calls: seq<Call>, envs: seq<Env>)
    returns (outcomes: seq<Guard>, ghost t: seq<Rec>)
    requires Initial(c.Snapshot())
    requires |calls| == |envs| && forall i, j | 0 <= i < j < |envs| && j == i + 1 :: envs[i].now <= envs[j].now
    modifies c
    ensures ValidRun(c.host, t) && |t| == |calls| == |outcomes|
    ensures forall i | 0 <= i < |calls| ::
              t[i].call == calls[i] && t[i].env == envs[i] && t[i].ok == outcomes[i].Pass?
    ensures |t| > 0 ==> t[0].pre == old(c.Snapshot()) && StateAt(t, |t|) == c.Snapshot()
  {
    outcomes, t := [], [];
    for i := 0 to |calls|
      invariant |t| == i == |outcomes|
      invariant ValidRun(c.host, t)
      invariant forall k | 0 <= k < i :: t[k].call == calls[k] && t[k].env == envs[k] && t[k].ok == outcomes[k].Pass?
      invariant if i == 0 then c.Snapshot() == old(c.Snapshot())
                else t[0].pre == old(c.Snapshot()) && t[i - 1].post == c.Snapshot()
    {
      ghost var pre := c.Snapshot();
      var outcome := c.Invoke(calls[i], envs[i]);
      ghost var r := Rec(pre, calls[i], envs[i], c.Snapshot(), outcome.Pass?);
      RunExtends(c.host, t, r);
      outcomes, t := outcomes + [outcome], t + [r];
    }
  }

  /** The same for the governance contract: an object in the state its init leaves, driven through any
      calls, produces a governance run that ends in the object's state. */
  method DriveGovernance(c: GovernanceContract, calls: seq<G.GovCall>, times: seq<u64>, auths: seq<set<Address>>)
    returns (outcomes: seq<Guard>, ghost t: seq<G.GovRec>)
    requires G.GovInv(c.Snapshot()) && c.Snapshot().pending == None
    requires |calls| == |times| == |auths|
    requires forall i, j | 0 <= i < j < |times| && j == i + 1 :: times[i] <= times[j]
    modifies c
    ensures G.GovRun(t) && |t| == |calls| == |outcomes|
    ensures forall i | 0 <= i < |calls| ::
              && t[i].call == calls[i] && t[i].now == times[i] && t[i].auth == auths[i]
              && t[i].ok == outcomes[i].Pass?
    ensures |t| > 0 ==> t[0].pre == old(c.Snapshot()) && t[|t| - 1].post == c.Snapshot()
  {
    outcomes, t := [], [];
    for i := 0 to |calls|
      invariant |t| == i == |outcomes|
      invariant G.GovRun(t)
      invariant forall k | 0 <= k < i ::
                  && t[k].call == calls[k] && t[k].now == times[k] && t[k].auth == auths[k]
                  && t[k].ok == outcomes[k].Pass?
      invariant if i == 0 then c.Snapshot() == old(c.Snapshot())
                else t[0].pre == old(c.Snapshot()) && t[i - 1].post == c.Snapshot()
    {
      ghost var pre := c.Snapshot();
      var outcome := c.Invoke(calls[i], times[i], auths[i]);
      ghost var r := G.GovRec(pre, calls[i], times[i], auths[i], c.Snapshot(), outcome.Pass?);
      GovRunExtends(t, r);
      outcomes, t := outcomes + [outcome], t + [r];
    }
  }

  lemma GovRunExtends(t: seq<G.GovRec>, r: G.GovRec)
    requires G.GovRun(t) && G.GovLegit(r)
    requires if t == [] then G.GovInv(r.pre) && r.pre.pending == None
             else r.pre == t[|t| - 1].post && t[|t| - 1].now <= r.now
    ensures G.GovRun(t + [r])
  {
    var u := t + [r];
    forall i, j | 0 <= i < j < |u| && j == i + 1 ensures u[j].pre == u[i].post && u[i].now <= u[j].now {
      assert j < |t| ==> u[j] == t[j] && u[i] == t[i];
    }
  }
}
