/** Admin sets and multisig authorization, as both contracts check them: two nested scans. */
module Multisig {
  import opened Types

  /** A usable admin configuration. */
  predicate AdminsOk(admins: seq<Address>, threshold: int) {
    1 <= threshold <= |admins| && Zero !in admins && Distinct(admins)
  }

  /** Enough distinct, authenticated admins signed. */
  predicate AuthOk(admins: seq<Address>, signers: seq<Address>, auth: set<Address>, required: int) {
    && |signers| >= required
    && Distinct(signers)
    && (forall a | a in signers :: a in admins && a in auth)
  }

  /** The first fault the admin scan meets from position i on. */
  function AdminFault(admins: seq<Address>, zeroError: Error, i: nat): (g: Guard)
    requires i <= |admins|
    ensures g.Pass? <==> (forall k | i <= k < |admins| :: admins[k] != Zero && admins[k] !in admins[k + 1..])
    ensures g.Fail? ==> g.error == zeroError || g.error == InvalidAdmin
    decreases |admins| - i
  {
    if i == |admins| then Pass
    else if admins[i] == Zero then Fail(zeroError)
    else if admins[i] in admins[i + 1..] then Fail(InvalidAdmin)
    else AdminFault(admins, zeroError, i + 1)
  }

  lemma DistinctBySuffixes<T>(xs: seq<T>)
    ensures Distinct(xs) <==> forall k | 0 <= k < |xs| :: xs[k] !in xs[k + 1..]
  {
    if !Distinct(xs) {
      var i, j :| 0 <= i < j < |xs| && xs[i] == xs[j];
      assert xs[i + 1..][j - i - 1] == xs[j];
    }
  }

  /** validate_admins_and_threshold. */
  function CheckAdmins(admins: seq<Address>, threshold: u32, zeroError: Error): (g: Guard)
    ensures g.Pass? <==> AdminsOk(admins, threshold)
    ensures g.Fail? ==> g.error == InvalidThreshold || g.error == zeroError || g.error == InvalidAdmin
  {
    DistinctBySuffixes(admins);
    if threshold == 0 || threshold > |admins| then Fail(InvalidThreshold)
    else AdminFault(admins, zeroError, 0)
  }

  /** The first fault the signer scan meets from position i on. */
  function AuthFault(admins: seq<Address>, signers: seq<Address>, auth: set<Address>, i: nat): (g: Guard)
    requires i <= |signers|
    ensures g.Pass? <==>
            forall k | i <= k < |signers| ::
              signers[k] in admins && signers[k] !in signers[k + 1..] && signers[k] in auth
    ensures g.Fail? ==> g.error == Unauthorized || g.error == AuthMissing
    decreases |signers| - i
  {
    if i == |signers| then Pass
    else if signers[i] !in admins || signers[i] in signers[i + 1..] then Fail(Unauthorized)
    else if signers[i] !in auth then Fail(AuthMissing)
    else AuthFault(admins, signers, auth, i + 1)
  }

  /** verify_admin_auth. */
  function CheckAuth(admins: seq<Address>, signers: seq<Address>, auth: set<Address>, required: int): (g: Guard)
    ensures g.Pass? <==> AuthOk(admins, signers, auth, required)
    ensures g.Fail? ==> g.error == Unauthorized || g.error == AuthMissing
  {
    DistinctBySuffixes(signers);
    if |signers| < required then Fail(Unauthorized)
    else AuthFault(admins, signers, auth, 0)
  }

  /** The inner scan of both validations: does position i recur later? */
  method Recurs(xs: seq<Address>, i: nat) returns (found: bool)
    requires i < |xs|
    ensures found <==> xs[i] in xs[i + 1..]
  {
    var j := i + 1;
    while j < |xs|
      invariant i < j <= |xs|
      invariant xs[i] !in xs[i + 1..j]
    {
      if xs[i] == xs[j] {
        assert xs[i + 1..][j - i - 1] == xs[i];
        return true;
      }
      j := j + 1;
    }
    assert xs[i + 1..j] == xs[i + 1..];
    return false;
  }

  method Contains(xs: seq<Address>, a: Address) returns (found: bool)
    ensures found <==> a in xs
  {
    for j := 0 to |xs|
      invariant a !in xs[..j]
    {
      if xs[j] == a {
        return true;
      }
    }
    return false;
  }

  method ValidateAdmins(admins: seq<Address>, threshold: u32, zeroError: Error) returns (g: Guard)
    ensures g == CheckAdmins(admins, threshold, zeroError)
  {
    if threshold == 0 || threshold > |admins| {
      return Fail(InvalidThreshold);
    }
    for i := 0 to |admins|
      invariant AdminFault(admins, zeroError, 0) == AdminFault(admins, zeroError, i)
    {
      if admins[i] == Zero {
        return Fail(zeroError);
      }
      var duplicate := Recurs(admins, i);
      if duplicate {
        return Fail(InvalidAdmin);
      }
    }
    return Pass;
  }

  method VerifyAdminAuth(admins: seq<Address>, signers: seq<Address>, auth: set<Address>, required: int)
    returns (g: Guard)
    ensures g == CheckAuth(admins, signers, auth, required)
  {
    if |signers| < required {
      return Fail(Unauthorized);
    }
    for i := 0 to |signers|
      invariant AuthFault(admins, signers, auth, 0) == AuthFault(admins, signers, auth, i)
    {
      var isAdmin := Contains(admins, signers[i]);
      if !isAdmin {
        return Fail(Unauthorized);
      }
      var duplicate := Recurs(signers, i);
      if duplicate {
        return Fail(Unauthorized);
      }
      if signers[i] !in auth {
        return Fail(AuthMissing);
      }
    }
    return Pass;
  }

  /** An admin list in a possible range is refused for its first entry that is zero or recurs, a zero
      entry with the error the contract gives it. */
  lemma FirstAdminFault(admins: seq<Address>, threshold: u32, zeroError: Error, i: nat)
    requires 1 <= threshold <= |admins| && i < |admins|
    requires forall j | 0 <= j < i :: admins[j] != Zero && admins[j] !in admins[j + 1..]
    requires admins[i] == Zero || admins[i] in admins[i + 1..]
    ensures CheckAdmins(admins, threshold, zeroError) == Fail(if admins[i] == Zero then zeroError else InvalidAdmin)
  {
    FaultFrom(admins, zeroError, 0, i);
  }

  lemma {:induction false} FaultFrom(admins: seq<Address>, zeroError: Error, n: nat, i: nat)
    requires n <= i < |admins|
    requires forall j | n <= j < i :: admins[j] != Zero && admins[j] !in admins[j + 1..]
    ensures AdminFault(admins, zeroError, n) == AdminFault(admins, zeroError, i)
    decreases i - n
  {
    if n == i {
    } else {
      FaultFrom(admins, zeroError, n + 1, i);
    }
  }

  /** A signer list of sufficient length is refused for its first entry that is no admin, recurs or is not
      authenticated: as unauthenticated only if it is a nonrecurring admin. */
  lemma FirstAuthFault(admins: seq<Address>, signers: seq<Address>, auth: set<Address>, required: int, i: nat)
    requires |signers| >= required && i < |signers|
    requires forall j | 0 <= j < i :: signers[j] in admins && signers[j] !in signers[j + 1..] && signers[j] in auth
    requires signers[i] !in admins || signers[i] in signers[i + 1..] || signers[i] !in auth
    ensures CheckAuth(admins, signers, auth, required) ==
              Fail(if signers[i] !in admins || signers[i] in signers[i + 1..] then Unauthorized else AuthMissing)
  {
    AuthFaultFrom(admins, signers, auth, 0, i);
  }

  lemma {:induction false} AuthFaultFrom(admins: seq<Address>, signers: seq<Address>, auth: set<Address>, n: nat,
                                         i: nat)
    requires n <= i < |signers|
    requires forall j | n <= j < i :: signers[j] in admins && signers[j] !in signers[j + 1..] && signers[j] in auth
    ensures AuthFault(admins, signers, auth, n) == AuthFault(admins, signers, auth, i)
    decreases i - n
  {
    if n == i {
    } else {
      AuthFaultFrom(admins, signers, auth, n + 1, i);
    }
  }

  /** Too short a signer list, and a threshold out of range, are refused before any entry is looked at. */
  lemma CountsComeFirst(admins: seq<Address>, threshold: u32, zeroError: Error, signers: seq<Address>,
                        auth: set<Address>, required: int)
    ensures threshold == 0 || threshold > |admins| ==>
              CheckAdmins(admins, threshold, zeroError) == Fail(InvalidThreshold)
    ensures |signers| < required ==> CheckAuth(admins, signers, auth, required) == Fail(Unauthorized)
  {}

  /** Under a usable configuration the threshold can always be met, and an accepted signer list has a
      first element. */
  lemma ThresholdIsSatisfiable(admins: seq<Address>, threshold: int)
    requires AdminsOk(admins, threshold)
    ensures exists signers, auth :: AuthOk(admins, signers, auth, threshold)
    ensures forall signers, auth :: AuthOk(admins, signers, auth, threshold) ==> signers != []
  {
    var signers := admins[..threshold];
    var auth := set a | a in signers;
    assert AuthOk(admins, signers, auth, threshold);
  }

  /** required signers can be found exactly when there are that many admins. */
  lemma QuorumExists(admins: seq<Address>, required: nat)
    requires Distinct(admins)
    ensures (exists signers, auth :: AuthOk(admins, signers, auth, required)) <==> required <= |admins|
  {
    if required <= |admins| {
      var signers := admins[..required];
      var auth := set a | a in signers;
      assert AuthOk(admins, signers, auth, required);
    }
    forall signers, auth | AuthOk(admins, signers, auth, required) ensures required <= |admins| {
      DistinctSubsetBound(signers, admins);
    }
  }

  lemma SetOfDistinct<T>(xs: seq<T>)
    requires Distinct(xs)
    ensures |(set x | x in xs)| == |xs|
  {
    if xs == [] {
    } else {
      var rest := xs[1..];
      SetOfDistinct(rest);
      assert (set x | x in xs) == {xs[0]} + (set x | x in rest);
    }
  }

  lemma SubsetBound<T>(a: set<T>, b: set<T>)
    requires a <= b
    ensures |a| <= |b|
  {
    assert b == a + (b - a);
  }

  lemma DistinctSubsetBound<T>(xs: seq<T>, ys: seq<T>)
    requires Distinct(xs) && Distinct(ys) && forall x | x in xs :: x in ys
    ensures |xs| <= |ys|
  {
    SetOfDistinct(xs);
    SetOfDistinct(ys);
    SubsetBound((set x | x in xs), (set y | y in ys));
  }
}
