/**
 * Runs of the identity contract: sequences of transactions from empty storage under a positive,
 * non-decreasing head block time. What every step keeps, recovery safety over whole histories,
 * the policy time-lock and recoverability.
 */
module IdentityRuns {
  import opened Wrappers
  import opened Bytes
  import opened Seqs
  import opened Identity

  /** The largest block time at which no u64 addition of the contract wraps. */
  const MAX_CLOCK: u64 := 18_446_744_042_087_151_615

  /** The head block time is positive, never goes back and stays clear of the u64 limit. */
  ghost predicate ValidRun(txs: seq<Tx>) {
    && (forall i | 0 <= i < |txs| :: 0 < txs[i].ctx.now <= MAX_CLOCK)
    && (forall i, j | 0 <= i <= j < |txs| :: txs[i].ctx.now <= txs[j].ctx.now)
  }

  /** Storage after the first `n` transactions. */
  ghost function StateAt(txs: seq<Tx>, n: nat): Storage
    requires n <= |txs|
  {
    if n == 0 then EmptyStorage else After(StateAt(txs, n - 1), Step(StateAt(txs, n - 1), txs[n - 1]))
  }

  ghost predicate Succeeds(txs: seq<Tx>, i: nat)
    requires i < |txs|
  {
    Step(StateAt(txs, i), txs[i]).Committed?
  }

  // -------------------------------------------------------------------------
  // What one step does to one account
  // -------------------------------------------------------------------------

  /** A transaction touches the identity and the recovery state of its own account only. */
  lemma StepFrame(s: Storage, tx: Tx, a: Bytes)
    requires tx.call.account != a
    ensures var s' := After(s, Step(s, tx));
            && Lookup(s'.identities, a) == Lookup(s.identities, a)
            && RecoveryOf(s', a) == RecoveryOf(s, a)
  {
  }

  /** Identities are never removed. */
  lemma StepKeepsIdentities(s: Storage, tx: Tx, a: Bytes)
    requires a in s.identities
    ensures a in After(s, Step(s, tx)).identities
  {
  }

  /** The approvals of a pending recovery, its threshold clock and its target. */
  ghost predicate ValidPending(p: PendingRecovery, policy: Policy, owner: Bytes) {
    && IsAddress(p.newOwner)
    && p.newOwner != owner
    && p.approvals != []
    && Distinct(p.approvals)
    && (forall g | g in p.approvals :: g in policy.guardians)
    && (p.effectiveAt != 0 <==> |p.approvals| >= policy.threshold)
  }

  /** What every reachable storage satisfies for every account. */
  ghost predicate AccountOk(s: Storage, a: Bytes) {
    var state := RecoveryOf(s, a);
    && (a in s.identities ==> IsAddress(a) && IsAddress(s.identities[a].owner) && s.identities[a].keyVersion >= 1)
    && (state.policy.Some? ==> a in s.identities && ValidPolicy(state.policy.value, a))
    && (state.pendingPolicy.Some? ==> state.policy.Some? && ValidPolicy(state.pendingPolicy.value.policy, a))
    && (state.pendingRecovery.Some? ==>
          state.policy.Some? && ValidPending(state.pendingRecovery.value, state.policy.value, s.identities[a].owner))
  }

  lemma ApproveKeepsPending(existing: Option<PendingRecovery>, g: Bytes, o: Bytes, policy: Policy, owner: Bytes,
                            a: Bytes, now: u64)
    requires ValidPolicy(policy, a) && g in policy.guardians && IsAddress(o) && o != owner
    requires 0 < now <= MAX_CLOCK
    requires existing.Some? ==> ValidPending(existing.value, policy, owner)
    ensures var r := Approve(existing, g, o, policy, now);
            r.Some? ==> ValidPending(r.value, policy, owner) && |r.value.approvals| <= MAX_GUARDIANS
  {
    var r := Approve(existing, g, o, policy, now);
    if r.Some? {
      DistinctSubsetLength(r.value.approvals, policy.guardians);
    }
  }

  lemma StepKeepsAccount(s: Storage, tx: Tx, a: Bytes)
    requires 0 < tx.ctx.now <= MAX_CLOCK
    requires AccountOk(s, a)
    ensures AccountOk(After(s, Step(s, tx)), a)
  {
    var state := RecoveryOf(s, a);
    if tx.call.account != a {
      StepFrame(s, tx, a);
    } else if tx.call.ProposeRecovery? && state.policy.Some? && a in s.identities {
      if tx.call.guardian in state.policy.value.guardians && IsAddress(tx.call.newOwner)
         && tx.call.newOwner != s.identities[a].owner {
        ApproveKeepsPending(state.pendingRecovery, tx.call.guardian, tx.call.newOwner, state.policy.value,
                            s.identities[a].owner, a, tx.ctx.now);
      }
    }
  }

  /** Every account of every reachable storage satisfies the invariant. */
  lemma {:induction false} ReachableOk(txs: seq<Tx>, n: nat, a: Bytes)
    requires ValidRun(txs) && n <= |txs|
    ensures AccountOk(StateAt(txs, n), a)
  {
    if n != 0 {
      ReachableOk(txs, n - 1, a);
      StepKeepsAccount(StateAt(txs, n - 1), txs[n - 1], a);
    }
  }

  // -------------------------------------------------------------------------
  // Recovery safety
  // -------------------------------------------------------------------------

  ghost function PolicyAt(txs: seq<Tx>, n: nat, a: Bytes): Option<Policy>
    requires n <= |txs|
  {
    RecoveryOf(StateAt(txs, n), a).policy
  }

  ghost function PendingAt(txs: seq<Tx>, n: nat, a: Bytes): Option<PendingRecovery>
    requires n <= |txs|
  {
    RecoveryOf(StateAt(txs, n), a).pendingRecovery
  }

  ghost function OwnerAt(txs: seq<Tx>, n: nat, a: Bytes): Option<Bytes>
    requires n <= |txs|
  {
    if a in StateAt(txs, n).identities then Some(StateAt(txs, n).identities[a].owner) else None
  }

  /** Transaction `i` is an accepted proposal of `o` for `a`, signed by guardian `g`. */
  ghost predicate Proposed(txs: seq<Tx>, i: nat, a: Bytes, g: Bytes, o: Bytes) {
    i < |txs| && Succeeds(txs, i) && txs[i].call == ProposeRecovery(a, g, o) && g in txs[i].ctx.signers
  }

  /** A call that, when accepted, ends a pending recovery of `a` towards `o`. */
  ghost predicate VoidingCall(call: Call, a: Bytes, o: Bytes) {
    && call.account == a
    && (call.CancelRecovery? || call.ApplyRecoveryPolicy? || call.ExecuteRecovery?
        || (call.ProposeRecovery? && call.newOwner != o))
  }

  ghost predicate Voids(txs: seq<Tx>, i: nat, a: Bytes, o: Bytes)
    requires i < |txs|
  {
    Succeeds(txs, i) && VoidingCall(txs[i].call, a, o)
  }

  /**
   * `idx` lists the transactions whose approvals make up the set `approvals` for `o`: one signed
   * proposal a guardian, nothing that voids the recovery since the first of them, the same policy
   * all along.
   */
  ghost predicate Collected(txs: seq<Tx>, n: nat, a: Bytes, o: Bytes, approvals: seq<Bytes>, idx: seq<nat>) {
    && n <= |txs|
    && |idx| == |approvals| > 0
    && (forall k | 0 <= k < |idx| :: idx[k] < n && Proposed(txs, idx[k], a, approvals[k], o))
    && (forall k, l | 0 <= k < l < |idx| :: idx[k] < idx[l])
    && (forall i | idx[0] < i < n :: !Voids(txs, i, a, o))
    && (forall i | idx[0] <= i <= n :: PolicyAt(txs, i, a) == PolicyAt(txs, n, a))
  }

  /**
   * The pending recovery of `a` at `n` is backed by the transactions `idx`, and its clock started when the threshold
   * was met.
   */
  ghost predicate Backed(txs: seq<Tx>, n: nat, a: Bytes, idx: seq<nat>)
    requires n <= |txs|
  {
    && PendingAt(txs, n, a).Some? && PolicyAt(txs, n, a).Some?
    && var p := PendingAt(txs, n, a).value;
       var policy := PolicyAt(txs, n, a).value;
       && Collected(txs, n, a, p.newOwner, p.approvals, idx)
       && 1 <= policy.threshold
       && (|idx| >= policy.threshold ==>
             p.effectiveAt == AddU64(txs[idx[policy.threshold - 1]].ctx.now, policy.delayMs))
  }

  /** A step that leaves the policy and the pending recovery of `a` alone and is no call that voids it. */
  ghost predicate PendingKept(s: Storage, tx: Tx, a: Bytes) {
    var was, now := RecoveryOf(s, a), RecoveryOf(After(s, Step(s, tx)), a);
    && now.policy == was.policy
    && now.pendingRecovery == was.pendingRecovery
    && (was.pendingRecovery.Some? && Step(s, tx).Committed? ==>
          !VoidingCall(tx.call, a, was.pendingRecovery.value.newOwner))
  }

  /** A step in which a guardian of `a` approves a new owner. */
  ghost predicate ApprovalGiven(s: Storage, tx: Tx, a: Bytes) {
    var was, now := RecoveryOf(s, a), RecoveryOf(After(s, Step(s, tx)), a);
    && Step(s, tx).Committed?
    && tx.call.ProposeRecovery?
    && tx.call.account == a
    && tx.call.guardian in tx.ctx.signers
    && now.policy == was.policy
    && was.policy.Some?
    && now.pendingRecovery.Some?
    && now.pendingRecovery == Approve(was.pendingRecovery, tx.call.guardian, tx.call.newOwner, was.policy.value,
                                      tx.ctx.now)
  }

  /** A recovery is pending after a step only because the step kept it or was an approval. */
  lemma PendingEvolution(s: Storage, tx: Tx, a: Bytes)
    requires AccountOk(s, a)
    requires RecoveryOf(After(s, Step(s, tx)), a).pendingRecovery.Some?
    ensures PendingKept(s, tx, a) || ApprovalGiven(s, tx, a)
  {
    if tx.call.account != a {
      StepFrame(s, tx, a);
    }
  }

  lemma BackingPersists(txs: seq<Tx>, n: nat, a: Bytes, idx: seq<nat>)
    requires 0 < n <= |txs|
    requires Backed(txs, n - 1, a, idx)
    requires PendingKept(StateAt(txs, n - 1), txs[n - 1], a)
    ensures Backed(txs, n, a, idx)
  {
    hide Step, Proposed;
    assert !Voids(txs, n - 1, a, PendingAt(txs, n, a).value.newOwner);
  }

  lemma BackingStarts(txs: seq<Tx>, n: nat, a: Bytes)
    requires ValidRun(txs) && 0 < n <= |txs|
    requires ApprovalGiven(StateAt(txs, n - 1), txs[n - 1], a)
    requires AccountOk(StateAt(txs, n), a)
    requires var was := PendingAt(txs, n - 1, a); was.None? || was.value.newOwner != txs[n - 1].call.newOwner
    ensures Backed(txs, n, a, [n - 1])
  {
    hide Step;
    var tx := txs[n - 1];
    assert tx.call == Call.ProposeRecovery(a, tx.call.guardian, tx.call.newOwner);
    assert Proposed(txs, n - 1, a, tx.call.guardian, tx.call.newOwner);
    assert PolicyAt(txs, n - 1, a) == PolicyAt(txs, n, a);
  }

  /** One more approval of the same new owner extends the backing transactions. */
  lemma BackingGrows(txs: seq<Tx>, n: nat, a: Bytes, before: seq<nat>)
    requires ValidRun(txs) && 0 < n <= |txs|
    requires Backed(txs, n - 1, a, before)
    requires ApprovalGiven(StateAt(txs, n - 1), txs[n - 1], a)
    requires AccountOk(StateAt(txs, n - 1), a) && AccountOk(StateAt(txs, n), a)
    requires txs[n - 1].call.newOwner == PendingAt(txs, n - 1, a).value.newOwner
    ensures Backed(txs, n, a, before + [n - 1])
  {
    hide Step;
    var tx := txs[n - 1];
    var idx := before + [n - 1];
    var was, now := PendingAt(txs, n - 1, a).value, PendingAt(txs, n, a).value;
    var policy := PolicyAt(txs, n, a).value;
    assert tx.call == Call.ProposeRecovery(a, tx.call.guardian, tx.call.newOwner);
    assert Proposed(txs, n - 1, a, tx.call.guardian, now.newOwner);
    assert !Voids(txs, n - 1, a, now.newOwner);
    assert Collected(txs, n, a, now.newOwner, now.approvals, idx);
    DistinctSubsetLength(now.approvals, policy.guardians);
    if |before| >= policy.threshold {
      assert idx[policy.threshold - 1] == before[policy.threshold - 1];
    }
  }

  /** Every pending recovery was collected by signed guardian proposals. */
  lemma {:induction false} PendingIsBacked(txs: seq<Tx>, n: nat, a: Bytes) returns (idx: seq<nat>)
    requires ValidRun(txs) && n <= |txs|
    requires PendingAt(txs, n, a).Some?
    ensures Backed(txs, n, a, idx)
  {
    hide Step, After, AccountOk, Backed, ApprovalGiven, PendingKept, RecoveryOf, ValidRun;
    NothingPendingAtFirst(txs, a);
    hide StateAt, PendingAt;
    ReachableOk(txs, n - 1, a);
    ReachableOk(txs, n, a);
    PendingCases(txs, n, a);
    if PendingKept(StateAt(txs, n - 1), txs[n - 1], a) {
      idx := PendingIsBacked(txs, n - 1, a);
      BackingPersists(txs, n, a, idx);
    } else if PendingAt(txs, n - 1, a).None? || PendingAt(txs, n - 1, a).value.newOwner != txs[n - 1].call.newOwner {
      idx := [n - 1];
      BackingStarts(txs, n, a);
    } else {
      var before := PendingIsBacked(txs, n - 1, a);
      idx := before + [n - 1];
      BackingGrows(txs, n, a, before);
    }
  }

  lemma NothingPendingAtFirst(txs: seq<Tx>, a: Bytes)
    ensures PendingAt(txs, 0, a).None?
  {
  }

  lemma PendingCases(txs: seq<Tx>, n: nat, a: Bytes)
    requires 0 < n <= |txs| && AccountOk(StateAt(txs, n - 1), a) && PendingAt(txs, n, a).Some?
    ensures var s, tx := StateAt(txs, n - 1), txs[n - 1];
            && (PendingKept(s, tx, a) || ApprovalGiven(s, tx, a))
            && (PendingKept(s, tx, a) ==> PendingAt(txs, n - 1, a).Some?)
            && (ApprovalGiven(s, tx, a) ==> tx.call.ProposeRecovery?)
  {
    hide Step, After, AccountOk, Approve;
    PendingEvolution(StateAt(txs, n - 1), txs[n - 1], a);
  }

  /**
   * `guardians` are distinct guardians of the policy active at `n`, at least the threshold of them,
   * each of whom signed a proposal of `o` at the transaction `idx` names, and the policy's delay
   * has passed since the one that met the threshold.
   */
  ghost predicate Quorum(txs: seq<Tx>, n: nat, a: Bytes, o: Bytes, guardians: seq<Bytes>, idx: seq<nat>) {
    && n < |txs|
    && PolicyAt(txs, n, a).Some?
    && Collected(txs, n, a, o, guardians, idx)
    && var policy := PolicyAt(txs, n, a).value;
       && Distinct(guardians)
       && (forall g | g in guardians :: g in policy.guardians)
       && 1 <= policy.threshold <= |guardians|
       && txs[idx[policy.threshold - 1]].ctx.now + policy.delayMs <= txs[n].ctx.now
  }

  /** Only an accepted `execute_recovery` replaces an owner, and it installs the pending one. */
  lemma OnlyExecutionChangesOwner(s: Storage, tx: Tx, a: Bytes)
    requires a in s.identities
    requires After(s, Step(s, tx)).identities[a].owner != s.identities[a].owner
    ensures tx.call == Call.ExecuteRecovery(a)
    ensures Step(s, tx).Committed?
    ensures RecoveryOf(s, a).pendingRecovery.Some?
    ensures var p := RecoveryOf(s, a).pendingRecovery.value;
            && p.effectiveAt != 0 && p.effectiveAt <= tx.ctx.now
            && After(s, Step(s, tx)).identities[a].owner == p.newOwner
  {
    if tx.call.account != a {
      StepFrame(s, tx, a);
    }
  }

  /**
   * Recovery safety: in any run, when a step changes the owner of a registered identity, that step
   * is `execute_recovery` and a quorum of the active policy's guardians signed for exactly the new
   * owner, uninterrupted, at least the delay ago.
   */
  lemma RecoverySafety(txs: seq<Tx>, n: nat, a: Bytes)
    requires ValidRun(txs) && n < |txs|
    requires OwnerAt(txs, n, a).Some? && OwnerAt(txs, n + 1, a) != OwnerAt(txs, n, a)
    ensures txs[n].call == Call.ExecuteRecovery(a) && Succeeds(txs, n)
    ensures OwnerAt(txs, n + 1, a).Some?
    ensures var o := OwnerAt(txs, n + 1, a).value;
            exists guardians: seq<Bytes>, idx: seq<nat> :: Quorum(txs, n, a, o, guardians, idx)
  {
    StepKeepsIdentities(StateAt(txs, n), txs[n], a);
    OnlyExecutionChangesOwner(StateAt(txs, n), txs[n], a);
    ReachableOk(txs, n, a);
    hide Step, Collected;
    var idx := PendingIsBacked(txs, n, a);
    var p := PendingAt(txs, n, a).value;
    QuorumFromBacking(txs, n, a, idx);
    assert Quorum(txs, n, a, p.newOwner, p.approvals, idx);
  }

  lemma QuorumFromBacking(txs: seq<Tx>, n: nat, a: Bytes, idx: seq<nat>)
    requires ValidRun(txs) && n < |txs|
    requires Backed(txs, n, a, idx)
    requires AccountOk(StateAt(txs, n), a)
    requires 0 < PendingAt(txs, n, a).value.effectiveAt <= txs[n].ctx.now
    ensures var p := PendingAt(txs, n, a).value; Quorum(txs, n, a, p.newOwner, p.approvals, idx)
  {
    hide Step, Proposed, Voids;
  }

  // -------------------------------------------------------------------------
  // The policy time-lock
  // -------------------------------------------------------------------------

  ghost function PendingPolicyAt(txs: seq<Tx>, n: nat, a: Bytes): Option<PendingPolicy>
    requires n <= |txs|
  {
    RecoveryOf(StateAt(txs, n), a).pendingPolicy
  }

  /**
   * The owner of `a` queued `p` in transaction `i`; it has been pending ever since, under the same
   * active policy and the same owner, and becomes effective once that policy's delay has passed.
   */
  ghost predicate Queued(txs: seq<Tx>, n: nat, a: Bytes, p: PendingPolicy, i: nat) {
    && i < n <= |txs|
    && Succeeds(txs, i)
    && txs[i].call == Call.SetRecoveryPolicy(a, Some(p.policy))
    && OwnerAt(txs, i, a).Some? && OwnerAt(txs, i, a).value in txs[i].ctx.signers
    && PolicyAt(txs, i, a).Some?
    && p.effectiveAt == AddU64(txs[i].ctx.now, PolicyAt(txs, i, a).value.delayMs)
    && (forall j | i < j <= n :: PendingPolicyAt(txs, j, a) == Some(p))
    && (forall j | i < j <= n :: PolicyAt(txs, j, a) == PolicyAt(txs, i, a))
    && (forall j | i < j <= n :: OwnerAt(txs, j, a) == OwnerAt(txs, i, a))
  }

  /** A policy change is pending after a step because it was before, or because the owner queued it. */
  lemma PendingPolicyEvolution(s: Storage, tx: Tx, a: Bytes)
    requires AccountOk(s, a)
    requires RecoveryOf(After(s, Step(s, tx)), a).pendingPolicy.Some?
    ensures var s' := After(s, Step(s, tx));
            var was, now := RecoveryOf(s, a), RecoveryOf(s', a);
            && now.policy == was.policy && was.policy.Some?
            && a in s.identities && a in s'.identities
            && s'.identities[a].owner == s.identities[a].owner
            && (|| now.pendingPolicy == was.pendingPolicy
                || (&& Step(s, tx).Committed?
                    && tx.call == Call.SetRecoveryPolicy(a, Some(now.pendingPolicy.value.policy))
                    && s.identities[a].owner in tx.ctx.signers
                    && now.pendingPolicy.value.effectiveAt == AddU64(tx.ctx.now, was.policy.value.delayMs)))
  {
    if tx.call.account != a {
      StepFrame(s, tx, a);
    }
  }

  lemma QueuePersists(txs: seq<Tx>, n: nat, a: Bytes, p: PendingPolicy, i: nat)
    requires 0 < n <= |txs|
    requires Queued(txs, n - 1, a, p, i)
    requires PendingPolicyAt(txs, n, a) == Some(p)
    requires PolicyAt(txs, n, a) == PolicyAt(txs, n - 1, a)
    requires OwnerAt(txs, n, a) == OwnerAt(txs, n - 1, a)
    ensures Queued(txs, n, a, p, i)
  {
    hide Succeeds, PendingPolicyAt, PolicyAt, OwnerAt;
  }

  lemma {:induction false} PendingPolicyIsQueued(txs: seq<Tx>, n: nat, a: Bytes) returns (i: nat)
    requires ValidRun(txs) && n <= |txs|
    requires PendingPolicyAt(txs, n, a).Some?
    ensures Queued(txs, n, a, PendingPolicyAt(txs, n, a).value, i)
  {
    if n == 0 {
      assert false;
    }
    hide Step, After, AccountOk, AddU64;
    ReachableOk(txs, n - 1, a);
    PendingPolicyEvolution(StateAt(txs, n - 1), txs[n - 1], a);
    assert PolicyAt(txs, n, a) == PolicyAt(txs, n - 1, a);
    assert OwnerAt(txs, n, a) == OwnerAt(txs, n - 1, a);
    if PendingPolicyAt(txs, n, a) == PendingPolicyAt(txs, n - 1, a) {
      i := PendingPolicyIsQueued(txs, n - 1, a);
      QueuePersists(txs, n, a, PendingPolicyAt(txs, n, a).value, i);
    } else {
      i := n - 1;
    }
  }

  lemma OnlyApplicationReplacesPolicy(s: Storage, tx: Tx, a: Bytes)
    requires RecoveryOf(s, a).policy.Some?
    requires RecoveryOf(After(s, Step(s, tx)), a).policy != RecoveryOf(s, a).policy
    ensures tx.call == Call.ApplyRecoveryPolicy(a)
    ensures var was, now := RecoveryOf(s, a), RecoveryOf(After(s, Step(s, tx)), a);
            && was.pendingPolicy.Some? && now.policy == Some(was.pendingPolicy.value.policy)
            && was.pendingPolicy.value.effectiveAt <= tx.ctx.now
            && now.pendingPolicy.None? && now.pendingRecovery.None?
  {
    if tx.call.account != a {
      StepFrame(s, tx, a);
    }
  }

  /**
   * Policy time-lock: a policy that replaces another was queued by the owner who is still the
   * owner, and was continuously pending for at least the delay of the policy it replaces. So no
   * queued policy outlives a recovery, and applying one voids the recovery in flight.
   */
  lemma PolicyTimeLock(txs: seq<Tx>, n: nat, a: Bytes)
    requires ValidRun(txs) && n < |txs|
    requires PolicyAt(txs, n, a).Some? && PolicyAt(txs, n + 1, a) != PolicyAt(txs, n, a)
    ensures txs[n].call == Call.ApplyRecoveryPolicy(a)
    ensures PendingAt(txs, n + 1, a).None? && PolicyAt(txs, n + 1, a).Some? && PendingPolicyAt(txs, n, a).Some?
    ensures PendingPolicyAt(txs, n, a).value.policy == PolicyAt(txs, n + 1, a).value
    ensures exists i: nat ::
              && Queued(txs, n, a, PendingPolicyAt(txs, n, a).value, i)
              && txs[i].ctx.now + PolicyAt(txs, n, a).value.delayMs <= txs[n].ctx.now
  {
    OnlyApplicationReplacesPolicy(StateAt(txs, n), txs[n], a);
    ReachableOk(txs, n, a);
    var i := PendingPolicyIsQueued(txs, n, a);
    hide Step;
    assert PolicyAt(txs, n, a) == PolicyAt(txs, i, a);
  }

  // -------------------------------------------------------------------------
  // Recoverability
  // -------------------------------------------------------------------------

  /** Storage after a sequence of transactions from `s`. */
  ghost function RunFrom(s: Storage, more: seq<Tx>): Storage
    decreases |more|
  {
    if more == [] then s else RunFrom(After(s, Step(s, more[0])), more[1..])
  }

  /** Every transaction of the sequence is accepted in turn. */
  ghost predicate Accepted(s: Storage, more: seq<Tx>)
    decreases |more|
  {
    more == [] || (Step(s, more[0]).Committed? && Accepted(After(s, Step(s, more[0])), more[1..]))
  }

  /** Approvals of `o` already collected. */
  ghost function Approvals(s: Storage, a: Bytes, o: Bytes): seq<Bytes> {
    var p := RecoveryOf(s, a).pendingRecovery;
    if p.Some? && p.value.newOwner == o then p.value.approvals else []
  }

  /**
   * `more` is proposals of `o` at time `t`, each signed by one guardian, then an unsigned execution after the delay.
   */
  ghost predicate RecoveryPlan(more: seq<Tx>, a: Bytes, o: Bytes, policy: Policy, t: u64) {
    && more != []
    && t + policy.delayMs < U64_MODULUS
    && more[|more| - 1] == Tx(Context(t + policy.delayMs, {}), Call.ExecuteRecovery(a))
    && (forall i | 0 <= i < |more| - 1 ::
          && more[i].call.ProposeRecovery?
          && more[i].call.guardian in policy.guardians
          && more[i] == Tx(Context(t, {more[i].call.guardian}), Call.ProposeRecovery(a, more[i].call.guardian, o)))
  }

  /** Guardians can finish a recovery from any storage that satisfies the invariant. */
  lemma {:induction false} PlanRecovery(s: Storage, a: Bytes, o: Bytes, t: u64) returns (more: seq<Tx>)
    requires AccountOk(s, a) && RecoveryOf(s, a).policy.Some?
    requires IsAddress(o) && o != s.identities[a].owner
    requires 0 < t && t + MAX_RECOVERY_DELAY_MS <= MAX_CLOCK
    requires var state := RecoveryOf(s, a);
             state.pendingRecovery.Some? ==> state.pendingRecovery.value.effectiveAt <= t + state.policy.value.delayMs
    ensures var policy := RecoveryOf(s, a).policy.value;
            && RecoveryPlan(more, a, o, policy, t)
            && |more| <= 1 + (if |Approvals(s, a, o)| >= policy.threshold then 0
               else policy.threshold - |Approvals(s, a, o)|)
    ensures Accepted(s, more)
    ensures a in RunFrom(s, more).identities && RunFrom(s, more).identities[a].owner == o
    decreases RecoveryOf(s, a).policy.value.threshold - |Approvals(s, a, o)|
  {
    var policy := RecoveryOf(s, a).policy.value;
    var approvals := Approvals(s, a, o);
    if |approvals| >= policy.threshold {
      var tx := Tx(Context(t + policy.delayMs, {}), Call.ExecuteRecovery(a));
      more := [tx];
      assert more[1..] == [];
    } else {
      var g := MissingElement(approvals, policy.guardians);
      var tx := Tx(Context(t, {g}), Call.ProposeRecovery(a, g, o));
      var s' := After(s, Step(s, tx));
      ProposalAccepted(s, a, g, o, t);
      StepKeepsAccount(s, tx, a);
      hide Step, AccountOk;
      var rest := PlanRecovery(s', a, o, t);
      more := [tx] + rest;
      assert more[1..] == rest;
    }
  }

  lemma ProposalAccepted(s: Storage, a: Bytes, g: Bytes, o: Bytes, t: u64)
    requires AccountOk(s, a) && RecoveryOf(s, a).policy.Some?
    requires IsAddress(o) && o != s.identities[a].owner
    requires 0 < t && t + MAX_RECOVERY_DELAY_MS <= MAX_CLOCK
    requires g in RecoveryOf(s, a).policy.value.guardians && g !in Approvals(s, a, o)
    requires |Approvals(s, a, o)| < RecoveryOf(s, a).policy.value.threshold
    ensures var tx := Tx(Context(t, {g}), Call.ProposeRecovery(a, g, o));
            var s' := After(s, Step(s, tx));
            && Step(s, tx).Committed?
            && Approvals(s', a, o) == Approvals(s, a, o) + [g]
            && RecoveryOf(s', a).policy == RecoveryOf(s, a).policy
            && s'.identities == s.identities
            && RecoveryOf(s', a).pendingRecovery.Some?
            && RecoveryOf(s', a).pendingRecovery.value.effectiveAt <= t + RecoveryOf(s, a).policy.value.delayMs
  {
  }

  /**
   * Recoverability: after any run, for any new owner other than the current one, at most
   * `threshold` guardian proposals and waiting out the delay make `execute_recovery` succeed,
   * with nobody else's signature.
   */
  lemma Recoverable(txs: seq<Tx>, a: Bytes, o: Bytes, t: u64)
    requires ValidRun(txs)
    requires PolicyAt(txs, |txs|, a).Some?
    requires IsAddress(o) && OwnerAt(txs, |txs|, a) != Some(o)
    requires 0 < t && t + MAX_RECOVERY_DELAY_MS <= MAX_CLOCK && (forall i | 0 <= i < |txs| :: txs[i].ctx.now <= t)
    ensures exists more ::
              && RecoveryPlan(more, a, o, PolicyAt(txs, |txs|, a).value, t)
              && |more| <= PolicyAt(txs, |txs|, a).value.threshold + 1
              && Accepted(StateAt(txs, |txs|), more)
              && Lookup(RunFrom(StateAt(txs, |txs|), more).identities, a).Some?
              && RunFrom(StateAt(txs, |txs|), more).identities[a].owner == o
  {
    ReachableOk(txs, |txs|, a);
    hide Step;
    if PendingAt(txs, |txs|, a).Some? {
      var idx := PendingIsBacked(txs, |txs|, a);
      var policy := PolicyAt(txs, |txs|, a).value;
      if |idx| >= policy.threshold {
        assert txs[idx[policy.threshold - 1]].ctx.now <= t;
      }
    }
    var more := PlanRecovery(StateAt(txs, |txs|), a, o, t);
  }
}
