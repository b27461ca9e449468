/**
 * Runs of the communities contract: what every reachable storage satisfies, that power cannot
 * grow from below, and when and how ownership moves.
 */
module CommunityRuns {
  import opened Wrappers
  import opened Bytes
  import opened Communities

  /** The largest block time at which a transfer's effective time does not wrap. */
  const MAX_CLOCK: u64 := 18_446_744_071_117_551_615

  /** The head block time never goes back and stays clear of the u64 limit. */
  ghost predicate ValidRun(txs: seq<Tx>) {
    && (forall i | 0 <= i < |txs| :: txs[i].ctx.now <= MAX_CLOCK)
    && (forall i, j | 0 <= i <= j < |txs| :: txs[i].ctx.now <= txs[j].ctx.now)
  }

  /** Storage after the first `n` transactions. */
  ghost function StateAt(txs: seq<Tx>, n: nat, self: Bytes): Storage
    requires n <= |txs|
  {
    if n == 0 then EmptyStorage
    else After(StateAt(txs, n - 1, self), Step(StateAt(txs, n - 1, self), txs[n - 1], self))
  }

  ghost predicate Succeeds(txs: seq<Tx>, i: nat, self: Bytes)
    requires i < |txs|
  {
    Step(StateAt(txs, i, self), txs[i], self).Committed?
  }

  // -------------------------------------------------------------------------
  // Reachable storage
  // -------------------------------------------------------------------------

  /** A community record sits under its own id, its owner is an address, a pending owner is another one. */
  ghost predicate RecordOk(id: Bytes, rec: CommunityRecord) {
    && rec.id == id && IsCommunityId(id)
    && IsAddress(rec.owner)
    && (rec.pendingOwner == [] || (IsAddress(rec.pendingOwner) && rec.pendingOwner != rec.owner))
    && rec.transferDelayMs <= TRANSFER_DELAY_MAX_MS
  }

  /**
   * A role sits under the id of a community and the address of a subject other than its owner, and is never none or
   * owner.
   */
  ghost predicate RoleOk(s: Storage, key: Bytes)
    requires key in s.roles
  {
    && |key| > ADDRESS_LENGTH
    && key[..|key| - ADDRESS_LENGTH] in s.communities
    && s.communities[key[..|key| - ADDRESS_LENGTH]].owner != key[|key| - ADDRESS_LENGTH..]
    && 0 < s.roles[key].role <= ROLE_MAX_VALUE && s.roles[key].role != ROLE_OWNER
  }

  ghost predicate StorageOk(s: Storage) {
    && (forall id | id in s.communities :: RecordOk(id, s.communities[id]))
    && (forall key | key in s.roles :: RoleOk(s, key))
  }

  lemma KeyParts(id: Bytes, subject: Bytes)
    requires IsAddress(subject)
    ensures var key := RoleKey(id, subject);
            && |key| == |id| + ADDRESS_LENGTH
            && key[..|key| - ADDRESS_LENGTH] == id && key[|key| - ADDRESS_LENGTH..] == subject
  {
  }

  /** Other communities' records are untouched; the id of this one stays. */
  lemma RecordFrame(s: Storage, tx: Tx, self: Bytes)
    ensures var s' := After(s, Step(s, tx, self));
            forall id | id in s.communities :: id in s'.communities
  {
    hide Authorized, EffectiveRole;
  }

  lemma StepKeepsRecords(s: Storage, tx: Tx, self: Bytes, id: Bytes)
    requires forall id' | id' in s.communities :: RecordOk(id', s.communities[id'])
    requires id in After(s, Step(s, tx, self)).communities
    ensures RecordOk(id, After(s, Step(s, tx, self)).communities[id])
  {
    hide Authorized, EffectiveRole;
  }

  /**
   * Every role of the new storage was there before under a community with the same owner, or was just set, or its
   * community was transferred to another.
   */
  lemma StepKeepsRoles(s: Storage, tx: Tx, self: Bytes, key: Bytes)
    requires StorageOk(s)
    requires key in After(s, Step(s, tx, self)).roles
    ensures RoleOk(After(s, Step(s, tx, self)), key)
  {
    match tx.call
    case SetRole(_, _, _, _, _, _, _) => SetRoleKeepsRoles(s, tx, self, key);
    case ExecuteOwnerTransfer(_) => TransferKeepsRoles(s, tx, self, key);
    case _ => OthersKeepRoles(s, tx, self, key);
  }

  lemma SetRoleKeepsRoles(s: Storage, tx: Tx, self: Bytes, key: Bytes)
    requires StorageOk(s) && tx.call.SetRole? && key in After(s, Step(s, tx, self)).roles
    ensures RoleOk(After(s, Step(s, tx, self)), key)
  {
    hide Authorized, EffectiveRole;
    RecordFrame(s, tx, self);
    if IsAddress(tx.call.subject) {
      KeyParts(tx.call.id, tx.call.subject);
    }
    hide RecordOk;
  }

  lemma TransferKeepsRoles(s: Storage, tx: Tx, self: Bytes, key: Bytes)
    requires StorageOk(s) && tx.call.ExecuteOwnerTransfer? && key in After(s, Step(s, tx, self)).roles
    ensures RoleOk(After(s, Step(s, tx, self)), key)
  {
    var id := tx.call.id;
    assert key in s.roles && RoleOk(s, key);
    if id in s.communities && s.communities[id].pendingOwner != [] {
      assert RecordOk(id, s.communities[id]);
      KeyParts(id, s.communities[id].pendingOwner);
      hide StorageOk, RecordOk;
      if key[..|key| - ADDRESS_LENGTH] == id && key[|key| - ADDRESS_LENGTH..] == s.communities[id].pendingOwner {
        assert key == RoleKey(id, s.communities[id].pendingOwner);
      }
    }
  }

  lemma OthersKeepRoles(s: Storage, tx: Tx, self: Bytes, key: Bytes)
    requires StorageOk(s) && !tx.call.SetRole? && !tx.call.ExecuteOwnerTransfer?
    requires key in After(s, Step(s, tx, self)).roles
    ensures RoleOk(After(s, Step(s, tx, self)), key)
  {
    hide Authorized, EffectiveRole, RecordOk;
    RecordFrame(s, tx, self);
    assert After(s, Step(s, tx, self)).roles == s.roles;
    assert RoleOk(s, key);
  }

  lemma StepKeepsStorage(s: Storage, tx: Tx, self: Bytes)
    requires StorageOk(s)
    ensures StorageOk(After(s, Step(s, tx, self)))
  {
    hide Step, RecordOk, RoleOk;
    var s' := After(s, Step(s, tx, self));
    forall id | id in s'.communities
      ensures RecordOk(id, s'.communities[id])
    {
      StepKeepsRecords(s, tx, self, id);
    }
    forall key | key in s'.roles
      ensures RoleOk(s', key)
    {
      StepKeepsRoles(s, tx, self, key);
    }
  }

  /** In every reachable storage no stored role belongs to a community's owner, and none is the owner role. */
  lemma {:induction false} ReachableOk(txs: seq<Tx>, n: nat, self: Bytes)
    requires n <= |txs|
    ensures StorageOk(StateAt(txs, n, self))
  {
    if n != 0 {
      ReachableOk(txs, n - 1, self);
      StepKeepsStorage(StateAt(txs, n - 1, self), txs[n - 1], self);
    }
  }

  // -------------------------------------------------------------------------
  // How one step changes a community
  // -------------------------------------------------------------------------

  ghost function Community(s: Storage, id: Bytes): Option<CommunityRecord> {
    Lookup(s.communities, id)
  }

  /** Owner, pending owner and transfer time of a record: what ownership depends on. */
  datatype Ownership = Ownership(owner: Bytes, pendingOwner: Bytes, effectiveAt: u64, delayMs: u64)

  ghost function OwnershipOf(rec: CommunityRecord): Ownership {
    Ownership(rec.owner, rec.pendingOwner, rec.transferEffectiveAt, rec.transferDelayMs)
  }

  /** Ownership of an existing community changes in the three transfer calls on it only, each signed as it must be. */
  lemma OwnershipStep(s: Storage, tx: Tx, self: Bytes, id: Bytes)
    requires id in s.communities
    ensures id in After(s, Step(s, tx, self)).communities
    ensures var was, now := OwnershipOf(s.communities[id]), OwnershipOf(After(s, Step(s, tx, self)).communities[id]);
            if Step(s, tx, self).Reverted? then now == was
            else match tx.call
              case ProposeOwnerTransfer(id', owner, newOwner) =>
                if id' != id then now == was
                else owner == was.owner && Authorized(s, tx.ctx, owner, [], 0)
                     && now == was.(pendingOwner := newOwner, effectiveAt := AddU64(tx.ctx.now, was.delayMs))
              case CancelOwnerTransfer(id', owner) =>
                if id' != id then now == was
                else owner == was.owner && Authorized(s, tx.ctx, owner, [], 0)
                     && now == was.(pendingOwner := [], effectiveAt := 0)
              case ExecuteOwnerTransfer(id') =>
                if id' != id then now == was
                else was.pendingOwner != [] && tx.ctx.now >= was.effectiveAt
                     && now == was.(owner := was.pendingOwner, pendingOwner := [], effectiveAt := 0)
              case _ => now == was
  {
    hide Authorized, EffectiveRole;
  }

  /** A role of a community changes when it is set, or when its subject becomes the owner. */
  lemma RoleStep(s: Storage, tx: Tx, self: Bytes, id: Bytes, x: Bytes)
    requires StorageOk(s) && IsAddress(x)
    ensures var was, now := Lookup(s.roles, RoleKey(id, x)), Lookup(After(s, Step(s, tx, self)).roles, RoleKey(id, x));
            if Step(s, tx, self).Reverted? then now == was
            else (tx.call.ExecuteOwnerTransfer? ==> tx.call.id in s.communities) && match tx.call
              case SetRole(id', actor, subject, role, scope, expiresAt, device) =>
                if id' != id || subject != x then now == was
                else id in s.communities && MaySetRole(s, s.communities[id], actor, x, role, tx.ctx.now)
                     && now == if role == ROLE_NONE then None
                        else Some(RoleRecord(role, scope, expiresAt, actor, tx.ctx.now))
              case ExecuteOwnerTransfer(id') =>
                now == if id' == id && s.communities[id].pendingOwner == x then None else was
              case _ => now == was
  {
    match tx.call
    case SetRole(id', actor, subject, role, scope, expiresAt, device) =>
      if IsAddress(subject) {
        ConcatInjectiveSuffix(id', subject, id, x);
      }
      hide Authorized, EffectiveRole, MaySetRole;
    case ExecuteOwnerTransfer(id') =>
      if id' in s.communities && s.communities[id'].pendingOwner != [] {
        assert RecordOk(id', s.communities[id']);
        ConcatInjectiveSuffix(id', s.communities[id'].pendingOwner, id, x);
      }
      hide StorageOk, RecordOk, RoleOk;
    case _ =>
  }

  // -------------------------------------------------------------------------
  // Power cannot grow from below
  // -------------------------------------------------------------------------

  /** `x` has admin rank or more at time `t`. */
  ghost predicate HasPower(s: Storage, id: Bytes, x: Bytes, t: u64) {
    id in s.communities && EffectiveRank(s, s.communities[id], x, t) >= RANK_ADMIN
  }

  /** The owner acts on the roles or the ownership of the community; a reverted call that names them does not count. */
  ghost predicate OwnerActs(s: Storage, tx: Tx, self: Bytes, id: Bytes) {
    && id in s.communities && Step(s, tx, self).Committed?
    && ((tx.call.SetRole? && tx.call.id == id && tx.call.actor == s.communities[id].owner)
        || (tx.call.ProposeOwnerTransfer? && tx.call.id == id && tx.call.owner == s.communities[id].owner))
  }

  /** Only the owner ranks as owner. */
  lemma StoredRankBelowOwner(s: Storage, id: Bytes, x: Bytes, t: u64)
    requires StorageOk(s) && id in s.communities && s.communities[id].owner != x
    ensures EffectiveRank(s, s.communities[id], x, t) < RANK_OWNER
  {
    var key := RoleKey(s.communities[id].id, x);
    assert key in s.roles ==> RoleOk(s, key);
  }

  lemma PowerStep(s: Storage, tx: Tx, self: Bytes, id: Bytes, x: Bytes, t: u64)
    requires StorageOk(s) && IsAddress(x) && id in s.communities && s.communities[id].pendingOwner == []
    requires !OwnerActs(s, tx, self, id) && tx.ctx.now <= t
    ensures var s' := After(s, Step(s, tx, self));
            && id in s'.communities
            && s'.communities[id].owner == s.communities[id].owner && s'.communities[id].pendingOwner == []
            && (HasPower(s', id, x, t) <==> HasPower(s, id, x, t))
  {
    OwnershipStep(s, tx, self, id);
    RoleStep(s, tx, self, id, x);
    StepKeepsRecords(s, tx, self, id);
    if tx.call.SetRole? && tx.call.id == id && tx.call.subject == x && Step(s, tx, self).Committed? {
      StoredRankBelowOwner(s, id, tx.call.actor, tx.ctx.now);
    }
    assert RecordOk(id, s.communities[id]);
    hide Step, StorageOk, RoleKey;
  }

  /**
   * Power cannot grow from below: while no call of the owner succeeds and no transfer is pending, the owner
   * stays, and whoever has admin rank at a time `t` after those transactions is exactly who would have
   * had it at `t` without them; so nobody has it who did not have it before.
   */
  lemma {:induction false} PowerCannotGrow(txs: seq<Tx>, m: nat, n: nat, self: Bytes, id: Bytes, x: Bytes,
                                           before: u64, t: u64)
    requires m <= n <= |txs| && IsAddress(x) && before <= t
    requires id in StateAt(txs, m, self).communities && StateAt(txs, m, self).communities[id].pendingOwner == []
    requires forall i | m <= i < n :: !OwnerActs(StateAt(txs, i, self), txs[i], self, id) && txs[i].ctx.now <= t
    ensures id in StateAt(txs, n, self).communities
    ensures StateAt(txs, n, self).communities[id].owner == StateAt(txs, m, self).communities[id].owner
    ensures StateAt(txs, n, self).communities[id].pendingOwner == []
    ensures HasPower(StateAt(txs, n, self), id, x, t) <==> HasPower(StateAt(txs, m, self), id, x, t)
    ensures HasPower(StateAt(txs, n, self), id, x, t) ==> HasPower(StateAt(txs, m, self), id, x, before)
    decreases n
  {
    ReachableOk(txs, m, self);
    assert RecordOk(id, StateAt(txs, m, self).communities[id]);
    if m < n {
      PowerCannotGrow(txs, m, n - 1, self, id, x, before, t);
      ReachableOk(txs, n - 1, self);
      PowerStep(StateAt(txs, n - 1, self), txs[n - 1], self, id, x, t);
      hide HasPower, Step, StorageOk, OwnerActs;
    }
  }

  // -------------------------------------------------------------------------
  // Appointments
  // -------------------------------------------------------------------------

  /** Transaction `i` set the role that `x` has at `n`; an admin role was set by the owner of that moment. */
  ghost predicate Appointed(txs: seq<Tx>, n: nat, self: Bytes, id: Bytes, x: Bytes, i: nat) {
    && i < n <= |txs| && Succeeds(txs, i, self)
    && txs[i].call.SetRole? && txs[i].call.id == id && txs[i].call.subject == x
    && Lookup(StateAt(txs, n, self).roles, RoleKey(id, x)) ==
       Some(RoleRecord(txs[i].call.role, txs[i].call.scope, txs[i].call.expiresAt, txs[i].call.actor, txs[i].ctx.now))
    && id in StateAt(txs, i, self).communities
    && MaySetRole(StateAt(txs, i, self), StateAt(txs, i, self).communities[id], txs[i].call.actor, x, txs[i].call.role,
                  txs[i].ctx.now)
    && (Rank(txs[i].call.role) >= RANK_ADMIN ==> txs[i].call.actor == StateAt(txs, i, self).communities[id].owner)
  }

  /** The transaction sets the role of `x`. */
  ghost predicate SetsRole(txs: seq<Tx>, i: nat, self: Bytes, id: Bytes, x: Bytes)
    requires i < |txs|
  {
    Succeeds(txs, i, self) && txs[i].call.SetRole? && txs[i].call.id == id && txs[i].call.subject == x
  }

  lemma JustAppointed(txs: seq<Tx>, n: nat, self: Bytes, id: Bytes, x: Bytes)
    requires n < |txs| && IsAddress(x) && SetsRole(txs, n, self, id, x)
    requires RoleKey(id, x) in StateAt(txs, n + 1, self).roles
    ensures Appointed(txs, n + 1, self, id, x, n)
  {
    var s, tx := StateAt(txs, n, self), txs[n];
    ReachableOk(txs, n, self);
    RoleStep(s, tx, self, id, x);
    hide Step, StorageOk, RoleKey;
    AdminsByOwner(s, id, tx.call.actor, x, tx.call.role, tx.ctx.now);
    hide MaySetRole;
  }

  /** A role that is there and was not just set was there before. */
  lemma RoleWasThere(txs: seq<Tx>, n: nat, self: Bytes, id: Bytes, x: Bytes)
    requires n < |txs| && IsAddress(x) && !SetsRole(txs, n, self, id, x)
    requires RoleKey(id, x) in StateAt(txs, n + 1, self).roles
    ensures Lookup(StateAt(txs, n, self).roles, RoleKey(id, x)) ==
            Lookup(StateAt(txs, n + 1, self).roles, RoleKey(id, x))
  {
    ReachableOk(txs, n, self);
    RoleStep(StateAt(txs, n, self), txs[n], self, id, x);
    hide Step, StorageOk, RoleKey, MaySetRole;
  }

  /** Every stored role was set by an accepted `set_role`, and every admin was made one by the owner. */
  lemma {:induction false} EveryRoleAppointed(txs: seq<Tx>, n: nat, self: Bytes, id: Bytes, x: Bytes) returns (i: nat)
    requires n <= |txs| && IsAddress(x)
    requires RoleKey(id, x) in StateAt(txs, n, self).roles
    ensures Appointed(txs, n, self, id, x, i)
  {
    hide Step, RoleKey, MaySetRole, SetsRole;
    if n == 0 {
      assert false;
    }
    if SetsRole(txs, n - 1, self, id, x) {
      i := n - 1;
      JustAppointed(txs, n - 1, self, id, x);
    } else {
      RoleWasThere(txs, n - 1, self, id, x);
      hide StateAt;
      i := EveryRoleAppointed(txs, n - 1, self, id, x);
    }
  }

  lemma AdminsByOwner(s: Storage, id: Bytes, actor: Bytes, subject: Bytes, role: int, now: u64)
    requires StorageOk(s) && id in s.communities && MaySetRole(s, s.communities[id], actor, subject, role, now)
    ensures Rank(role) >= RANK_ADMIN ==> actor == s.communities[id].owner
  {
    if actor != s.communities[id].owner {
      StoredRankBelowOwner(s, id, actor, now);
    }
    hide StorageOk, EffectiveRank;
  }

  // -------------------------------------------------------------------------
  // Ownership transfer
  // -------------------------------------------------------------------------

  /** An accepted transfer call on the community. */
  ghost predicate TransferCall(txs: seq<Tx>, j: nat, self: Bytes, id: Bytes)
    requires j < |txs|
  {
    && Succeeds(txs, j, self)
    && (txs[j].call.ProposeOwnerTransfer? || txs[j].call.CancelOwnerTransfer? || txs[j].call.ExecuteOwnerTransfer?)
    && txs[j].call.id == id
  }

  /** Transaction `i` is the owner's own, uncancelled proposal of the transfer that is pending at `n`. */
  ghost predicate Proposed(txs: seq<Tx>, n: nat, self: Bytes, id: Bytes, i: nat) {
    && i < n <= |txs|
    && id in StateAt(txs, n, self).communities && id in StateAt(txs, i, self).communities
    && var now := StateAt(txs, n, self).communities[id];
       (&& Succeeds(txs, i, self)
        && txs[i].call == Call.ProposeOwnerTransfer(id, now.owner, now.pendingOwner)
        && StateAt(txs, i, self).communities[id].owner == now.owner
        && Authorized(StateAt(txs, i, self), txs[i].ctx, now.owner, [], 0)
        && now.transferEffectiveAt == txs[i].ctx.now + now.transferDelayMs
        && (forall j: nat | i < j < n :: !TransferCall(txs, j, self, id)))
  }

  lemma {:induction false} PendingTransferProposed(txs: seq<Tx>, n: nat, self: Bytes, id: Bytes) returns (i: nat)
    requires ValidRun(txs) && n <= |txs|
    requires id in StateAt(txs, n, self).communities && StateAt(txs, n, self).communities[id].pendingOwner != []
    ensures Proposed(txs, n, self, id, i)
  {
    if n == 0 {
      assert false;
    }
    var s, tx := StateAt(txs, n - 1, self), txs[n - 1];
    ReachableOk(txs, n - 1, self);
    PendingOnlyOnExisting(s, tx, self, id);
    assert RecordOk(id, s.communities[id]);
    OwnershipStep(s, tx, self, id);
    hide Step, StorageOk, Authorized;
    if Succeeds(txs, n - 1, self) && tx.call.ProposeOwnerTransfer? && tx.call.id == id {
      i := n - 1;
    } else {
      i := PendingTransferProposed(txs, n - 1, self, id);
      ProposalPersists(txs, n, self, id, i);
    }
  }

  lemma ProposalPersists(txs: seq<Tx>, n: nat, self: Bytes, id: Bytes, i: nat)
    requires 0 < n <= |txs| && Proposed(txs, n - 1, self, id, i) && id in StateAt(txs, n, self).communities
    requires OwnershipOf(StateAt(txs, n, self).communities[id]) ==
             OwnershipOf(StateAt(txs, n - 1, self).communities[id])
    requires !TransferCall(txs, n - 1, self, id)
    ensures Proposed(txs, n, self, id, i)
  {
    hide StateAt, Succeeds, TransferCall, Authorized;
  }

  /** A community is created without a pending transfer. */
  lemma PendingOnlyOnExisting(s: Storage, tx: Tx, self: Bytes, id: Bytes)
    requires id in After(s, Step(s, tx, self)).communities
    requires After(s, Step(s, tx, self)).communities[id].pendingOwner != []
    ensures id in s.communities
  {
    hide Authorized, EffectiveRole;
  }

  /**
   * Ownership transfer: an owner changes only when a transfer is executed, and then the previous owner
   * proposed exactly that new owner with its own key, at least the transfer delay before, with no
   * cancellation, other proposal or execution in between; right after it neither party has a stored role.
   */
  lemma TransferTimeLock(txs: seq<Tx>, n: nat, self: Bytes, id: Bytes)
    requires ValidRun(txs) && n < |txs| && id in StateAt(txs, n, self).communities
    requires id in StateAt(txs, n + 1, self).communities ==>
               StateAt(txs, n + 1, self).communities[id].owner != StateAt(txs, n, self).communities[id].owner
    ensures Succeeds(txs, n, self) && txs[n].call == Call.ExecuteOwnerTransfer(id)
    ensures var was, next := StateAt(txs, n, self).communities[id], StateAt(txs, n + 1, self);
            && id in next.communities && next.communities[id].owner == was.pendingOwner
            && (exists i: nat ::
                  Proposed(txs, n, self, id, i) && txs[n].ctx.now >= txs[i].ctx.now + was.transferDelayMs)
            && RoleKey(id, was.owner) !in next.roles
            && RoleKey(id, was.pendingOwner) !in next.roles
            && (forall t: u64 :: EffectiveRole(next, next.communities[id], was.owner, t) == ROLE_NONE)
  {
    var s, tx := StateAt(txs, n, self), txs[n];
    var was := s.communities[id];
    OwnershipStep(s, tx, self, id);
    ReachableOk(txs, n, self);
    ReachableOk(txs, n + 1, self);
    assert RecordOk(id, was) && RecordOk(id, StateAt(txs, n + 1, self).communities[id]);
    var i := PendingTransferProposed(txs, n, self, id);
    RoleStep(s, tx, self, id, was.owner);
    RoleStep(s, tx, self, id, was.pendingOwner);
    OwnerHasNoRole(s, id);
    hide Step, StorageOk, RecordOk, Proposed, RoleKey;
    assert Proposed(txs, n, self, id, i);
  }

  /** The owner of a community never has a stored role in it. */
  lemma OwnerHasNoRole(s: Storage, id: Bytes)
    requires StorageOk(s) && id in s.communities
    ensures RoleKey(id, s.communities[id].owner) !in s.roles
  {
    var key := RoleKey(id, s.communities[id].owner);
    assert RecordOk(id, s.communities[id]);
    KeyParts(id, s.communities[id].owner);
    assert key in s.roles ==> RoleOk(s, key);
  }
}
