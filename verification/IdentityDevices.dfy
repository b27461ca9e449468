/**
 * Device authorities over whole runs of the identity contract: which owner's authorisation stands
 * behind an accepted device, and what a recovery does to every device.
 */
module IdentityDevices {
  import opened Wrappers
  import opened Bytes
  import opened Identity
  import opened IdentityRuns

  /** Accepted recoveries of `a` among the first `n` transactions. */
  ghost function Recoveries(txs: seq<Tx>, n: nat, a: Bytes): nat
    requires n <= |txs|
  {
    if n == 0 then 0
    else Recoveries(txs, n - 1, a)
         + (if Succeeds(txs, n - 1) && txs[n - 1].call == Call.ExecuteRecovery(a) then 1 else 0)
  }

  lemma {:induction false} RecoveriesMonotone(txs: seq<Tx>, m: nat, n: nat, a: Bytes)
    requires m <= n <= |txs|
    ensures Recoveries(txs, m, a) <= Recoveries(txs, n, a)
    decreases n
  {
    hide Step;
    if m < n {
      RecoveriesMonotone(txs, m, n - 1, a);
    }
  }

  lemma EpochStep(s: Storage, tx: Tx, a: Bytes)
    ensures var s' := After(s, Step(s, tx));
            && (a !in s.identities && a in s'.identities ==> s'.identities[a].deviceEpoch == 0)
            && (a in s.identities ==>
                  && a in s'.identities
                  && s'.identities[a].deviceEpoch ==
                     if Step(s, tx).Committed? && tx.call == Call.ExecuteRecovery(a)
                     then IncU32(s.identities[a].deviceEpoch) else s.identities[a].deviceEpoch)
            && (a !in s.identities && tx.call == Call.ExecuteRecovery(a) ==> Step(s, tx).Reverted?)
  {
    if tx.call.account != a {
      StepFrame(s, tx, a);
    }
  }

  lemma NextEpoch(n: nat)
    ensures IncU32(n % U32_MODULUS) == (n + 1) % U32_MODULUS
  {
  }

  /** The device epoch of an identity is its number of recoveries, modulo the u32 range. */
  lemma {:induction false} EpochCountsRecoveries(txs: seq<Tx>, n: nat, a: Bytes)
    requires n <= |txs|
    ensures if a in StateAt(txs, n).identities
            then StateAt(txs, n).identities[a].deviceEpoch == Recoveries(txs, n, a) % U32_MODULUS
            else Recoveries(txs, n, a) == 0
  {
    hide Step, After;
    if n != 0 {
      EpochCountsRecoveries(txs, n - 1, a);
      EpochStep(StateAt(txs, n - 1), txs[n - 1], a);
      NextEpoch(Recoveries(txs, n - 1, a));
    }
  }

  // -------------------------------------------------------------------------
  // Device records
  // -------------------------------------------------------------------------

  /** Device records sit under the key of their own account and device, two 25-byte addresses. */
  ghost predicate DevicesOk(s: Storage) {
    forall k | k in s.devices ::
      && IsAddress(s.devices[k].account) && IsAddress(s.devices[k].device)
      && k == DeviceKey(s.devices[k].account, s.devices[k].device)
  }

  /** A step writes at most one device record, under the key of its own account and device. */
  lemma DevicesEvolution(s: Storage, tx: Tx)
    ensures var s' := After(s, Step(s, tx));
            || s'.devices == s.devices
            || (&& tx.call.AuthorizeDevice? && IsAddress(tx.call.account) && IsAddress(tx.call.device)
                && var key := DeviceKey(tx.call.account, tx.call.device);
                   && key in s'.devices && s'.devices == s.devices[key := s'.devices[key]]
                   && s'.devices[key].account == tx.call.account && s'.devices[key].device == tx.call.device)
            || (&& tx.call.RevokeDevice?
                && var key := DeviceKey(tx.call.account, tx.call.device);
                   key in s.devices && s'.devices == s.devices[key := s.devices[key].(revoked := true)])
  {
  }

  lemma StepKeepsDevices(s: Storage, tx: Tx)
    requires DevicesOk(s)
    ensures DevicesOk(After(s, Step(s, tx)))
  {
    DevicesEvolution(s, tx);
    hide Step;
  }

  lemma {:induction false} DevicesAlwaysOk(txs: seq<Tx>, n: nat)
    requires n <= |txs|
    ensures DevicesOk(StateAt(txs, n))
  {
    if n != 0 {
      DevicesAlwaysOk(txs, n - 1);
      StepKeepsDevices(StateAt(txs, n - 1), txs[n - 1]);
    }
  }

  ghost function DeviceAt(txs: seq<Tx>, n: nat, a: Bytes, d: Bytes): Option<DeviceRecord>
    requires n <= |txs|
  {
    Lookup(StateAt(txs, n).devices, DeviceKey(a, d))
  }

  /** How one step may leave a device record: untouched, revoked, or freshly authorised by the owner. */
  lemma DeviceStep(s: Storage, tx: Tx, a: Bytes, d: Bytes)
    requires IsAddress(a) && IsAddress(d)
    requires DeviceKey(a, d) in After(s, Step(s, tx)).devices
    ensures var s' := After(s, Step(s, tx));
            var now := s'.devices[DeviceKey(a, d)];
            || (&& Step(s, tx).Committed? && tx.call.AuthorizeDevice? && tx.call.account == a && tx.call.device == d
                && a in s.identities && s.identities[a].owner in tx.ctx.signers
                && now == DeviceRecord(a, d, tx.call.capabilities, tx.call.expiresAt, s.identities[a].deviceEpoch,
                                       false,
                                       tx.call.deviceLabel, tx.ctx.now))
            || (&& DeviceKey(a, d) in s.devices
                && !(Step(s, tx).Committed? && tx.call.AuthorizeDevice? && tx.call.account == a && tx.call.device == d)
                && now == if Step(s, tx).Committed? && tx.call == Call.RevokeDevice(a, d)
                          then s.devices[DeviceKey(a, d)].(revoked := true) else s.devices[DeviceKey(a, d)])
  {
    if tx.call.AuthorizeDevice? || tx.call.RevokeDevice? {
      if |tx.call.account| == |a| {
        ConcatInjectivePrefix(tx.call.account, tx.call.device, a, d);
      }
    }
  }

  ghost predicate RevokedBy(txs: seq<Tx>, j: nat, a: Bytes, d: Bytes)
    requires j < |txs|
  {
    Succeeds(txs, j) && txs[j].call == Call.RevokeDevice(a, d)
  }

  /**
   * Transaction `i` is where the owner of the moment authorised the record that `a` and `d` have
   * at `n`, and the record is marked revoked exactly when it was revoked since.
   */
  ghost predicate Granted(txs: seq<Tx>, n: nat, a: Bytes, d: Bytes, i: nat) {
    && i < n <= |txs|
    && Succeeds(txs, i)
    && txs[i].call.AuthorizeDevice? && txs[i].call.account == a && txs[i].call.device == d
    && OwnerAt(txs, i, a).Some? && OwnerAt(txs, i, a).value in txs[i].ctx.signers
    && DeviceAt(txs, n, a, d).Some?
    && var dev := DeviceAt(txs, n, a, d).value;
       && dev.capabilities == txs[i].call.capabilities
       && dev.expiresAt == txs[i].call.expiresAt
       && dev.deviceEpoch == StateAt(txs, i).identities[a].deviceEpoch
       && (dev.revoked <==> exists j: nat | i < j < n :: RevokedBy(txs, j, a, d))
  }

  lemma {:induction false} EveryDeviceGranted(txs: seq<Tx>, n: nat, a: Bytes, d: Bytes) returns (i: nat)
    requires n <= |txs| && IsAddress(a) && IsAddress(d)
    requires DeviceAt(txs, n, a, d).Some?
    ensures Granted(txs, n, a, d, i)
  {
    if n == 0 {
      assert false;
    }
    var s, tx := StateAt(txs, n - 1), txs[n - 1];
    DeviceStep(s, tx, a, d);
    hide Step;
    if Succeeds(txs, n - 1) && tx.call.AuthorizeDevice? && tx.call.account == a && tx.call.device == d {
      i := n - 1;
    } else {
      i := EveryDeviceGranted(txs, n - 1, a, d);
      GrantPersists(txs, n, a, d, i);
    }
  }

  lemma GrantPersists(txs: seq<Tx>, n: nat, a: Bytes, d: Bytes, i: nat)
    requires 0 < n <= |txs|
    requires Granted(txs, n - 1, a, d, i)
    requires DeviceAt(txs, n, a, d) ==
             Some(if RevokedBy(txs, n - 1, a, d) then DeviceAt(txs, n - 1, a, d).value.(revoked := true)
                  else DeviceAt(txs, n - 1, a, d).value)
    ensures Granted(txs, n, a, d, i)
  {
    hide Step;
    var was, now := DeviceAt(txs, n - 1, a, d).value, DeviceAt(txs, n, a, d).value;
    if exists j: nat | i < j < n :: RevokedBy(txs, j, a, d) {
      var j: nat :| i < j < n && RevokedBy(txs, j, a, d);
      assert now.revoked by {
        if j < n - 1 {
          assert was.revoked;
        }
      }
    }
  }

  /** `d` acts for `a` at `n` on an authorisation by the present owner that nothing has undone. */
  ghost predicate Authority(txs: seq<Tx>, n: nat, a: Bytes, d: Bytes, capability: bv32, now: u64, i: nat) {
    && i < n <= |txs|
    && Succeeds(txs, i)
    && txs[i].call.AuthorizeDevice? && txs[i].call.account == a && txs[i].call.device == d
    && OwnerAt(txs, n, a).Some? && OwnerAt(txs, i, a) == OwnerAt(txs, n, a)
    && OwnerAt(txs, n, a).value in txs[i].ctx.signers
    && (forall j: nat | i <= j < n :: !(Succeeds(txs, j) && txs[j].call == Call.ExecuteRecovery(a)))
    && (forall j: nat | i < j < n :: !RevokedBy(txs, j, a, d))
    && now < txs[i].call.expiresAt
    && Grants(txs[i].call.capabilities, capability)
  }

  /** Without a recovery in between, nothing recovers an account and its owner stays. */
  lemma {:induction false} SameRecoveriesSameOwner(txs: seq<Tx>, i: nat, n: nat, a: Bytes)
    requires i <= n <= |txs| && OwnerAt(txs, i, a).Some?
    requires Recoveries(txs, i, a) == Recoveries(txs, n, a)
    ensures OwnerAt(txs, n, a) == OwnerAt(txs, i, a)
    ensures forall j: nat | i <= j < n :: !(Succeeds(txs, j) && txs[j].call == Call.ExecuteRecovery(a))
    decreases n
  {
    hide Step, StateAt, OwnerAt;
    if i < n {
      RecoveriesMonotone(txs, i, n - 1, a);
      SameRecoveriesSameOwner(txs, i, n - 1, a);
      if OwnerAt(txs, n, a) != OwnerAt(txs, n - 1, a) {
        OwnerStep(txs, n - 1, a);
      }
    }
  }

  lemma OwnerStep(txs: seq<Tx>, n: nat, a: Bytes)
    requires n < |txs| && OwnerAt(txs, n, a).Some?
    requires OwnerAt(txs, n + 1, a) != OwnerAt(txs, n, a)
    ensures Succeeds(txs, n) && txs[n].call == Call.ExecuteRecovery(a)
  {
    StepKeepsIdentities(StateAt(txs, n), txs[n], a);
    OnlyExecutionChangesOwner(StateAt(txs, n), txs[n], a);
  }

  /**
   * Device authority: whenever the contract resolves `a` to a device, the present owner authorised
   * that device after the last recovery, did not revoke it since, and it is unexpired and holds
   * the capability. The u32 epoch distinguishes recoveries as long as there are fewer than 2^32.
   */
  lemma DeviceAuthority(txs: seq<Tx>, n: nat, a: Bytes, d: Bytes, capability: bv32, now: u64)
    requires ValidRun(txs) && n <= |txs|
    requires Recoveries(txs, n, a) < U32_MODULUS
    requires d != [] && d != a
    requires Resolve(StateAt(txs, n), a, d, capability, now).Resolved?
    ensures Resolve(StateAt(txs, n), a, d, capability, now).signer == d
    ensures exists i: nat :: Authority(txs, n, a, d, capability, now, i)
  {
    hide Step;
    ReachableOk(txs, n, a);
    DevicesAlwaysOk(txs, n);
    var key := DeviceKey(a, d);
    var dev := StateAt(txs, n).devices[key];
    assert |key| == 2 * ADDRESS_LENGTH;
    var i := EveryDeviceGranted(txs, n, a, d);
    EpochCountsRecoveries(txs, i, a);
    EpochCountsRecoveries(txs, n, a);
    RecoveriesMonotone(txs, i, n, a);
    SameRecoveriesSameOwner(txs, i, n, a);
    assert forall j: nat | i < j < n :: !RevokedBy(txs, j, a, d);
    assert Authority(txs, n, a, d, capability, now, i);
  }

  /**
   * Exactly when a recorded device is accepted: its authorisation `i` is unexpired, covers the
   * capability and was not revoked since, and the number of recoveries since is a multiple of the u32
   * range. Below 2^32 recoveries that is none, which is `DeviceAuthority`; the counter does wrap.
   */
  lemma DeviceAcceptedExactly(txs: seq<Tx>, n: nat, a: Bytes, d: Bytes, capability: bv32, now: u64) returns (i: nat)
    requires ValidRun(txs) && n <= |txs|
    requires IsAddress(a) && IsAddress(d) && d != a && a in StateAt(txs, n).identities && DeviceAt(txs, n, a, d).Some?
    ensures Granted(txs, n, a, d, i)
    ensures Resolve(StateAt(txs, n), a, d, capability, now).Resolved? <==>
              && now < txs[i].call.expiresAt && Grants(txs[i].call.capabilities, capability)
              && (forall j: nat | i < j < n :: !RevokedBy(txs, j, a, d))
              && Recoveries(txs, i, a) % U32_MODULUS == Recoveries(txs, n, a) % U32_MODULUS
  {
    hide Step, Grants;
    i := EveryDeviceGranted(txs, n, a, d);
    EpochCountsRecoveries(txs, i, a);
    EpochCountsRecoveries(txs, n, a);
  }

  /**
   * Resolution as the protocol description puts it: the owner for the account itself, otherwise a recorded,
   * unrevoked, unexpired device of the current epoch that shares a capability bit with the request.
   */
  ghost predicate Described(s: Storage, a: Bytes, d: Bytes, capability: bv32, now: u64) {
    && a != [] && a in s.identities
    && (d == [] || d == a
        || (DeviceInForce(s, a, d, now) && SharesBit(s.devices[DeviceKey(a, d)].capabilities, capability)))
  }

  predicate SharesBit(capabilities: bv32, capability: bv32) {
    capabilities & capability != 0
  }

  /** Recorded, unrevoked, unexpired and of the current epoch. */
  ghost predicate DeviceInForce(s: Storage, a: Bytes, d: Bytes, now: u64) {
    && a in s.identities && DeviceKey(a, d) in s.devices
    && var dev := s.devices[DeviceKey(a, d)];
       !dev.revoked && dev.deviceEpoch == s.identities[a].deviceEpoch && now < dev.expiresAt
  }

  /**
   * The contract differs from the description exactly where a device in force is asked for capability 0: the
   * contract accepts it, and no capability bit is shared.
   */
  lemma CapabilityZeroDiffers(s: Storage, a: Bytes, d: Bytes, capability: bv32, now: u64)
    ensures Described(s, a, d, capability, now) ==> Resolve(s, a, d, capability, now).Resolved?
    ensures Resolve(s, a, d, capability, now).Resolved? && !Described(s, a, d, capability, now) <==>
            capability == 0 && a != [] && d != [] && d != a && DeviceInForce(s, a, d, now)
  {
    if DeviceInForce(s, a, d, now) {
      GrantsOrZero(s.devices[DeviceKey(a, d)].capabilities, capability);
    }
    hide Grants, SharesBit;
  }

  lemma GrantsOrZero(capabilities: bv32, capability: bv32)
    ensures Grants(capabilities, capability) <==> capability == 0 || SharesBit(capabilities, capability)
    ensures capability == 0 ==> !SharesBit(capabilities, capability)
  {
  }

  /**
   * After an executed recovery a device is accepted exactly when its record carries the new epoch and is otherwise
   * good.
   */
  lemma RecoveryVoidsDevices(s: Storage, tx: Tx, a: Bytes, d: Bytes, capability: bv32, now: u64)
    requires tx.call == Call.ExecuteRecovery(a) && Step(s, tx).Committed?
    requires d != [] && d != a
    ensures var s' := After(s, Step(s, tx));
            Resolve(s', a, d, capability, now).Resolved? <==>
              && DeviceKey(a, d) in s.devices
              && var dev := s.devices[DeviceKey(a, d)];
                 && !dev.revoked && now < dev.expiresAt && Grants(dev.capabilities, capability)
                 && dev.deviceEpoch == IncU32(s.identities[a].deviceEpoch)
  {
  }

  /** Right after a recovery every accepted resolution of the account names the new owner. */
  lemma OnlyNewOwnerAfterRecovery(txs: seq<Tx>, n: nat, a: Bytes, d: Bytes, capability: bv32, now: u64)
    requires ValidRun(txs) && n < |txs|
    requires Succeeds(txs, n) && txs[n].call == Call.ExecuteRecovery(a)
    requires Recoveries(txs, n + 1, a) < U32_MODULUS
    requires Resolve(StateAt(txs, n + 1), a, d, capability, now).Resolved?
    ensures PendingAt(txs, n, a).Some?
    ensures Resolve(StateAt(txs, n + 1), a, d, capability, now).signer == PendingAt(txs, n, a).value.newOwner
  {
    assert StateAt(txs, n + 1) == After(StateAt(txs, n), Step(StateAt(txs, n), txs[n]));
    if d != [] && d != a {
      DeviceAuthority(txs, n + 1, a, d, capability, now);
      assert false;
    }
  }
}
