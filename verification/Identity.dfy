/**
 * The identity contract (`identity/assembly/Identity.ts`): storage records, the effect of every
 * entry point as a function of the old storage, and the class whose methods load, assign and put
 * the records. A reverted transaction leaves storage and the event log as they were.
 */
module Identity {
  import opened Wrappers
  import opened Bytes

  const PROTOCOL_VERSION: u32 := 1
  const ENCRYPTION_KEY_LENGTH := 32
  const HASH_LENGTH := 32
  const MAX_PROFILE_URI_CHARS := 512
  const MAX_LABEL_CHARS := 64
  const MAX_CAPABILITIES: bv32 := 255
  const DAY_MS: u64 := 86_400_000
  const MAX_DEVICE_LIFETIME_MS: u64 := 31_622_400_000  // 366 days
  const MAX_RECOVERY_DELAY_MS: u64 := 31_536_000_000  // 365 days
  const MAX_GUARDIANS := 16

  /** The capability bit `update_profile` asks for. */
  const CAPABILITY_PROFILE: bv32 := 32

  // -------------------------------------------------------------------------
  // Records. Null and empty byte strings are the same thing to the contract
  // (`Util.isEmpty`), and so are null and empty strings; both are empty here.
  // -------------------------------------------------------------------------

  datatype IdentityRecord = IdentityRecord(
    account: Bytes,
    owner: Bytes,
    encryptionKey: Bytes,
    keyVersion: u32,
    profileHash: Bytes,
    profileUri: string,
    protocolVersion: u32,
    deviceEpoch: u32,
    registeredAt: u64,
    updatedAt: u64)

  datatype DeviceRecord = DeviceRecord(
    account: Bytes,
    device: Bytes,
    capabilities: bv32,
    expiresAt: u64,
    deviceEpoch: u32,
    revoked: bool,
    deviceLabel: string,
    authorizedAt: u64)

  datatype Policy = Policy(guardians: seq<Bytes>, threshold: u32, delayMs: u64)

  datatype PendingPolicy = PendingPolicy(policy: Policy, effectiveAt: u64)

  datatype PendingRecovery = PendingRecovery(
    newOwner: Bytes,
    approvals: seq<Bytes>,
    effectiveAt: u64,
    proposedAt: u64)

  datatype RecoveryState = RecoveryState(
    policy: Option<Policy>,
    pendingPolicy: Option<PendingPolicy>,
    pendingRecovery: Option<PendingRecovery>)

  const NoRecovery := RecoveryState(None, None, None)

  datatype Storage = Storage(
    identities: map<Bytes, IdentityRecord>,
    devices: map<Bytes, DeviceRecord>,
    recovery: map<Bytes, RecoveryState>)

  const EmptyStorage := Storage(map[], map[], map[])

  datatype Event =
    | Registered(account: Bytes, encryptionKey: Bytes, keyVersion: u32, profileHash: Bytes, profileUri: string,
                 protocolVersion: u32, timestamp: u64)
    | ProfileUpdated(account: Bytes, profileHash: Bytes, profileUri: string, timestamp: u64)
    | KeyRotated(account: Bytes, previousVersion: u32, encryptionKey: Bytes, keyVersion: u32, timestamp: u64)
    | DeviceAuthorized(account: Bytes, device: Bytes, capabilities: bv32, expiresAt: u64, deviceLabel: string,
                       deviceEpoch: u32, timestamp: u64)
    | DeviceRevoked(account: Bytes, device: Bytes, timestamp: u64)
    | PolicySet(account: Bytes, policy: Policy, timestamp: u64)
    | PolicyProposed(account: Bytes, policy: Policy, effectiveAt: u64)
    | PolicyCancelled(account: Bytes, timestamp: u64)
    | RecoveryProposed(account: Bytes, guardian: Bytes, newOwner: Bytes, approvals: u32, threshold: u32,
                       effectiveAt: u64, timestamp: u64)
    | RecoveryCancelled(account: Bytes, timestamp: u64)
    | Recovered(account: Bytes, previousOwner: Bytes, newOwner: Bytes, deviceEpoch: u32, timestamp: u64)

  /**
   * What the chain knows about a transaction: head block time and the addresses whose contract_call authority it has.
   */
  datatype Context = Context(now: u64, signers: set<Bytes>)

  datatype Call =
    | Register(account: Bytes, encryptionKey: Bytes, keyVersion: u32, profileHash: Bytes, profileUri: string)
    | UpdateProfile(account: Bytes, device: Bytes, profileHash: Bytes, profileUri: string)
    | RotateEncryptionKey(account: Bytes, encryptionKey: Bytes, keyVersion: u32)
    | AuthorizeDevice(account: Bytes, device: Bytes, capabilities: bv32, expiresAt: u64, deviceLabel: string)
    | RevokeDevice(account: Bytes, device: Bytes)
    | SetRecoveryPolicy(account: Bytes, policy: Option<Policy>)
    | ApplyRecoveryPolicy(account: Bytes)
    | CancelRecoveryPolicy(account: Bytes)
    | ProposeRecovery(account: Bytes, guardian: Bytes, newOwner: Bytes)
    | CancelRecovery(account: Bytes)
    | ExecuteRecovery(account: Bytes)

  datatype Tx = Tx(ctx: Context, call: Call)

  datatype Outcome = Reverted | Committed(storage: Storage, events: seq<Event>)

  datatype Reason = Unregistered | UnknownDevice | Revoked | EpochExpired | Expired | CapabilityNotGranted

  datatype Resolution = Resolved(signer: Bytes) | Refused(reason: Reason)

  // -------------------------------------------------------------------------
  // Reads
  // -------------------------------------------------------------------------

  /** Under which key a device record is put. */
  function DeviceKey(account: Bytes, device: Bytes): Bytes {
    account + device
  }

  /** The recovery state; an empty one when unset. */
  function RecoveryOf(s: Storage, account: Bytes): RecoveryState {
    if account in s.recovery then s.recovery[account] else NoRecovery
  }

  /** Capability 0 asks for nothing; any other needs a bit in common. */
  predicate Grants(capabilities: bv32, capability: bv32) {
    capability == 0 || capabilities & capability != 0
  }

  /** Who must sign for `account` through `device` with `capability`. */
  function Resolve(s: Storage, account: Bytes, device: Bytes, capability: bv32, now: u64): Resolution {
    if account == [] || account !in s.identities then Refused(Unregistered)
    else if device == [] || device == account then Resolved(s.identities[account].owner)
    else if DeviceKey(account, device) !in s.devices then Refused(UnknownDevice)
    else
      var dev := s.devices[DeviceKey(account, device)];
      if dev.revoked then Refused(Revoked)
      else if dev.deviceEpoch != s.identities[account].deviceEpoch then Refused(EpochExpired)
      else if dev.expiresAt <= now then Refused(Expired)
      else if !Grants(dev.capabilities, capability) then Refused(CapabilityNotGranted)
      else Resolved(device)
  }

  /** Distinct guardians other than the account, a threshold they can meet, a bounded delay. */
  predicate ValidPolicy(p: Policy, account: Bytes) {
    && 1 <= |p.guardians| <= MAX_GUARDIANS
    && (forall i | 0 <= i < |p.guardians| :: IsAddress(p.guardians[i]) && p.guardians[i] != account)
    && (forall i, j | 0 <= j < i < |p.guardians| :: p.guardians[j] != p.guardians[i])
    && 1 <= p.threshold <= |p.guardians|
    && p.delayMs <= MAX_RECOVERY_DELAY_MS
  }

  predicate OptionalHash(v: Bytes) {
    v == [] || |v| == HASH_LENGTH
  }

  /** The account is registered and its current owner signed. */
  predicate OwnerSigned(s: Storage, ctx: Context, account: Bytes) {
    IsAddress(account) && account in s.identities && s.identities[account].owner in ctx.signers
  }

  // -------------------------------------------------------------------------
  // Effects of the entry points
  // -------------------------------------------------------------------------

  function PutIdentity(s: Storage, rec: IdentityRecord): Storage {
    s.(identities := s.identities[rec.account := rec])
  }

  function PutRecovery(s: Storage, account: Bytes, state: RecoveryState): Storage {
    s.(recovery := s.recovery[account := state])
  }

  function StepRegister(s: Storage, ctx: Context, account: Bytes, encryptionKey: Bytes, keyVersion: u32,
                        profileHash: Bytes, profileUri: string): Outcome
  {
    if IsAddress(account) && account in ctx.signers && account !in s.identities
       && |encryptionKey| == ENCRYPTION_KEY_LENGTH && keyVersion >= 1
       && OptionalHash(profileHash) && |profileUri| <= MAX_PROFILE_URI_CHARS
    then
      var rec := IdentityRecord(account, account, encryptionKey, keyVersion, profileHash, profileUri,
                                PROTOCOL_VERSION, 0, ctx.now, ctx.now);
      Committed(s.(identities := s.identities[account := rec]),
                [Registered(account, encryptionKey, keyVersion, profileHash, profileUri, PROTOCOL_VERSION, ctx.now)])
    else Reverted
  }

  function StepUpdateProfile(s: Storage, ctx: Context, account: Bytes, device: Bytes, profileHash: Bytes,
                             profileUri: string): Outcome
  {
    var resolved := Resolve(s, account, device, CAPABILITY_PROFILE, ctx.now);
    if IsAddress(account) && resolved.Resolved? && resolved.signer in ctx.signers
       && OptionalHash(profileHash) && |profileUri| <= MAX_PROFILE_URI_CHARS
    then
      var rec := s.identities[account].(profileHash := profileHash, profileUri := profileUri, updatedAt := ctx.now);
      Committed(s.(identities := s.identities[account := rec]),
                [ProfileUpdated(account, profileHash, profileUri, ctx.now)])
    else Reverted
  }

  function StepRotateEncryptionKey(s: Storage, ctx: Context, account: Bytes, encryptionKey: Bytes,
                                   keyVersion: u32): Outcome
  {
    if OwnerSigned(s, ctx, account) && |encryptionKey| == ENCRYPTION_KEY_LENGTH
       && keyVersion > s.identities[account].keyVersion
    then
      var rec := s.identities[account];
      var rec' := rec.(encryptionKey := encryptionKey, keyVersion := keyVersion, updatedAt := ctx.now);
      Committed(s.(identities := s.identities[account := rec']),
                [KeyRotated(account, rec.keyVersion, encryptionKey, keyVersion, ctx.now)])
    else Reverted
  }

  function StepAuthorizeDevice(s: Storage, ctx: Context, account: Bytes, device: Bytes, capabilities: bv32,
                               expiresAt: u64, deviceLabel: string): Outcome
  {
    if OwnerSigned(s, ctx, account) && IsAddress(device) && device != account
       && capabilities != 0 && capabilities <= MAX_CAPABILITIES
       && ctx.now < expiresAt <= AddU64(ctx.now, MAX_DEVICE_LIFETIME_MS)
       && |deviceLabel| <= MAX_LABEL_CHARS
    then
      var epoch := s.identities[account].deviceEpoch;
      var dev := DeviceRecord(account, device, capabilities, expiresAt, epoch, false, deviceLabel, ctx.now);
      Committed(s.(devices := s.devices[DeviceKey(account, device) := dev]),
                [DeviceAuthorized(account, device, capabilities, expiresAt, deviceLabel, epoch, ctx.now)])
    else Reverted
  }

  function StepRevokeDevice(s: Storage, ctx: Context, account: Bytes, device: Bytes): Outcome {
    var key := DeviceKey(account, device);
    if OwnerSigned(s, ctx, account) && IsAddress(device) && key in s.devices then
      Committed(s.(devices := s.devices[key := s.devices[key].(revoked := true)]),
                [DeviceRevoked(account, device, ctx.now)])
    else Reverted
  }

  function StepSetRecoveryPolicy(s: Storage, ctx: Context, account: Bytes, policy: Option<Policy>): Outcome {
    if OwnerSigned(s, ctx, account) && policy.Some? && ValidPolicy(policy.value, account) then
      var state := RecoveryOf(s, account);
      if state.policy.None? then
        Committed(PutRecovery(s, account, state.(policy := policy, pendingPolicy := None)),
                  [PolicySet(account, policy.value, ctx.now)])
      else
        var effectiveAt := AddU64(ctx.now, state.policy.value.delayMs);
        Committed(PutRecovery(s, account, state.(pendingPolicy := Some(PendingPolicy(policy.value, effectiveAt)))),
                  [PolicyProposed(account, policy.value, effectiveAt)])
    else Reverted
  }

  function StepApplyRecoveryPolicy(s: Storage, ctx: Context, account: Bytes): Outcome {
    var state := RecoveryOf(s, account);
    if IsAddress(account) && account in s.identities && state.pendingPolicy.Some?
       && ctx.now >= state.pendingPolicy.value.effectiveAt
    then
      var policy := state.pendingPolicy.value.policy;
      Committed(PutRecovery(s, account, RecoveryState(Some(policy), None, None)),
                (if state.pendingRecovery.Some? then [RecoveryCancelled(account, ctx.now)] else [])
                + [PolicySet(account, policy, ctx.now)])
    else Reverted
  }

  function StepCancelRecoveryPolicy(s: Storage, ctx: Context, account: Bytes): Outcome {
    var state := RecoveryOf(s, account);
    if OwnerSigned(s, ctx, account) && state.pendingPolicy.Some? then
      Committed(PutRecovery(s, account, state.(pendingPolicy := None)), [PolicyCancelled(account, ctx.now)])
    else Reverted
  }

  /** The approval set after `guardian` proposes `newOwner`; None when the guardian already approved it. */
  function Approve(existing: Option<PendingRecovery>, guardian: Bytes, newOwner: Bytes, policy: Policy, now: u64)
    : Option<PendingRecovery>
  {
    var base :=
      if existing.None? || existing.value.newOwner != newOwner then
        Some(PendingRecovery(newOwner, [guardian], 0, now))
      else if guardian in existing.value.approvals then None
      else Some(existing.value.(approvals := existing.value.approvals + [guardian]));
    if base.Some? && base.value.effectiveAt == 0 && |base.value.approvals| % U32_MODULUS >= policy.threshold then
      Some(base.value.(effectiveAt := AddU64(now, policy.delayMs)))
    else base
  }

  function StepProposeRecovery(s: Storage, ctx: Context, account: Bytes, guardian: Bytes, newOwner: Bytes): Outcome {
    var state := RecoveryOf(s, account);
    if IsAddress(account) && IsAddress(guardian) && guardian in ctx.signers && account in s.identities
       && state.policy.Some? && guardian in state.policy.value.guardians
       && IsAddress(newOwner) && newOwner != s.identities[account].owner
    then
      var policy := state.policy.value;
      var pending := Approve(state.pendingRecovery, guardian, newOwner, policy, ctx.now);
      if pending.None? then Reverted
      else
        Committed(PutRecovery(s, account, state.(pendingRecovery := pending)),
                  [RecoveryProposed(account, guardian, newOwner, |pending.value.approvals| % U32_MODULUS,
                                    policy.threshold, pending.value.effectiveAt, ctx.now)])
    else Reverted
  }

  function StepCancelRecovery(s: Storage, ctx: Context, account: Bytes): Outcome {
    var state := RecoveryOf(s, account);
    if OwnerSigned(s, ctx, account) && state.pendingRecovery.Some? then
      Committed(PutRecovery(s, account, state.(pendingRecovery := None)), [RecoveryCancelled(account, ctx.now)])
    else Reverted
  }

  function StepExecuteRecovery(s: Storage, ctx: Context, account: Bytes): Outcome {
    var state := RecoveryOf(s, account);
    if IsAddress(account) && account in s.identities && state.pendingRecovery.Some?
       && state.pendingRecovery.value.effectiveAt != 0 && ctx.now >= state.pendingRecovery.value.effectiveAt
    then
      var rec := s.identities[account];
      var newOwner := state.pendingRecovery.value.newOwner;
      var epoch := IncU32(rec.deviceEpoch);
      var rec' := rec.(owner := newOwner, deviceEpoch := epoch, updatedAt := ctx.now);
      Committed(Storage(s.identities[account := rec'], s.devices,
                        s.recovery[account := state.(pendingPolicy := None, pendingRecovery := None)]),
                (if state.pendingPolicy.Some? then [PolicyCancelled(account, ctx.now)] else [])
                + [Recovered(account, rec.owner, newOwner, epoch, ctx.now)])
    else Reverted
  }

  /** The outcome of one transaction. */
  function Step(s: Storage, tx: Tx): Outcome {
    match tx.call
    case Register(a, key, version, hash, uri) => StepRegister(s, tx.ctx, a, key, version, hash, uri)
    case UpdateProfile(a, device, hash, uri) => StepUpdateProfile(s, tx.ctx, a, device, hash, uri)
    case RotateEncryptionKey(a, key, version) => StepRotateEncryptionKey(s, tx.ctx, a, key, version)
    case AuthorizeDevice(a, device, caps, expiresAt, deviceLabel) =>
        StepAuthorizeDevice(s, tx.ctx, a, device, caps, expiresAt, deviceLabel)
    case RevokeDevice(a, device) => StepRevokeDevice(s, tx.ctx, a, device)
    case SetRecoveryPolicy(a, policy) => StepSetRecoveryPolicy(s, tx.ctx, a, policy)
    case ApplyRecoveryPolicy(a) => StepApplyRecoveryPolicy(s, tx.ctx, a)
    case CancelRecoveryPolicy(a) => StepCancelRecoveryPolicy(s, tx.ctx, a)
    case ProposeRecovery(a, guardian, newOwner) => StepProposeRecovery(s, tx.ctx, a, guardian, newOwner)
    case CancelRecovery(a) => StepCancelRecovery(s, tx.ctx, a)
    case ExecuteRecovery(a) => StepExecuteRecovery(s, tx.ctx, a)
  }

  /** Storage after the outcome of a transaction that started from `s`. */
  function After(s: Storage, o: Outcome): Storage {
    if o.Committed? then o.storage else s
  }

  function EventsOf(o: Outcome): seq<Event> {
    if o.Committed? then o.events else []
  }

  // -------------------------------------------------------------------------
  // The contract
  // -------------------------------------------------------------------------

  class Identity {
    var identities: map<Bytes, IdentityRecord>
    var devices: map<Bytes, DeviceRecord>
    var recovery: map<Bytes, RecoveryState>
    /** Everything emitted so far, in order. */
    var events: seq<Event>

    constructor ()
      ensures Stored() == EmptyStorage && events == []
    {
      identities, devices, recovery, events := map[], map[], map[], [];
    }

    function Stored(): Storage
      reads this
    {
      Storage(identities, devices, recovery)
    }

    method Emit(event: Event)
      modifies this`events
      ensures events == old(events) + [event]
    {
      events := events + [event];
    }

    method DeviceStorageKey(account: Bytes, device: Bytes) returns (key: Bytes)
      ensures key == DeviceKey(account, device)
    {
      var buffer := Concat([account, device]);
      key := buffer[..];
      assert [account, device][1..] == [device];
      assert Flatten([device]) == device + Flatten([]);
    }

    /** Membership, by a loop over the list. */
    method Contains(list: seq<Bytes>, addr: Bytes) returns (found: bool)
      ensures found <==> addr in list
    {
      for i := 0 to |list|
        invariant addr !in list[..i]
      {
        if list[i] == addr {
          return true;
        }
      }
      return false;
    }

    method ValidatePolicy(policy: Policy, account: Bytes) returns (ok: bool)
      ensures ok <==> ValidPolicy(policy, account)
    {
      var guardians := policy.guardians;
      if |guardians| < 1 || |guardians| > MAX_GUARDIANS {
        return false;
      }
      for i := 0 to |guardians|
        invariant forall k | 0 <= k < i :: IsAddress(guardians[k]) && guardians[k] != account
        invariant forall k, j | 0 <= j < k < i :: guardians[j] != guardians[k]
      {
        var g := guardians[i];
        if !IsAddress(g) || g == account {
          return false;
        }
        for j := 0 to i
          invariant forall k | 0 <= k < j :: guardians[k] != g
        {
          if guardians[j] == g {
            return false;
          }
        }
      }
      return policy.threshold >= 1 && policy.threshold <= |guardians| && policy.delayMs <= MAX_RECOVERY_DELAY_MS;
    }

    method LoadRecovery(account: Bytes) returns (state: RecoveryState)
      ensures state == RecoveryOf(Stored(), account)
    {
      if account in recovery {
        return recovery[account];
      }
      return NoRecovery;
    }

    /** Actor resolution; never reverts. */
    method ResolveActor(account: Bytes, device: Bytes, capability: bv32, now: u64) returns (r: Resolution)
      ensures r == Resolve(Stored(), account, device, capability, now)
    {
      if account == [] {
        return Refused(Unregistered);
      }
      if account !in identities {
        return Refused(Unregistered);
      }
      var rec := identities[account];
      if device == [] || device == account {
        return Resolved(rec.owner);
      }
      var key := DeviceStorageKey(account, device);
      if key !in devices {
        return Refused(UnknownDevice);
      }
      var dev := devices[key];
      if dev.revoked {
        return Refused(Revoked);
      }
      if dev.deviceEpoch != rec.deviceEpoch {
        return Refused(EpochExpired);
      }
      if dev.expiresAt <= now {
        return Refused(Expired);
      }
      if !Grants(dev.capabilities, capability) {
        return Refused(CapabilityNotGranted);
      }
      return Resolved(device);
    }

    method DoRegister(ctx: Context, account: Bytes, encryptionKey: Bytes, keyVersion: u32, profileHash: Bytes,
                      profileUri: string) returns (ok: bool)
      modifies this
      ensures var o := StepRegister(old(Stored()), ctx, account, encryptionKey, keyVersion, profileHash, profileUri);
              ok == o.Committed? && Stored() == After(old(Stored()), o) && events == old(events) + EventsOf(o)
    {
      if !IsAddress(account) || account !in ctx.signers || account in identities {
        return false;
      }
      if |encryptionKey| != ENCRYPTION_KEY_LENGTH || keyVersion < 1 {
        return false;
      }
      if !OptionalHash(profileHash) || |profileUri| > MAX_PROFILE_URI_CHARS {
        return false;
      }
      var rec := IdentityRecord(account, account, encryptionKey, keyVersion, profileHash, profileUri,
                                PROTOCOL_VERSION, 0, ctx.now, ctx.now);
      identities := identities[account := rec];
      Emit(Registered(account, encryptionKey, keyVersion, profileHash, profileUri, PROTOCOL_VERSION, ctx.now));
      return true;
    }

    method DoUpdateProfile(ctx: Context, account: Bytes, device: Bytes, profileHash: Bytes, profileUri: string)
      returns (ok: bool)
      modifies this
      ensures var o := StepUpdateProfile(old(Stored()), ctx, account, device, profileHash, profileUri);
              ok == o.Committed? && Stored() == After(old(Stored()), o) && events == old(events) + EventsOf(o)
    {
      if !IsAddress(account) {
        return false;
      }
      var resolved := ResolveActor(account, device, CAPABILITY_PROFILE, ctx.now);
      if resolved.Refused? || resolved.signer !in ctx.signers {
        return false;
      }
      if !OptionalHash(profileHash) || |profileUri| > MAX_PROFILE_URI_CHARS {
        return false;
      }
      var rec := identities[account].(profileHash := profileHash, profileUri := profileUri, updatedAt := ctx.now);
      identities := identities[account := rec];
      Emit(ProfileUpdated(account, profileHash, profileUri, ctx.now));
      return true;
    }

    method DoRotateEncryptionKey(ctx: Context, account: Bytes, encryptionKey: Bytes, keyVersion: u32)
      returns (ok: bool)
      modifies this
      ensures var o := StepRotateEncryptionKey(old(Stored()), ctx, account, encryptionKey, keyVersion);
              ok == o.Committed? && Stored() == After(old(Stored()), o) && events == old(events) + EventsOf(o)
    {
      if !IsAddress(account) || account !in identities {
        return false;
      }
      var rec := identities[account];
      if rec.owner !in ctx.signers || |encryptionKey| != ENCRYPTION_KEY_LENGTH || keyVersion <= rec.keyVersion {
        return false;
      }
      var previous := rec.keyVersion;
      rec := rec.(encryptionKey := encryptionKey, keyVersion := keyVersion, updatedAt := ctx.now);
      identities := identities[account := rec];
      Emit(KeyRotated(account, previous, encryptionKey, keyVersion, ctx.now));
      return true;
    }

    method DoAuthorizeDevice(ctx: Context, account: Bytes, device: Bytes, capabilities: bv32, expiresAt: u64,
                             deviceLabel: string) returns (ok: bool)
      modifies this
      ensures var o := StepAuthorizeDevice(old(Stored()), ctx, account, device, capabilities, expiresAt, deviceLabel);
              ok == o.Committed? && Stored() == After(old(Stored()), o) && events == old(events) + EventsOf(o)
    {
      if !IsAddress(account) || account !in identities {
        return false;
      }
      var rec := identities[account];
      if rec.owner !in ctx.signers || !IsAddress(device) || device == account {
        return false;
      }
      if capabilities == 0 || capabilities > MAX_CAPABILITIES {
        return false;
      }
      if expiresAt <= ctx.now || expiresAt > AddU64(ctx.now, MAX_DEVICE_LIFETIME_MS)
         || |deviceLabel| > MAX_LABEL_CHARS {
        return false;
      }
      var dev := DeviceRecord(account, device, capabilities, expiresAt, rec.deviceEpoch, false, deviceLabel, ctx.now);
      var key := DeviceStorageKey(account, device);
      devices := devices[key := dev];
      Emit(DeviceAuthorized(account, device, capabilities, expiresAt, deviceLabel, rec.deviceEpoch, ctx.now));
      return true;
    }

    /** Idempotent: revoking a revoked device succeeds and emits again. */
    method DoRevokeDevice(ctx: Context, account: Bytes, device: Bytes) returns (ok: bool)
      modifies this
      ensures var o := StepRevokeDevice(old(Stored()), ctx, account, device);
              ok == o.Committed? && Stored() == After(old(Stored()), o) && events == old(events) + EventsOf(o)
    {
      if !IsAddress(account) || account !in identities || identities[account].owner !in ctx.signers {
        return false;
      }
      if !IsAddress(device) {
        return false;
      }
      var key := DeviceStorageKey(account, device);
      if key !in devices {
        return false;
      }
      devices := devices[key := devices[key].(revoked := true)];
      Emit(DeviceRevoked(account, device, ctx.now));
      return true;
    }

    method DoSetRecoveryPolicy(ctx: Context, account: Bytes, policy: Option<Policy>) returns (ok: bool)
      modifies this
      ensures var o := StepSetRecoveryPolicy(old(Stored()), ctx, account, policy);
              ok == o.Committed? && Stored() == After(old(Stored()), o) && events == old(events) + EventsOf(o)
    {
      if !IsAddress(account) || account !in identities || identities[account].owner !in ctx.signers {
        return false;
      }
      if policy.None? {
        return false;
      }
      var valid := ValidatePolicy(policy.value, account);
      if !valid {
        return false;
      }
      var state := LoadRecovery(account);
      if state.policy.None? {
        state := state.(policy := policy, pendingPolicy := None);
        recovery := recovery[account := state];
        Emit(PolicySet(account, policy.value, ctx.now));
      } else {
        var effectiveAt := AddU64(ctx.now, state.policy.value.delayMs);
        state := state.(pendingPolicy := Some(PendingPolicy(policy.value, effectiveAt)));
        recovery := recovery[account := state];
        Emit(PolicyProposed(account, policy.value, effectiveAt));
      }
      return true;
    }

    method DoApplyRecoveryPolicy(ctx: Context, account: Bytes) returns (ok: bool)
      modifies this
      ensures var o := StepApplyRecoveryPolicy(old(Stored()), ctx, account);
              ok == o.Committed? && Stored() == After(old(Stored()), o) && events == old(events) + EventsOf(o)
    {
      if !IsAddress(account) || account !in identities {
        return false;
      }
      var state := LoadRecovery(account);
      if state.pendingPolicy.None? || ctx.now < state.pendingPolicy.value.effectiveAt {
        return false;
      }
      var policy := state.pendingPolicy.value.policy;
      var voidedRecovery := state.pendingRecovery.Some?;
      state := state.(policy := Some(policy), pendingPolicy := None, pendingRecovery := None);
      recovery := recovery[account := state];
      if voidedRecovery {
        Emit(RecoveryCancelled(account, ctx.now));
      }
      Emit(PolicySet(account, policy, ctx.now));
      return true;
    }

    method DoCancelRecoveryPolicy(ctx: Context, account: Bytes) returns (ok: bool)
      modifies this
      ensures var o := StepCancelRecoveryPolicy(old(Stored()), ctx, account);
              ok == o.Committed? && Stored() == After(old(Stored()), o) && events == old(events) + EventsOf(o)
    {
      if !IsAddress(account) || account !in identities || identities[account].owner !in ctx.signers {
        return false;
      }
      var state := LoadRecovery(account);
      if state.pendingPolicy.None? {
        return false;
      }
      recovery := recovery[account := state.(pendingPolicy := None)];
      Emit(PolicyCancelled(account, ctx.now));
      return true;
    }

    method DoProposeRecovery(ctx: Context, account: Bytes, guardian: Bytes, newOwner: Bytes) returns (ok: bool)
      modifies this
      ensures var o := StepProposeRecovery(old(Stored()), ctx, account, guardian, newOwner);
              ok == o.Committed? && Stored() == After(old(Stored()), o) && events == old(events) + EventsOf(o)
    {
      if !IsAddress(account) || !IsAddress(guardian) || guardian !in ctx.signers || account !in identities {
        return false;
      }
      var rec := identities[account];
      var state := LoadRecovery(account);
      if state.policy.None? {
        return false;
      }
      var policy := state.policy.value;
      var isGuardian := Contains(policy.guardians, guardian);
      if !isGuardian || !IsAddress(newOwner) || newOwner == rec.owner {
        return false;
      }
      var pending;
      if state.pendingRecovery.None? || state.pendingRecovery.value.newOwner != newOwner {
        pending := PendingRecovery(newOwner, [guardian], 0, ctx.now);
      } else {
        pending := state.pendingRecovery.value;
        var already := Contains(pending.approvals, guardian);
        if already {
          return false;
        }
        pending := pending.(approvals := pending.approvals + [guardian]);
      }
      if pending.effectiveAt == 0 && |pending.approvals| % U32_MODULUS >= policy.threshold {
        pending := pending.(effectiveAt := AddU64(ctx.now, policy.delayMs));
      }
      recovery := recovery[account := state.(pendingRecovery := Some(pending))];
      Emit(RecoveryProposed(account, guardian, newOwner, |pending.approvals| % U32_MODULUS, policy.threshold,
                            pending.effectiveAt, ctx.now));
      return true;
    }

    method DoCancelRecovery(ctx: Context, account: Bytes) returns (ok: bool)
      modifies this
      ensures var o := StepCancelRecovery(old(Stored()), ctx, account);
              ok == o.Committed? && Stored() == After(old(Stored()), o) && events == old(events) + EventsOf(o)
    {
      if !IsAddress(account) || account !in identities || identities[account].owner !in ctx.signers {
        return false;
      }
      var state := LoadRecovery(account);
      if state.pendingRecovery.None? {
        return false;
      }
      recovery := recovery[account := state.(pendingRecovery := None)];
      Emit(RecoveryCancelled(account, ctx.now));
      return true;
    }

    method DoExecuteRecovery(ctx: Context, account: Bytes) returns (ok: bool)
      modifies this
      ensures var o := StepExecuteRecovery(old(Stored()), ctx, account);
              ok == o.Committed? && Stored() == After(old(Stored()), o) && events == old(events) + EventsOf(o)
    {
      if !IsAddress(account) || account !in identities {
        return false;
      }
      var rec := identities[account];
      var state := LoadRecovery(account);
      if state.pendingRecovery.None? {
        return false;
      }
      var pending := state.pendingRecovery.value;
      if pending.effectiveAt == 0 || ctx.now < pending.effectiveAt {
        return false;
      }
      var previousOwner := rec.owner;
      rec := rec.(owner := pending.newOwner, deviceEpoch := IncU32(rec.deviceEpoch), updatedAt := ctx.now);
      identities := identities[account := rec];
      var voidedPolicy := state.pendingPolicy.Some?;
      state := state.(pendingPolicy := None, pendingRecovery := None);
      recovery := recovery[account := state];
      if voidedPolicy {
        Emit(PolicyCancelled(account, ctx.now));
      }
      Emit(Recovered(account, previousOwner, pending.newOwner, rec.deviceEpoch, ctx.now));
      return true;
    }

    /** The entry-point dispatch: one transaction. */
    method Execute(tx: Tx) returns (ok: bool)
      modifies this
      ensures var o := Step(old(Stored()), tx);
              ok == o.Committed? && Stored() == After(old(Stored()), o) && events == old(events) + EventsOf(o)
    {
      match tx.call
      case Register(a, key, version, hash, uri) => ok := DoRegister(tx.ctx, a, key, version, hash, uri);
      case UpdateProfile(a, device, hash, uri) => ok := DoUpdateProfile(tx.ctx, a, device, hash, uri);
      case RotateEncryptionKey(a, key, version) => ok := DoRotateEncryptionKey(tx.ctx, a, key, version);
      case AuthorizeDevice(a, device, caps, expiresAt, deviceLabel) =>
        ok := DoAuthorizeDevice(tx.ctx, a, device, caps, expiresAt, deviceLabel);
      case RevokeDevice(a, device) => ok := DoRevokeDevice(tx.ctx, a, device);
      case SetRecoveryPolicy(a, policy) => ok := DoSetRecoveryPolicy(tx.ctx, a, policy);
      case ApplyRecoveryPolicy(a) => ok := DoApplyRecoveryPolicy(tx.ctx, a);
      case CancelRecoveryPolicy(a) => ok := DoCancelRecoveryPolicy(tx.ctx, a);
      case ProposeRecovery(a, guardian, newOwner) => ok := DoProposeRecovery(tx.ctx, a, guardian, newOwner);
      case CancelRecovery(a) => ok := DoCancelRecovery(tx.ctx, a);
      case ExecuteRecovery(a) => ok := DoExecuteRecovery(tx.ctx, a);
    }
  }
}
