/**
 * The communities contract (`communities/assembly/Communities.ts`): community records and ranked
 * roles in storage, the effect of every entry point as a function of the old storage, and the
 * class whose methods do it. A reverted transaction leaves storage and the event log as they were.
 */
module Communities {
  import opened Wrappers
  import opened Bytes
  import Id = Identity

  const ID_MAX_LENGTH := 32
  const NAME_MAX_LENGTH := 64
  const POLICY_HASH_LENGTH := 32
  const POLICY_URI_MAX_LENGTH := 256
  const SCOPE_MAX_LENGTH := 32
  const POST_ID_LENGTH := 32
  const LABEL_MAX_LENGTH := 64
  const REASON_MAX_LENGTH := 256
  const TRANSFER_DELAY_MAX_MS: u64 := 2_592_000_000  // 30 days

  const CAPABILITY_COMMUNITY: bv32 := 16

  const ROLE_NONE := 0
  const ROLE_ADMIN := 4
  const ROLE_OWNER := 5
  const ROLE_BANNED := 6
  const RANK_NONE := 0
  const RANK_MODERATOR := 3
  const RANK_ADMIN := 4
  const RANK_OWNER := 5
  const ROLE_MAX_VALUE := 6

  /** An empty pending owner stands for none. */
  datatype CommunityRecord = CommunityRecord(
    id: Bytes, owner: Bytes, name: string, policyHash: Bytes, policyUri: string, transferDelayMs: u64,
    pendingOwner: Bytes, transferEffectiveAt: u64, createdAt: u64, updatedAt: u64)

  datatype RoleRecord = RoleRecord(role: int, scope: Bytes, expiresAt: u64, grantedBy: Bytes, grantedAt: u64)

  /** `identityContract` is empty until it is configured. */
  datatype Storage = Storage(
    communities: map<Bytes, CommunityRecord>, roles: map<Bytes, RoleRecord>, identityContract: Bytes)

  const EmptyStorage := Storage(map[], map[], [])

  datatype Event =
    | CommunityCreated(id: Bytes, owner: Bytes, name: string, policyHash: Bytes, policyUri: string,
                       transferDelayMs: u64,
                       timestamp: u64)
    | RoleSet(id: Bytes, actor: Bytes, subject: Bytes, role: int, scope: Bytes, expiresAt: u64, timestamp: u64)
    | PolicyChanged(id: Bytes, actor: Bytes, policyHash: Bytes, policyUri: string, timestamp: u64)
    | TransferProposed(id: Bytes, owner: Bytes, newOwner: Bytes, effectiveAt: u64)
    | TransferCancelled(id: Bytes, timestamp: u64)
    | Transferred(id: Bytes, previousOwner: Bytes, newOwner: Bytes, timestamp: u64)
    | LabelSet(id: Bytes, actor: Bytes, postId: Bytes, text: string, reason: string, timestamp: u64)

  /**
   * What a transaction sees of the chain: head block time, the addresses whose contract_call
   * authority it has, and the storage of the identity contract at an address.
   */
  datatype Context = Context(now: u64, signers: set<Bytes>, identityAt: Bytes -> Id.Storage)

  datatype Call =
    | SetIdentityContract(address: Bytes)
    | CreateCommunity(creator: Bytes, id: Bytes, name: string, policyHash: Bytes, policyUri: string,
                      transferDelayMs: u64)
    | SetRole(id: Bytes, actor: Bytes, subject: Bytes, role: int, scope: Bytes, expiresAt: u64, device: Bytes)
    | SetPolicy(id: Bytes, actor: Bytes, policyHash: Bytes, policyUri: string, device: Bytes)
    | ProposeOwnerTransfer(id: Bytes, owner: Bytes, newOwner: Bytes)
    | CancelOwnerTransfer(id: Bytes, owner: Bytes)
    | ExecuteOwnerTransfer(id: Bytes)
    | SetLabel(id: Bytes, actor: Bytes, postId: Bytes, text: string, reason: string, device: Bytes)

  datatype Tx = Tx(ctx: Context, call: Call)

  datatype Outcome = Reverted | Committed(storage: Storage, events: seq<Event>)

  // -------------------------------------------------------------------------
  // Reads
  // -------------------------------------------------------------------------

  /** Storage key of a role. */
  function RoleKey(id: Bytes, subject: Bytes): Bytes {
    id + subject
  }

  /** Banned and none rank 0. */
  function Rank(role: int): int {
    if role == ROLE_BANNED || role == ROLE_NONE then RANK_NONE else role
  }

  /** Owner for the owner; otherwise the stored role unless it has expired. */
  function EffectiveRole(s: Storage, community: CommunityRecord, account: Bytes, now: u64): int {
    if community.owner == account then ROLE_OWNER
    else
      var rec := Lookup(s.roles, RoleKey(community.id, account));
      if rec.None? then ROLE_NONE
      else if rec.value.expiresAt != 0 && rec.value.expiresAt <= now then ROLE_NONE
      else rec.value.role
  }

  function EffectiveRank(s: Storage, community: CommunityRecord, account: Bytes, now: u64): int {
    Rank(EffectiveRole(s, community, account, now))
  }

  /** The signer the identity contract resolves has signed. */
  predicate Authorized(s: Storage, ctx: Context, account: Bytes, device: Bytes, capability: bv32) {
    && s.identityContract != []
    && var resolved := Id.Resolve(ctx.identityAt(s.identityContract), account, device, capability, ctx.now);
       resolved.Resolved? && resolved.signer in ctx.signers
  }

  predicate IsCommunityId(id: Bytes) {
    1 <= |id| <= ID_MAX_LENGTH
  }

  predicate OptionalPolicy(hash: Bytes, uri: string) {
    (hash == [] || |hash| == POLICY_HASH_LENGTH) && |uri| <= POLICY_URI_MAX_LENGTH
  }

  // -------------------------------------------------------------------------
  // Effects of the entry points
  // -------------------------------------------------------------------------

  function StepSetIdentityContract(s: Storage, ctx: Context, self: Bytes, address: Bytes): Outcome {
    if self in ctx.signers && IsAddress(address) then Committed(s.(identityContract := address), []) else Reverted
  }

  function StepCreateCommunity(s: Storage, ctx: Context, creator: Bytes, id: Bytes, name: string, policyHash: Bytes,
                               policyUri: string, transferDelayMs: u64): Outcome
  {
    if IsAddress(creator) && IsCommunityId(id) && 0 < |name| <= NAME_MAX_LENGTH && OptionalPolicy(policyHash, policyUri)
       && transferDelayMs <= TRANSFER_DELAY_MAX_MS
       && Authorized(s, ctx, creator, [], 0) && id !in s.communities
    then
      var rec := CommunityRecord(id, creator, name, policyHash, policyUri, transferDelayMs, [], 0, ctx.now, ctx.now);
      Committed(s.(communities := s.communities[id := rec]),
                [CommunityCreated(id, creator, name, policyHash, policyUri, transferDelayMs, ctx.now)])
    else Reverted
  }

  /** Who may set which role: owners any but the owner role, admins roles below admin of subjects below admin. */
  predicate MaySetRole(s: Storage, community: CommunityRecord, actor: Bytes, subject: Bytes, role: int, now: u64) {
    var actorRank := EffectiveRank(s, community, actor, now);
    && actorRank >= RANK_ADMIN
    && community.owner != subject
    && role != ROLE_OWNER
    && (actorRank < RANK_OWNER ==> Rank(role) < RANK_ADMIN && EffectiveRank(s, community, subject, now) < RANK_ADMIN)
  }

  function StepSetRole(s: Storage, ctx: Context, id: Bytes, actor: Bytes, subject: Bytes, role: int, scope: Bytes,
                       expiresAt: u64, device: Bytes): Outcome
  {
    if IsCommunityId(id) && IsAddress(actor) && IsAddress(subject) && 0 <= role <= ROLE_MAX_VALUE
       && |scope| <= SCOPE_MAX_LENGTH && (expiresAt == 0 || expiresAt > ctx.now)
       && id in s.communities && Authorized(s, ctx, actor, device, CAPABILITY_COMMUNITY)
       && MaySetRole(s, s.communities[id], actor, subject, role, ctx.now)
    then
      var key := RoleKey(id, subject);
      Committed(s.(roles := if role == ROLE_NONE then s.roles - {key}
                            else s.roles[key := RoleRecord(role, scope, expiresAt, actor, ctx.now)]),
                [RoleSet(id, actor, subject, role, scope, expiresAt, ctx.now)])
    else Reverted
  }

  function StepSetPolicy(s: Storage, ctx: Context, id: Bytes, actor: Bytes, policyHash: Bytes, policyUri: string,
                         device: Bytes): Outcome
  {
    if IsCommunityId(id) && IsAddress(actor) && OptionalPolicy(policyHash, policyUri) && id in s.communities
       && Authorized(s, ctx, actor, device, CAPABILITY_COMMUNITY)
       && EffectiveRank(s, s.communities[id], actor, ctx.now) >= RANK_ADMIN
    then
      var rec := s.communities[id].(policyHash := policyHash, policyUri := policyUri, updatedAt := ctx.now);
      Committed(s.(communities := s.communities[id := rec]), [PolicyChanged(id, actor, policyHash, policyUri, ctx.now)])
    else Reverted
  }

  function StepProposeOwnerTransfer(s: Storage, ctx: Context, id: Bytes, owner: Bytes, newOwner: Bytes): Outcome {
    if IsCommunityId(id) && IsAddress(owner) && IsAddress(newOwner) && owner != newOwner && id in s.communities
       && s.communities[id].owner == owner && Authorized(s, ctx, owner, [], 0)
    then
      var effectiveAt := AddU64(ctx.now, s.communities[id].transferDelayMs);
      var rec := s.communities[id].(pendingOwner := newOwner, transferEffectiveAt := effectiveAt, updatedAt := ctx.now);
      Committed(s.(communities := s.communities[id := rec]), [TransferProposed(id, owner, newOwner, effectiveAt)])
    else Reverted
  }

  function StepCancelOwnerTransfer(s: Storage, ctx: Context, id: Bytes, owner: Bytes): Outcome {
    if IsCommunityId(id) && IsAddress(owner) && id in s.communities && s.communities[id].owner == owner
       && Authorized(s, ctx, owner, [], 0) && s.communities[id].pendingOwner != []
    then
      var rec := s.communities[id].(pendingOwner := [], transferEffectiveAt := 0, updatedAt := ctx.now);
      Committed(s.(communities := s.communities[id := rec]), [TransferCancelled(id, ctx.now)])
    else Reverted
  }

  function StepExecuteOwnerTransfer(s: Storage, ctx: Context, id: Bytes): Outcome {
    if IsCommunityId(id) && id in s.communities && s.communities[id].pendingOwner != []
       && ctx.now >= s.communities[id].transferEffectiveAt
    then
      var was := s.communities[id];
      var rec := was.(owner := was.pendingOwner, pendingOwner := [], transferEffectiveAt := 0, updatedAt := ctx.now);
      Committed(Storage(s.communities[id := rec], s.roles - {RoleKey(id, was.pendingOwner)}, s.identityContract),
                [Transferred(id, was.owner, was.pendingOwner, ctx.now)])
    else Reverted
  }

  function StepSetLabel(s: Storage, ctx: Context, id: Bytes, actor: Bytes, postId: Bytes, text: string, reason: string,
                        device: Bytes): Outcome
  {
    if IsCommunityId(id) && IsAddress(actor) && |postId| == POST_ID_LENGTH && 0 < |text| <= LABEL_MAX_LENGTH
       && |reason| <= REASON_MAX_LENGTH && id in s.communities
       && Authorized(s, ctx, actor, device, CAPABILITY_COMMUNITY)
       && EffectiveRank(s, s.communities[id], actor, ctx.now) >= RANK_MODERATOR
    then Committed(s, [LabelSet(id, actor, postId, text, reason, ctx.now)])
    else Reverted
  }

  /** The outcome of one transaction on the contract deployed at `self`. */
  function Step(s: Storage, tx: Tx, self: Bytes): Outcome {
    match tx.call
    case SetIdentityContract(address) => StepSetIdentityContract(s, tx.ctx, self, address)
    case CreateCommunity(creator, id, name, hash, uri, delay) =>
        StepCreateCommunity(s, tx.ctx, creator, id, name, hash, uri, delay)
    case SetRole(id, actor, subject, role, scope, expiresAt, device) =>
      StepSetRole(s, tx.ctx, id, actor, subject, role, scope, expiresAt, device)
    case SetPolicy(id, actor, hash, uri, device) => StepSetPolicy(s, tx.ctx, id, actor, hash, uri, device)
    case ProposeOwnerTransfer(id, owner, newOwner) => StepProposeOwnerTransfer(s, tx.ctx, id, owner, newOwner)
    case CancelOwnerTransfer(id, owner) => StepCancelOwnerTransfer(s, tx.ctx, id, owner)
    case ExecuteOwnerTransfer(id) => StepExecuteOwnerTransfer(s, tx.ctx, id)
    case SetLabel(id, actor, postId, text, reason, device) =>
        StepSetLabel(s, tx.ctx, id, actor, postId, text, reason, device)
  }

  function After(s: Storage, o: Outcome): Storage {
    if o.Committed? then o.storage else s
  }

  function EventsOf(o: Outcome): seq<Event> {
    if o.Committed? then o.events else []
  }

  // -------------------------------------------------------------------------
  // The contract
  // -------------------------------------------------------------------------

  class Communities {
    const contractId: Bytes
    var communities: map<Bytes, CommunityRecord>
    var roles: map<Bytes, RoleRecord>
    var identityContract: Bytes
    /** Everything emitted so far, in order. */
    var events: seq<Event>

    constructor (contractId: Bytes)
      ensures Stored() == EmptyStorage && events == [] && this.contractId == contractId
    {
      this.contractId := contractId;
      communities, roles, identityContract, events := map[], map[], [], [];
    }

    function Stored(): Storage
      reads this
    {
      Storage(communities, roles, identityContract)
    }

    method RoleStorageKey(id: Bytes, subject: Bytes) returns (key: Bytes)
      ensures key == RoleKey(id, subject)
    {
      var buffer := Concat([id, subject]);
      key := buffer[..];
      assert [id, subject][1..] == [subject];
      assert Flatten([subject]) == subject + Flatten([]);
    }

    method RoleInEffect(community: CommunityRecord, account: Bytes, now: u64) returns (role: int)
      ensures role == EffectiveRole(Stored(), community, account, now)
    {
      if community.owner == account {
        return ROLE_OWNER;
      }
      var key := RoleStorageKey(community.id, account);
      if key !in roles {
        return ROLE_NONE;
      }
      var rec := roles[key];
      if rec.expiresAt != 0 && rec.expiresAt <= now {
        return ROLE_NONE;
      }
      return rec.role;
    }

    method DoSetIdentityContract(ctx: Context, address: Bytes) returns (ok: bool)
      modifies this
      ensures var o := StepSetIdentityContract(old(Stored()), ctx, contractId, address);
              ok == o.Committed? && Stored() == After(old(Stored()), o) && events == old(events) + EventsOf(o)
    {
      if contractId !in ctx.signers || !IsAddress(address) {
        return false;
      }
      identityContract := address;
      return true;
    }

    method DoCreateCommunity(ctx: Context, creator: Bytes, id: Bytes, name: string, policyHash: Bytes,
                             policyUri: string,
                             transferDelayMs: u64) returns (ok: bool)
      modifies this
      ensures var o := StepCreateCommunity(old(Stored()), ctx, creator, id, name, policyHash, policyUri,
                                           transferDelayMs);
              ok == o.Committed? && Stored() == After(old(Stored()), o) && events == old(events) + EventsOf(o)
    {
      hide Authorized;
      if !IsAddress(creator) || !IsCommunityId(id) || |name| == 0 || |name| > NAME_MAX_LENGTH
         || !OptionalPolicy(policyHash, policyUri) || transferDelayMs > TRANSFER_DELAY_MAX_MS {
        return false;
      }
      if !Authorized(Stored(), ctx, creator, [], 0) || id in communities {
        return false;
      }
      var rec := CommunityRecord(id, creator, name, policyHash, policyUri, transferDelayMs, [], 0, ctx.now, ctx.now);
      communities := communities[id := rec];
      events := events + [CommunityCreated(id, creator, name, policyHash, policyUri, transferDelayMs, ctx.now)];
      return true;
    }

    method DoSetRole(ctx: Context, id: Bytes, actor: Bytes, subject: Bytes, role: int, scope: Bytes, expiresAt: u64,
                     device: Bytes) returns (ok: bool)
      modifies this
      ensures var o := StepSetRole(old(Stored()), ctx, id, actor, subject, role, scope, expiresAt, device);
              ok == o.Committed? && Stored() == After(old(Stored()), o) && events == old(events) + EventsOf(o)
    {
      hide Authorized, EffectiveRole, RoleKey;
      if !IsCommunityId(id) || !IsAddress(actor) || !IsAddress(subject) || role < 0 || role > ROLE_MAX_VALUE {
        return false;
      }
      if |scope| > SCOPE_MAX_LENGTH || (expiresAt != 0 && expiresAt <= ctx.now) || id !in communities {
        return false;
      }
      var community := communities[id];
      if !Authorized(Stored(), ctx, actor, device, CAPABILITY_COMMUNITY) {
        return false;
      }
      var actorRole := RoleInEffect(community, actor, ctx.now);
      var actorRank := Rank(actorRole);
      if actorRank < RANK_ADMIN || community.owner == subject || role == ROLE_OWNER {
        return false;
      }
      if actorRank < RANK_OWNER {
        var subjectRole := RoleInEffect(community, subject, ctx.now);
        if Rank(role) >= RANK_ADMIN || Rank(subjectRole) >= RANK_ADMIN {
          return false;
        }
      }
      var key := RoleStorageKey(id, subject);
      if role == ROLE_NONE {
        roles := roles - {key};
      } else {
        roles := roles[key := RoleRecord(role, scope, expiresAt, actor, ctx.now)];
      }
      events := events + [RoleSet(id, actor, subject, role, scope, expiresAt, ctx.now)];
      return true;
    }

    method DoSetPolicy(ctx: Context, id: Bytes, actor: Bytes, policyHash: Bytes, policyUri: string, device: Bytes)
      returns (ok: bool)
      modifies this
      ensures var o := StepSetPolicy(old(Stored()), ctx, id, actor, policyHash, policyUri, device);
              ok == o.Committed? && Stored() == After(old(Stored()), o) && events == old(events) + EventsOf(o)
    {
      hide Authorized, EffectiveRole;
      if !IsCommunityId(id) || !IsAddress(actor) || !OptionalPolicy(policyHash, policyUri) || id !in communities {
        return false;
      }
      var community := communities[id];
      if !Authorized(Stored(), ctx, actor, device, CAPABILITY_COMMUNITY) {
        return false;
      }
      var role := RoleInEffect(community, actor, ctx.now);
      if Rank(role) < RANK_ADMIN {
        return false;
      }
      community := community.(policyHash := policyHash, policyUri := policyUri, updatedAt := ctx.now);
      communities := communities[id := community];
      events := events + [PolicyChanged(id, actor, policyHash, policyUri, ctx.now)];
      return true;
    }

    method DoProposeOwnerTransfer(ctx: Context, id: Bytes, owner: Bytes, newOwner: Bytes) returns (ok: bool)
      modifies this
      ensures var o := StepProposeOwnerTransfer(old(Stored()), ctx, id, owner, newOwner);
              ok == o.Committed? && Stored() == After(old(Stored()), o) && events == old(events) + EventsOf(o)
    {
      hide Authorized;
      if !IsCommunityId(id) || !IsAddress(owner) || !IsAddress(newOwner) || owner == newOwner || id !in communities {
        return false;
      }
      var community := communities[id];
      if community.owner != owner || !Authorized(Stored(), ctx, owner, [], 0) {
        return false;
      }
      var effectiveAt := AddU64(ctx.now, community.transferDelayMs);
      community := community.(pendingOwner := newOwner, transferEffectiveAt := effectiveAt, updatedAt := ctx.now);
      communities := communities[id := community];
      events := events + [TransferProposed(id, owner, newOwner, effectiveAt)];
      return true;
    }

    method DoCancelOwnerTransfer(ctx: Context, id: Bytes, owner: Bytes) returns (ok: bool)
      modifies this
      ensures var o := StepCancelOwnerTransfer(old(Stored()), ctx, id, owner);
              ok == o.Committed? && Stored() == After(old(Stored()), o) && events == old(events) + EventsOf(o)
    {
      hide Authorized;
      if !IsCommunityId(id) || !IsAddress(owner) || id !in communities {
        return false;
      }
      var community := communities[id];
      if community.owner != owner || !Authorized(Stored(), ctx, owner, [], 0) || community.pendingOwner == [] {
        return false;
      }
      community := community.(pendingOwner := [], transferEffectiveAt := 0, updatedAt := ctx.now);
      communities := communities[id := community];
      events := events + [TransferCancelled(id, ctx.now)];
      return true;
    }

    method DoExecuteOwnerTransfer(ctx: Context, id: Bytes) returns (ok: bool)
      modifies this
      ensures var o := StepExecuteOwnerTransfer(old(Stored()), ctx, id);
              ok == o.Committed? && Stored() == After(old(Stored()), o) && events == old(events) + EventsOf(o)
    {
      hide RoleKey;
      if !IsCommunityId(id) || id !in communities {
        return false;
      }
      var community := communities[id];
      if community.pendingOwner == [] || ctx.now < community.transferEffectiveAt {
        return false;
      }
      var previousOwner, newOwner := community.owner, community.pendingOwner;
      community := community.(owner := newOwner, pendingOwner := [], transferEffectiveAt := 0, updatedAt := ctx.now);
      communities := communities[id := community];
      var key := RoleStorageKey(id, newOwner);
      roles := roles - {key};
      events := events + [Transferred(id, previousOwner, newOwner, ctx.now)];
      return true;
    }

    method DoSetLabel(ctx: Context, id: Bytes, actor: Bytes, postId: Bytes, text: string, reason: string, device: Bytes)
      returns (ok: bool)
      modifies this
      ensures var o := StepSetLabel(old(Stored()), ctx, id, actor, postId, text, reason, device);
              ok == o.Committed? && Stored() == After(old(Stored()), o) && events == old(events) + EventsOf(o)
    {
      hide Authorized, EffectiveRole;
      if !IsCommunityId(id) || !IsAddress(actor) || |postId| != POST_ID_LENGTH {
        return false;
      }
      if |text| == 0 || |text| > LABEL_MAX_LENGTH || |reason| > REASON_MAX_LENGTH || id !in communities {
        return false;
      }
      if !Authorized(Stored(), ctx, actor, device, CAPABILITY_COMMUNITY) {
        return false;
      }
      var role := RoleInEffect(communities[id], actor, ctx.now);
      if Rank(role) < RANK_MODERATOR {
        return false;
      }
      events := events + [LabelSet(id, actor, postId, text, reason, ctx.now)];
      return true;
    }

    /** The entry-point dispatch: one transaction. */
    method Execute(tx: Tx) returns (ok: bool)
      modifies this
      ensures var o := Step(old(Stored()), tx, contractId);
              ok == o.Committed? && Stored() == After(old(Stored()), o) && events == old(events) + EventsOf(o)
    {
      match tx.call
      case SetIdentityContract(address) => ok := DoSetIdentityContract(tx.ctx, address);
      case CreateCommunity(creator, id, name, hash, uri, delay) =>
        ok := DoCreateCommunity(tx.ctx, creator, id, name, hash, uri, delay);
      case SetRole(id, actor, subject, role, scope, expiresAt, device) =>
        ok := DoSetRole(tx.ctx, id, actor, subject, role, scope, expiresAt, device);
      case SetPolicy(id, actor, hash, uri, device) => ok := DoSetPolicy(tx.ctx, id, actor, hash, uri, device);
      case ProposeOwnerTransfer(id, owner, newOwner) => ok := DoProposeOwnerTransfer(tx.ctx, id, owner, newOwner);
      case CancelOwnerTransfer(id, owner) => ok := DoCancelOwnerTransfer(tx.ctx, id, owner);
      case ExecuteOwnerTransfer(id) => ok := DoExecuteOwnerTransfer(tx.ctx, id);
      case SetLabel(id, actor, postId, text, reason, device) =>
        ok := DoSetLabel(tx.ctx, id, actor, postId, text, reason, device);
    }
  }
}
