/**
 * The indexer's projections (`apps/indexer/src/projections.ts`): protocol events applied to query
 * tables. Each handler is a function of the old tables; the class `IndexerDb` holds the tables its
 * methods insert into, update and delete from.
 */
module Projections {
  import opened Wrappers
  import opened Bytes
  import opened SocialTables
  import Id = Identity
  import Social = SocialTables

  datatype Contract =
    | IdentityContract | PublicationsContract | CommunitiesContract | RegistryContract
    | RelationshipsContract | MessagingContract | TokenContract | SponsorshipContract | OtherContract

  /** One entry of a key package set; `encoded` are the bytes of the entry itself. */
  datatype SealedKey = SealedKey(recipient: Bytes, keyVersion: nat, encoded: Bytes)

  /**
   * A decoded event payload: what `decodeEventDataFixed` makes of an event name and its bytes. A key package set
   * that cannot be parsed is None.
   */
  datatype Payload =
    | IdentityPayload(event: Id.Event)
    | Published(author: Bytes, postId: string, authorSequence: u64, versionNumber: nat, contentHash: string,
                previousVersion: string, envelope: Bytes, media: string, audience: nat, audienceId: string,
                epoch: nat, replyTo: string, idempotencyKey: string, protocolVersion: nat, timestamp: u64)
    | Lifecycle(postId: string, state: nat, reason: string, replacementId: string, timestamp: u64)
    | Reacted(actor: Bytes, postId: string, postAuthor: Bytes, reaction: nat, removed: bool, timestamp: u64)
    | KeysDistributed(author: Bytes, audienceId: string, epoch: nat, packages: Option<seq<SealedKey>>,
                      timestamp: u64)
    | CrossPostOutcome(author: Bytes, idempotencyKey: string, adapter: string, state: nat, externalRef: string,
                       postId: string, manifestHash: string, timestamp: u64)
    | CommunityCreated(id: string, owner: Bytes, name: string, policyHash: Bytes, policyUri: string,
                       transferDelayMs: u64,
                       timestamp: u64)
    | CommunityPolicySet(communityId: string, policyHash: Bytes, policyUri: string, timestamp: u64)
    | RoleSet(communityId: string, actor: Bytes, subject: Bytes, role: nat, scope: string, expiresAt: u64,
              timestamp: u64)
    | TransferProposed(communityId: string, newOwner: Bytes, effectiveAt: u64)
    | TransferCancelled(communityId: string, timestamp: u64)
    | Transferred(communityId: string, newOwner: Bytes, timestamp: u64)
    | Labelled(communityId: string, actor: Bytes, postId: string, text: string, reason: string, timestamp: u64)
    | EntryProposed(name: string, address: Bytes, version: nat, abiHash: string, effectiveAt: u64)
    | EntryActivated(name: string, address: Bytes, version: nat, timestamp: u64)
    | EntryCancelled(name: string)
    | EntryDeprecated(name: string, address: Bytes, version: nat, timestamp: u64)
    | AdminProposed(newAdmin: Bytes, effectiveAt: u64)
    | AdminChanged(newAdmin: Bytes)
    | SocialPayload(social: Social.Event)
    | Unprojected(name: string)

  datatype LogEvent = LogEvent(
    height: nat,
    blockId: string,
    blockTimestamp: u64,
    txIndex: nat,
    sequence: nat,
    txId: string,
    contract: Contract,
    payload: Payload)

  // -------------------------------------------------------------------------
  // Tables. A table with a primary key is a map from that key; `updated_at` is kept apart from
  // the rest of an identity or device row.
  // -------------------------------------------------------------------------

  datatype PendingRecoveryJson = PendingRecoveryJson(
    newOwner: Bytes, guardian: Bytes, approvals: nat, threshold: nat, effectiveAt: u64, proposedAt: u64)

  datatype IdentityCore = IdentityCore(
    owner: Bytes,
    encryptionKey: Bytes,
    keyVersion: nat,
    profileHash: Bytes,
    profileUri: string,
    protocolVersion: nat,
    deviceEpoch: nat,
    registeredAt: u64,
    policy: Option<Id.Policy>,
    pendingPolicy: Option<Id.PendingPolicy>,
    pendingRecovery: Option<PendingRecoveryJson>)

  datatype IdentityRow = IdentityRow(core: IdentityCore, updatedAt: u64)

  datatype DeviceCore = DeviceCore(
    capabilities: bv32, expiresAt: u64, deviceEpoch: nat, revoked: bool, deviceLabel: string, authorizedAt: u64)

  datatype DeviceRow = DeviceRow(core: DeviceCore, updatedAt: u64)

  datatype Kind = FriendRequestKind | FriendAcceptedKind | Reaction | Reply | Keys | Role | Label | Recovery | Device

  datatype NotificationRow = NotificationRow(
    id: nat, account: Bytes, kind: Kind, actor: Bytes, postId: Option<string>, communityId: Option<string>,
    detail: Payload, timestamp: u64, height: nat, txIndex: nat, sequence: nat)

  datatype PostRow = PostRow(
    author: Bytes, authorSequence: u64, versionNumber: nat, contentHash: string, previousVersion: string,
    audience: nat, audienceId: string, epoch: nat, envelope: Bytes, media: string, replyTo: string,
    idempotencyKey: string, protocolVersion: nat, state: nat, stateReason: string, replacementId: string,
    createdAt: u64, updatedAt: u64, txId: string, height: nat, txIndex: nat, sequence: nat)

  datatype VersionRow = VersionRow(
    contentHash: string, previousVersion: string, envelope: Bytes, media: string, txId: string, height: nat,
    timestamp: u64)

  datatype ReactionRow = ReactionRow(timestamp: u64, height: nat, txId: string)

  datatype KeyPackageRow = KeyPackageRow(
    author: Bytes, audienceId: string, epoch: nat, recipient: Bytes, keyVersion: nat, sealed: Bytes, txId: string,
    timestamp: u64)

  datatype OutcomeRow = OutcomeRow(
    state: nat, externalRef: string, postId: string, manifestHash: string, timestamp: u64, height: nat, txId: string)

  datatype CommunityRow = CommunityRow(
    owner: Bytes, name: string, policyHash: Bytes, policyUri: string, transferDelayMs: u64, pendingOwner: Bytes,
    transferEffectiveAt: u64, createdAt: u64, updatedAt: u64)

  datatype RoleRow = RoleRow(role: nat, scope: string, expiresAt: u64, grantedBy: Bytes, grantedAt: u64)

  datatype LabelRow = LabelRow(
    communityId: string, postId: string, text: string, reason: string, actor: Bytes, timestamp: u64, txId: string)

  datatype EntryRow = EntryRow(abiHash: string, status: nat, effectiveAt: u64, updatedAt: u64)

  /** Values of the `meta` table: the schema version, and what projections keep under `projection.` keys. */
  datatype MetaValue =
    | SchemaVersion(version: nat)
    | AdminMeta(admin: Bytes)
    | PendingAdminMeta(newAdmin: Bytes, effectiveAt: u64)

  const SCHEMA_VERSION_KEY := "schema_version"
  const PROJECTION_PREFIX := "projection."
  const ADMIN_KEY := "projection.registry.admin"
  const PENDING_ADMIN_KEY := "projection.registry.pending_admin"

  datatype DeviceId = DeviceId(account: Bytes, device: Bytes)
  datatype VersionId = VersionId(postId: string, version: nat)
  datatype ReactionId = ReactionId(postId: string, actor: Bytes, reaction: nat)
  datatype RoleId = RoleId(communityId: string, subject: Bytes)
  datatype KeyId = KeyId(event: EventId, index: nat)
  datatype OutcomeId = OutcomeId(author: Bytes, idempotencyKey: string, adapter: string)
  datatype EntryId = EntryId(name: string, address: Bytes, version: nat)

  datatype IdentityTables = IdentityTables(identities: map<Bytes, IdentityRow>, devices: map<DeviceId, DeviceRow>)

  datatype PublicationTables = PublicationTables(
    posts: map<string, PostRow>, versions: map<VersionId, VersionRow>, reactions: map<ReactionId, ReactionRow>,
    keyPackages: map<KeyId, KeyPackageRow>, outcomes: map<OutcomeId, OutcomeRow>)

  datatype CommunityTables = CommunityTables(
    communities: map<string, CommunityRow>, roles: map<RoleId, RoleRow>, labels: map<EventId, LabelRow>)

  datatype RegistryTables = RegistryTables(entries: map<EntryId, EntryRow>, meta: map<string, MetaValue>)

  /** The tables of the four contracts of `SocialTables`. */
  datatype SocialRows = SocialRows(
    relations: RelationTables, messaging: MessagingTables, token: TokenTables, sponsorship: SponsorTables)

  datatype Tables = Tables(
    identity: IdentityTables,
    publications: PublicationTables,
    communities: CommunityTables,
    registry: RegistryTables,
    social: SocialRows,
    notifications: seq<NotificationRow>)

  const NoIdentityRows := IdentityTables(map[], map[])
  const NoPublicationRows := PublicationTables(map[], map[], map[], map[], map[])
  const NoCommunityRows := CommunityTables(map[], map[], map[])
  const NoSocialRows := SocialRows(NoRelationRows, NoMessagingRows, NoTokenRows, NoSponsorRows)

  /** The tables of a migrated database that indexed nothing. */
  const FreshTables := Tables(NoIdentityRows, NoPublicationRows, NoCommunityRows,
                              RegistryTables(map[], map[SCHEMA_VERSION_KEY := SchemaVersion(2)]), NoSocialRows, [])

  /** Meta keys matched by `LIKE 'projection.%'`. */
  predicate IsProjectionKey(key: string) {
    PROJECTION_PREFIX <= key
  }

  function OtherMeta(meta: map<string, MetaValue>): map<string, MetaValue> {
    map k | k in meta && !IsProjectionKey(k) :: meta[k]
  }

  /** `truncateProjections`: every projection row and every `projection.` meta key is gone, other meta stays. */
  function Truncated(t: Tables): Tables {
    Tables(NoIdentityRows, NoPublicationRows, NoCommunityRows, RegistryTables(map[], OtherMeta(t.registry.meta)),
           NoSocialRows, [])
  }

  // -------------------------------------------------------------------------
  // Helpers
  // -------------------------------------------------------------------------

  /** The event's own timestamp, or the block's for payloads without one. */
  function TimestampOf(e: LogEvent): u64 {
    match e.payload
    case IdentityPayload(event) =>
      (match event
       case PolicyProposed(_, _, _) => e.blockTimestamp
       case Registered(_, _, _, _, _, _, ts) => ts
       case ProfileUpdated(_, _, _, ts) => ts
       case KeyRotated(_, _, _, _, ts) => ts
       case DeviceAuthorized(_, _, _, _, _, _, ts) => ts
       case DeviceRevoked(_, _, ts) => ts
       case PolicySet(_, _, ts) => ts
       case PolicyCancelled(_, ts) => ts
       case RecoveryProposed(_, _, _, _, _, _, ts) => ts
       case RecoveryCancelled(_, ts) => ts
       case Recovered(_, _, _, _, ts) => ts)
    case Published(_, _, _, _, _, _, _, _, _, _, _, _, _, _, ts) => ts
    case KeysDistributed(_, _, _, _, ts) => ts
    case CrossPostOutcome(_, _, _, _, _, _, _, ts) => ts
    case SocialPayload(social) => social.timestamp
    case Lifecycle(_, _, _, _, ts) => ts
    case Reacted(_, _, _, _, _, ts) => ts
    case CommunityCreated(_, _, _, _, _, _, ts) => ts
    case CommunityPolicySet(_, _, _, ts) => ts
    case RoleSet(_, _, _, _, _, _, ts) => ts
    case TransferCancelled(_, ts) => ts
    case Transferred(_, _, ts) => ts
    case Labelled(_, _, _, _, _, ts) => ts
    case EntryActivated(_, _, _, ts) => ts
    case EntryDeprecated(_, _, _, ts) => ts
    case _ => e.blockTimestamp
  }

  /** `COALESCE(MAX(id), 0)` over the notifications. */
  function MaxId(rows: seq<NotificationRow>): nat {
    if rows == [] then 0
    else
      var rest := MaxId(rows[..|rows| - 1]);
      if rows[|rows| - 1].id > rest then rows[|rows| - 1].id else rest
  }

  datatype Notice = Notice(
    account: Bytes, kind: Kind, actor: Bytes, postId: Option<string>, communityId: Option<string>)

  /** A notification for the account, unless there is nobody to notify or they acted themselves. */
  function Notified(rows: seq<NotificationRow>, e: LogEvent, n: Notice): seq<NotificationRow> {
    if n.account == [] || n.account == n.actor then rows
    else
      rows + [NotificationRow(MaxId(rows) + 1, n.account, n.kind, n.actor, n.postId, n.communityId, e.payload,
                              TimestampOf(e), e.height, e.txIndex, e.sequence)]
  }

  // -------------------------------------------------------------------------
  // identity
  // -------------------------------------------------------------------------

  /** The identity columns an event changes, as a function of the old row. None: the row is left alone. */
  function IdentityUpdate(row: IdentityCore, event: Id.Event): Option<IdentityCore> {
    match event
    case ProfileUpdated(_, hash, uri, _) => Some(row.(profileHash := hash, profileUri := uri))
    case KeyRotated(_, _, key, version, _) => Some(row.(encryptionKey := key, keyVersion := version))
    case PolicyProposed(_, policy, effectiveAt) =>
        Some(row.(pendingPolicy := Some(Id.PendingPolicy(policy, effectiveAt))))
    case PolicySet(_, policy, _) => Some(row.(policy := Some(policy), pendingPolicy := None))
    case PolicyCancelled(_, _) => Some(row.(pendingPolicy := None))
    case RecoveryProposed(_, guardian, newOwner, approvals, threshold, effectiveAt, ts) =>
      Some(row.(pendingRecovery := Some(PendingRecoveryJson(newOwner, guardian, approvals, threshold, effectiveAt,
                                                            ts))))
    case RecoveryCancelled(_, _) => Some(row.(pendingRecovery := None))
    case Recovered(_, _, newOwner, epoch, _) =>
      Some(row.(owner := newOwner, deviceEpoch := epoch, pendingRecovery := None))
    case _ => None
  }

  function RegisteredCore(event: Id.Event): IdentityCore
    requires event.Registered?
  {
    IdentityCore(event.account, event.encryptionKey, event.keyVersion, event.profileHash, event.profileUri,
                 event.protocolVersion, 0, event.timestamp, None, None, None)
  }

  function IdentitiesAfter(rows: map<Bytes, IdentityRow>, event: Id.Event, ts: u64): map<Bytes, IdentityRow> {
    if event.Registered? then rows[event.account := IdentityRow(RegisteredCore(event), ts)]
    else if event.account !in rows then rows
    else
      var updated := IdentityUpdate(rows[event.account].core, event);
      if updated.None? then rows else rows[event.account := IdentityRow(updated.value, ts)]
  }

  function DevicesAfter(rows: map<DeviceId, DeviceRow>, event: Id.Event, ts: u64): map<DeviceId, DeviceRow> {
    match event
    case DeviceAuthorized(a, d, capabilities, expiresAt, deviceLabel, epoch, _) =>
      rows[DeviceId(a, d) := DeviceRow(DeviceCore(capabilities, expiresAt, epoch, false, deviceLabel, ts), ts)]
    case DeviceRevoked(a, d, _) =>
      var key := DeviceId(a, d);
      if key in rows then rows[key := DeviceRow(rows[key].core.(revoked := true), ts)] else rows
    case _ => rows
  }

  function ApplyIdentity(t: IdentityTables, event: Id.Event, ts: u64): IdentityTables {
    IdentityTables(IdentitiesAfter(t.identities, event, ts), DevicesAfter(t.devices, event, ts))
  }

  function IdentityNotice(event: Id.Event): Option<Notice> {
    match event
    case DeviceAuthorized(a, d, _, _, _, _, _) => Some(Notice(a, Device, d, None, None))
    case DeviceRevoked(a, d, _) => Some(Notice(a, Device, d, None, None))
    case RecoveryProposed(a, guardian, _, _, _, _, _) => Some(Notice(a, Recovery, guardian, None, None))
    case Recovered(a, _, newOwner, _, _) => Some(Notice(a, Recovery, newOwner, None, None))
    case _ => None
  }

  // -------------------------------------------------------------------------
  // publications
  // -------------------------------------------------------------------------

  /** Number 0 is read as version 1. */
  function VersionOf(versionNumber: nat): nat {
    if versionNumber == 0 then 1 else versionNumber
  }

  /** First publication creates the post at the event's position; later ones keep position and creation time. */
  function PostAfterPublish(existing: Option<PostRow>, e: LogEvent): PostRow
    requires e.payload.Published?
  {
    var p := e.payload;
    if existing.None? then
      PostRow(p.author, p.authorSequence, VersionOf(p.versionNumber), p.contentHash, p.previousVersion, p.audience,
              p.audienceId, p.epoch, p.envelope, p.media, p.replyTo, p.idempotencyKey, p.protocolVersion,
              0, "", "", TimestampOf(e), TimestampOf(e), e.txId, e.height, e.txIndex, e.sequence)
    else
      existing.value.(versionNumber := VersionOf(p.versionNumber), contentHash := p.contentHash,
                      previousVersion := p.previousVersion, epoch := p.epoch, envelope := p.envelope,
                      media := p.media, updatedAt := TimestampOf(e))
  }

  function PostsAfter(rows: map<string, PostRow>, e: LogEvent): map<string, PostRow> {
    match e.payload
    case Published(_, postId, _, _, _, _, _, _, _, _, _, _, _, _, _) =>
      rows[postId := PostAfterPublish(Lookup(rows, postId), e)]
    case Lifecycle(postId, state, reason, replacementId, _) =>
      if postId in rows && rows[postId].state != 2 then
        rows[postId := rows[postId].(state := state, stateReason := reason, replacementId := replacementId,
                                     updatedAt := TimestampOf(e))]
      else rows
    case _ => rows
  }

  function VersionsAfter(rows: map<VersionId, VersionRow>, e: LogEvent): map<VersionId, VersionRow> {
    match e.payload
    case Published(_, postId, _, versionNumber, contentHash, previousVersion, envelope, media, _, _, _, _, _, _, _) =>
      rows[VersionId(postId, VersionOf(versionNumber)) :=
             VersionRow(contentHash, previousVersion, envelope, media, e.txId, e.height, TimestampOf(e))]
    case _ => rows
  }

  function ReactionsAfter(rows: map<ReactionId, ReactionRow>, e: LogEvent): map<ReactionId, ReactionRow> {
    match e.payload
    case Reacted(actor, postId, _, reaction, removed, _) =>
      var key := ReactionId(postId, actor, reaction);
      if removed then rows - {key} else rows[key := ReactionRow(TimestampOf(e), e.height, e.txId)]
    case _ => rows
  }

  function PlaceOf(e: LogEvent): EventId {
    EventId(e.height, e.txIndex, e.sequence)
  }

  function KeyRowOf(e: LogEvent, key: SealedKey): KeyPackageRow
    requires e.payload.KeysDistributed?
  {
    KeyPackageRow(e.payload.author, e.payload.audienceId, e.payload.epoch, key.recipient, key.keyVersion, key.encoded,
                  e.txId, TimestampOf(e))
  }

  /** A key for something that is not an address is skipped, and so is one that is already there. */
  function KeyAdded(rows: map<KeyId, KeyPackageRow>, e: LogEvent, key: SealedKey, index: nat): map<KeyId, KeyPackageRow>
    requires e.payload.KeysDistributed?
  {
    if |key.recipient| != ADDRESS_LENGTH || KeyId(PlaceOf(e), index) in rows then rows
    else rows[KeyId(PlaceOf(e), index) := KeyRowOf(e, key)]
  }

  function KeysAdded(rows: map<KeyId, KeyPackageRow>, e: LogEvent, keys: seq<SealedKey>): map<KeyId, KeyPackageRow>
    requires e.payload.KeysDistributed?
  {
    if keys == [] then rows
    else KeyAdded(KeysAdded(rows, e, keys[..|keys| - 1]), e, keys[|keys| - 1], |keys| - 1)
  }

  /** Each addressed key notifies its recipient. */
  function KeysNotified(rows: seq<NotificationRow>, e: LogEvent, keys: seq<SealedKey>): seq<NotificationRow>
    requires e.payload.KeysDistributed?
  {
    if keys == [] then rows
    else
      var before, key := KeysNotified(rows, e, keys[..|keys| - 1]), keys[|keys| - 1];
      if |key.recipient| != ADDRESS_LENGTH then before
      else Notified(before, e, Notice(key.recipient, Keys, e.payload.author, None, None))
  }

  function PackagesOf(e: LogEvent): seq<SealedKey>
    requires e.payload.KeysDistributed?
  {
    if e.payload.packages.Some? then e.payload.packages.value else []
  }

  function KeyPackagesAfter(rows: map<KeyId, KeyPackageRow>, e: LogEvent): map<KeyId, KeyPackageRow> {
    if e.payload.KeysDistributed? then KeysAdded(rows, e, PackagesOf(e)) else rows
  }

  function OutcomesAfter(rows: map<OutcomeId, OutcomeRow>, e: LogEvent): map<OutcomeId, OutcomeRow> {
    match e.payload
    case CrossPostOutcome(author, idempotencyKey, adapter, state, externalRef, postId, manifestHash, _) =>
      rows[OutcomeId(author, idempotencyKey, adapter) :=
             OutcomeRow(state, externalRef, postId, manifestHash, TimestampOf(e), e.height, e.txId)]
    case _ => rows
  }

  function ApplyPublications(t: PublicationTables, e: LogEvent): PublicationTables {
    PublicationTables(PostsAfter(t.posts, e), VersionsAfter(t.versions, e), ReactionsAfter(t.reactions, e),
                      KeyPackagesAfter(t.keyPackages, e), OutcomesAfter(t.outcomes, e))
  }

  /** A first publication that replies to a known post notifies its author; so does a reaction. */
  function PublicationNotice(posts: map<string, PostRow>, e: LogEvent): Option<Notice> {
    match e.payload
    case Published(author, postId, _, _, _, _, _, _, _, _, _, replyTo, _, _, _) =>
      if postId !in posts && replyTo != "" then
        (if replyTo == postId then Some(Notice(author, Reply, author, Some(replyTo), None))
         else if replyTo in posts then Some(Notice(posts[replyTo].author, Reply, author, Some(replyTo), None))
         else None)
      else None
    case Reacted(actor, postId, postAuthor, _, removed, _) =>
      if removed then None else Some(Notice(postAuthor, Reaction, actor, Some(postId), None))
    case _ => None
  }

  // -------------------------------------------------------------------------
  // communities
  // -------------------------------------------------------------------------

  /** The community columns an event changes. */
  function CommunityUpdate(row: CommunityRow, payload: Payload, ts: u64): CommunityRow {
    match payload
    case CommunityPolicySet(_, hash, uri, _) => row.(policyHash := hash, policyUri := uri, updatedAt := ts)
    case TransferProposed(_, newOwner, effectiveAt) =>
      row.(pendingOwner := newOwner, transferEffectiveAt := effectiveAt, updatedAt := ts)
    case TransferCancelled(_, _) => row.(pendingOwner := [], transferEffectiveAt := 0, updatedAt := ts)
    case Transferred(_, newOwner, _) =>
      row.(owner := newOwner, pendingOwner := [], transferEffectiveAt := 0, updatedAt := ts)
    case _ => row.(updatedAt := ts)
  }

  function CommunitiesAfter(rows: map<string, CommunityRow>, payload: Payload, ts: u64): map<string, CommunityRow> {
    match payload
    case CommunityCreated(id, owner, name, hash, uri, delay, _) =>
      rows[id := CommunityRow(owner, name, hash, uri, delay, [], 0, ts, ts)]
    case CommunityPolicySet(id, _, _, _) =>
      if id in rows then rows[id := CommunityUpdate(rows[id], payload, ts)] else rows
    case RoleSet(id, _, _, _, _, _, _) => if id in rows then rows[id := CommunityUpdate(rows[id], payload, ts)] else rows
    case TransferProposed(id, _, _) => if id in rows then rows[id := CommunityUpdate(rows[id], payload, ts)] else rows
    case TransferCancelled(id, _) => if id in rows then rows[id := CommunityUpdate(rows[id], payload, ts)] else rows
    case Transferred(id, _, _) => if id in rows then rows[id := CommunityUpdate(rows[id], payload, ts)] else rows
    case _ => rows
  }

  function RolesAfter(rows: map<RoleId, RoleRow>, payload: Payload, ts: u64): map<RoleId, RoleRow> {
    match payload
    case RoleSet(communityId, actor, subject, role, scope, expiresAt, _) =>
      var key := RoleId(communityId, subject);
      if role == 0 then rows - {key} else rows[key := RoleRow(role, scope, expiresAt, actor, ts)]
    case _ => rows
  }

  function LabelsAfter(rows: map<EventId, LabelRow>, e: LogEvent): map<EventId, LabelRow> {
    match e.payload
    case Labelled(communityId, actor, postId, text, reason, _) =>
      var key := PlaceOf(e);
      if key in rows then rows
      else rows[key := LabelRow(communityId, postId, text, reason, actor, TimestampOf(e), e.txId)]
    case _ => rows
  }

  function ApplyCommunities(t: CommunityTables, e: LogEvent): CommunityTables {
    CommunityTables(CommunitiesAfter(t.communities, e.payload, TimestampOf(e)),
                    RolesAfter(t.roles, e.payload, TimestampOf(e)),
                    LabelsAfter(t.labels, e))
  }

  function CommunityNotice(posts: map<string, PostRow>, payload: Payload): Option<Notice> {
    match payload
    case RoleSet(communityId, actor, subject, _, _, _, _) => Some(Notice(subject, Role, actor, None, Some(communityId)))
    case Labelled(communityId, actor, postId, _, _, _) =>
      if postId in posts then Some(Notice(posts[postId].author, Label, actor, Some(postId), Some(communityId)))
         else None
    case _ => None
  }

  // -------------------------------------------------------------------------
  // registry
  // -------------------------------------------------------------------------

  /** An empty ABI hash keeps the one already stored. */
  function UpsertEntry(rows: map<EntryId, EntryRow>, key: EntryId, status: nat, effectiveAt: u64, abiHash: string,
                       ts: u64): map<EntryId, EntryRow>
  {
    rows[key := EntryRow(if abiHash == "" && key in rows then rows[key].abiHash else abiHash, status, effectiveAt, ts)]
  }

  function EntriesAfter(rows: map<EntryId, EntryRow>, payload: Payload, ts: u64): map<EntryId, EntryRow> {
    match payload
    case EntryProposed(name, address, version, abiHash, effectiveAt) =>
      UpsertEntry(rows, EntryId(name, address, version), 0, effectiveAt, abiHash, ts)
    case EntryActivated(name, address, version, _) => UpsertEntry(rows, EntryId(name, address, version), 1, ts, "", ts)
    case EntryCancelled(name) => map k | k in rows && !(k.name == name && rows[k].status == 0) :: rows[k]
    case EntryDeprecated(name, address, version, _) => UpsertEntry(rows, EntryId(name, address, version), 2, ts, "", ts)
    case _ => rows
  }

  function MetaAfter(meta: map<string, MetaValue>, payload: Payload): map<string, MetaValue> {
    match payload
    case AdminProposed(newAdmin, effectiveAt) => meta[PENDING_ADMIN_KEY := PendingAdminMeta(newAdmin, effectiveAt)]
    case AdminChanged(newAdmin) => meta[ADMIN_KEY := AdminMeta(newAdmin)] - {PENDING_ADMIN_KEY}
    case _ => meta
  }

  function ApplyRegistry(t: RegistryTables, e: LogEvent): RegistryTables {
    RegistryTables(EntriesAfter(t.entries, e.payload, TimestampOf(e)), MetaAfter(t.meta, e.payload))
  }

  // -------------------------------------------------------------------------
  // Dispatch and replay
  // -------------------------------------------------------------------------

  /** A friend request notifies its recipient and an acceptance the requester. */
  function RelationNotice(event: Social.Event): Option<Notice> {
    match event
    case FriendRequested(requester, recipient, _, _) =>
      Some(Notice(recipient, FriendRequestKind, requester, None, None))
    case FriendAccepted(approver, requester, _, _, _) =>
      Some(Notice(requester, FriendAcceptedKind, approver, None, None))
    case _ => None
  }

  /** The one notice of an identity, publications or communities event that distributes no keys. */
  function NoticeOf(t: Tables, e: LogEvent): Option<Notice> {
    match e.contract
    case IdentityContract => if e.payload.IdentityPayload? then IdentityNotice(e.payload.event) else None
    case PublicationsContract => PublicationNotice(t.publications.posts, e)
    case CommunitiesContract => CommunityNotice(t.publications.posts, e.payload)
    case _ => None
  }

  predicate IsSocial(contract: Contract) {
    contract in {RelationshipsContract, MessagingContract, TokenContract, SponsorshipContract}
  }

  function SocialNotices(rows: seq<NotificationRow>, e: LogEvent): seq<NotificationRow> {
    if e.contract == RelationshipsContract && e.payload.SocialPayload? && RelationNotice(e.payload.social).Some?
    then Notified(rows, e, RelationNotice(e.payload.social).value) else rows
  }

  /** The notifications after an event. */
  function NoticesAfter(t: Tables, e: LogEvent): seq<NotificationRow> {
    if IsSocial(e.contract) then SocialNotices(t.notifications, e)
    else if e.contract == PublicationsContract && e.payload.KeysDistributed?
    then KeysNotified(t.notifications, e, PackagesOf(e))
    else if NoticeOf(t, e).Some? then Notified(t.notifications, e, NoticeOf(t, e).value) else t.notifications
  }

  /** The rows of the relationships, messaging, token and sponsorship contracts. */
  function ApplySocial(t: SocialRows, e: LogEvent): SocialRows
    requires IsSocial(e.contract)
  {
    if !e.payload.SocialPayload? then t
    else
      var event := e.payload.social;
      match e.contract
      case RelationshipsContract => t.(relations := ApplyRelations(t.relations, event, e.height))
      case MessagingContract => t.(messaging := ApplyMessaging(t.messaging, event, e.height, e.txId))
      case TokenContract => t.(token := ApplyToken(t.token, event, PlaceOf(e), e.txId))
      case SponsorshipContract => t.(sponsorship := ApplySponsorship(t.sponsorship, event))
  }

  /** One event applied to the tables: the contract that emitted it decides who reads it. */
  function ApplyEvent(t: Tables, e: LogEvent): Tables {
    match e.contract
    case IdentityContract =>
      if e.payload.IdentityPayload?
      then t.(identity := ApplyIdentity(t.identity, e.payload.event, TimestampOf(e)),
              notifications := NoticesAfter(t, e))
      else t
    case PublicationsContract =>
      t.(publications := ApplyPublications(t.publications, e), notifications := NoticesAfter(t, e))
    case CommunitiesContract =>
      t.(communities := ApplyCommunities(t.communities, e), notifications := NoticesAfter(t, e))
    case RegistryContract => t.(registry := ApplyRegistry(t.registry, e))
    case OtherContract => t
    case _ => t.(social := ApplySocial(t.social, e), notifications := NoticesAfter(t, e))
  }

  /** The tables after a whole log. */
  function Project(t: Tables, log: seq<LogEvent>): Tables {
    if log == [] then t else ApplyEvent(Project(t, log[..|log| - 1]), log[|log| - 1])
  }

  lemma {:induction false} ProjectConcat(t: Tables, a: seq<LogEvent>, b: seq<LogEvent>)
    ensures Project(t, a + b) == Project(Project(t, a), b)
  {
    hide ApplyEvent;
    if b == [] {
      assert a + b == a;
    } else {
      ProjectConcat(t, a, b[..|b| - 1]);
      assert (a + b)[..|a + b| - 1] == a + b[..|b| - 1];
    }
  }

  lemma ProjectionKeyWritesNoOther(meta: map<string, MetaValue>, key: string, value: MetaValue)
    requires IsProjectionKey(key)
    ensures OtherMeta(meta[key := value]) == OtherMeta(meta)
    ensures OtherMeta(meta - {key}) == OtherMeta(meta)
  {
    hide IsProjectionKey;
  }

  lemma MetaKeepsOther(meta: map<string, MetaValue>, payload: Payload)
    ensures OtherMeta(MetaAfter(meta, payload)) == OtherMeta(meta)
  {
    assert IsProjectionKey(ADMIN_KEY) && IsProjectionKey(PENDING_ADMIN_KEY);
    hide IsProjectionKey, OtherMeta;
    match payload
    case AdminProposed(newAdmin, effectiveAt) =>
      ProjectionKeyWritesNoOther(meta, PENDING_ADMIN_KEY, PendingAdminMeta(newAdmin, effectiveAt));
    case AdminChanged(newAdmin) =>
      ProjectionKeyWritesNoOther(meta, ADMIN_KEY, AdminMeta(newAdmin));
      ProjectionKeyWritesNoOther(meta[ADMIN_KEY := AdminMeta(newAdmin)], PENDING_ADMIN_KEY, AdminMeta(newAdmin));
    case _ =>
  }

  /** No event touches a row that truncation would leave behind. */
  lemma ApplyKeepsTruncated(t: Tables, e: LogEvent)
    ensures Truncated(ApplyEvent(t, e)) == Truncated(t)
  {
    hide ApplyIdentity, ApplyPublications, ApplyCommunities, EntriesAfter, MetaAfter, OtherMeta,
         NoticesAfter, ApplySocial;
    MetaKeepsOther(t.registry.meta, e.payload);
  }

  /** Truncating whatever a log projected from `t` leaves what truncating `t` leaves. */
  lemma {:induction false} ProjectKeepsTruncated(t: Tables, log: seq<LogEvent>)
    ensures Truncated(Project(t, log)) == Truncated(t)
  {
    if log != [] {
      ProjectKeepsTruncated(t, log[..|log| - 1]);
      ApplyKeepsTruncated(Project(t, log[..|log| - 1]), log[|log| - 1]);
    }
  }

  lemma TruncatedFresh()
    ensures Truncated(FreshTables) == FreshTables
  {
    assert !IsProjectionKey(SCHEMA_VERSION_KEY) by {
      assert SCHEMA_VERSION_KEY[0] != PROJECTION_PREFIX[0];
    }
  }

  // -------------------------------------------------------------------------
  // Notification ids
  // -------------------------------------------------------------------------

  /** Ids count the notifications: the k-th row has id k + 1. */
  ghost predicate Numbered(rows: seq<NotificationRow>) {
    forall k | 0 <= k < |rows| :: rows[k].id == k + 1
  }

  lemma {:induction false} MaxIdOfNumbered(rows: seq<NotificationRow>)
    requires Numbered(rows)
    ensures MaxId(rows) == |rows|
  {
    if rows != [] {
      MaxIdOfNumbered(rows[..|rows| - 1]);
    }
  }

  lemma NotifiedKeepsNumbered(rows: seq<NotificationRow>, e: LogEvent, n: Notice)
    requires Numbered(rows)
    ensures Numbered(Notified(rows, e, n))
  {
    hide TimestampOf;
    MaxIdOfNumbered(rows);
  }

  lemma {:induction false} KeysKeepNumbered(rows: seq<NotificationRow>, e: LogEvent, keys: seq<SealedKey>)
    requires e.payload.KeysDistributed? && Numbered(rows)
    ensures Numbered(KeysNotified(rows, e, keys))
  {
    hide Notified, Numbered;
    if keys != [] {
      var init, key := keys[..|keys| - 1], keys[|keys| - 1];
      KeysKeepNumbered(rows, e, init);
      NotifiedKeepsNumbered(KeysNotified(rows, e, init), e, Notice(key.recipient, Keys, e.payload.author, None, None));
    }
  }

  lemma ApplyKeepsNumbered(t: Tables, e: LogEvent)
    requires Numbered(t.notifications)
    ensures Numbered(ApplyEvent(t, e).notifications)
  {
    hide ApplyIdentity, ApplyPublications, ApplyCommunities, ApplyRegistry, ApplySocial, NoticeOf, Notified, Numbered,
         KeysNotified, RelationNotice, IsSocial;
    if IsSocial(e.contract) {
      if e.contract == RelationshipsContract && e.payload.SocialPayload? && RelationNotice(e.payload.social).Some? {
        NotifiedKeepsNumbered(t.notifications, e, RelationNotice(e.payload.social).value);
      }
    } else if e.contract == PublicationsContract && e.payload.KeysDistributed? {
      KeysKeepNumbered(t.notifications, e, PackagesOf(e));
    } else if NoticeOf(t, e).Some? {
      NotifiedKeepsNumbered(t.notifications, e, NoticeOf(t, e).value);
    }
  }

  /** In every projected log the notification ids are 1, 2, 3, ... in event order. */
  lemma {:induction false} NotificationsNumbered(log: seq<LogEvent>)
    ensures Numbered(Project(FreshTables, log).notifications)
  {
    if log != [] {
      NotificationsNumbered(log[..|log| - 1]);
      ApplyKeepsNumbered(Project(FreshTables, log[..|log| - 1]), log[|log| - 1]);
    }
  }
}
