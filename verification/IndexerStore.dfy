/**
 * The indexer database as the object the sync loop works on (`IndexerDb` of `db.ts` with the
 * handlers of `projections.ts`): one field a table, changed in place, each transaction committed
 * as a whole or restored.
 */
module IndexerStore {
  import opened Wrappers
  import opened Bytes
  import opened SocialTables
  import opened Projections
  import opened Chain
  import opened Database
  import Id = Identity
  import Social = SocialTables

  /** Rows read at a time when the log is replayed. */
  const REPLAY_PAGE := 1000

  /** The replay cursor after `k` rows. */
  function CursorAt(log: seq<LogRow>, k: nat): Pos
    requires k <= |log|
  {
    if k == 0 then START_CURSOR else log[k - 1].pos
  }

  lemma {:induction false} RowsAfterNone(log: seq<LogRow>, cursor: Pos)
    requires forall row | row in log :: !Before(cursor, row.pos)
    ensures RowsAfter(log, cursor) == []
  {
    if log != [] {
      RowsAfterNone(log[..|log| - 1], cursor);
    }
  }

  /** In a sorted log the rows beyond the cursor after `k` rows are the remaining ones. */
  lemma {:induction false} RowsAfterCursor(log: seq<LogRow>, k: nat)
    requires Sorted(log) && NaturalPositions(log) && k <= |log|
    ensures RowsAfter(log, CursorAt(log, k)) == log[k..]
  {
    if k == |log| {
      RowsAfterNone(log, CursorAt(log, k));
    } else {
      var init := log[..|log| - 1];
      RowsAfterCursor(init, k);
      assert CursorAt(init, k) == CursorAt(log, k);
      assert log[k..] == init[k..] + [log[|log| - 1]];
    }
  }

  lemma RehydratedSnoc(cfg: Config, log: seq<LogRow>, k: nat)
    requires NaturalPositions(log) && k < |log|
    ensures NaturalPositions(log[..k]) && NaturalPositions(log[..k + 1])
    ensures var event := LogEventFromRow(cfg, log[k]);
            Rehydrated(cfg, log[..k + 1]) == Rehydrated(cfg, log[..k]) + (if event.Some? then [event.value] else [])
  {
    assert log[..k + 1][..k] == log[..k];
  }

  lemma NothingRehydrated(cfg: Config, start: Tables)
    ensures Rehydrated(cfg, []) == [] && Project(start, []) == start
  {
  }

  /** Applying the next row of the log, or skipping it when it does not decode. */
  lemma RowProjects(cfg: Config, log: seq<LogRow>, start: Tables, j: nat)
    requires NaturalPositions(log) && j < |log|
    ensures NaturalPositions(log[..j]) && NaturalPositions(log[..j + 1])
    ensures var event := LogEventFromRow(cfg, log[j]);
            var before := Project(start, Rehydrated(cfg, log[..j]));
            && Project(start, Rehydrated(cfg, log[..j + 1])) ==
               (if event.Some? then ApplyEvent(before, event.value) else before)
            && |Rehydrated(cfg, log[..j + 1])| == |Rehydrated(cfg, log[..j])| + (if event.Some? then 1 else 0)
  {
    hide ApplyEvent, LogEventFromRow;
    RehydratedSnoc(cfg, log, j);
    var event := LogEventFromRow(cfg, log[j]);
    var done := Rehydrated(cfg, log[..j]);
    if event.Some? {
      ProjectSnoc(start, done, event.value);
    } else {
      assert done + [] == done;
    }
  }

  lemma ProjectSnoc(t: Tables, events: seq<LogEvent>, e: LogEvent)
    ensures Project(t, events + [e]) == ApplyEvent(Project(t, events), e)
  {
    assert (events + [e])[..|events|] == events;
  }

  class IndexerDb {
    const cfg: Config
    var log: seq<LogRow>
    var checkpoints: seq<Checkpoint>
    var identities: map<Bytes, IdentityRow>
    var devices: map<DeviceId, DeviceRow>
    var posts: map<string, PostRow>
    var versions: map<VersionId, VersionRow>
    var reactions: map<ReactionId, ReactionRow>
    var keyPackages: map<KeyId, KeyPackageRow>
    var outcomes: map<OutcomeId, OutcomeRow>
    var communities: map<string, CommunityRow>
    var roles: map<RoleId, RoleRow>
    var labels: map<EventId, LabelRow>
    var entries: map<EntryId, EntryRow>
    var meta: map<string, MetaValue>
    var relations: RelationTables
    var messaging: MessagingTables
    var token: TokenTables
    var sponsorship: SponsorTables
    var notifications: seq<NotificationRow>

    constructor (cfg: Config)
      ensures this.cfg == cfg && Now() == EmptyDb
    {
      this.cfg := cfg;
      log, checkpoints := [], [];
      identities, devices := map[], map[];
      posts, versions, reactions := map[], map[], map[];
      keyPackages, outcomes := map[], map[];
      communities, roles, labels := map[], map[], map[];
      relations, messaging := NoRelationRows, NoMessagingRows;
      token, sponsorship := NoTokenRows, NoSponsorRows;
      entries, meta := map[], map[SCHEMA_VERSION_KEY := SchemaVersion(2)];
      notifications := [];
    }

    function TablesNow(): Tables
      reads this
    {
      Tables(IdentityTables(identities, devices),
             PublicationTables(posts, versions, reactions, keyPackages, outcomes),
             CommunityTables(communities, roles, labels), RegistryTables(entries, meta),
             SocialRows(relations, messaging, token, sponsorship), notifications)
    }

    function Now(): Db
      reads this
    {
      Db(log, checkpoints, TablesNow())
    }

    // -----------------------------------------------------------------------
    // Event handlers
    // -----------------------------------------------------------------------

    method Notify(e: LogEvent, n: Notice)
      modifies this`notifications
      ensures notifications == Notified(old(notifications), e, n)
    {
      if n.account == [] || n.account == n.actor {
        return;
      }
      var id := MaxId(notifications) + 1;
      notifications := notifications + [NotificationRow(id, n.account, n.kind, n.actor, n.postId, n.communityId,
                                                        e.payload, TimestampOf(e), e.height, e.txIndex, e.sequence)];
    }

    method UpdateIdentity(account: Bytes, core: IdentityCore, ts: u64)
      modifies this`identities
      ensures identities == old(identities)[account := IdentityRow(core, ts)]
    {
      identities := identities[account := IdentityRow(core, ts)];
    }

    method ApplyIdentityEvent(e: LogEvent, event: Id.Event)
      modifies this`identities, this`devices, this`notifications
      ensures identities == IdentitiesAfter(old(identities), event, TimestampOf(e))
      ensures devices == DevicesAfter(old(devices), event, TimestampOf(e))
      ensures notifications == if IdentityNotice(event).Some?
              then Notified(old(notifications), e, IdentityNotice(event).value)
                               else old(notifications)
    {
      hide Notified, RegisteredCore, TimestampOf;
      var ts := TimestampOf(e);
      if event.Registered? {
        UpdateIdentity(event.account, RegisteredCore(event), ts);
      } else if event.account in identities {
        var updated := IdentityUpdate(identities[event.account].core, event);
        if updated.Some? {
          UpdateIdentity(event.account, updated.value, ts);
        }
      }
      match event
      case DeviceAuthorized(a, d, capabilities, expiresAt, deviceLabel, epoch, _) =>
        devices := devices[DeviceId(a, d) :=
                             DeviceRow(DeviceCore(capabilities, expiresAt, epoch, false, deviceLabel, ts), ts)];
        Notify(e, Notice(a, Device, d, None, None));
      case DeviceRevoked(a, d, _) =>
        var key := DeviceId(a, d);
        if key in devices {
          devices := devices[key := DeviceRow(devices[key].core.(revoked := true), ts)];
        }
        Notify(e, Notice(a, Device, d, None, None));
      case RecoveryProposed(a, guardian, _, _, _, _, _) => Notify(e, Notice(a, Recovery, guardian, None, None));
      case Recovered(a, _, newOwner, _, _) => Notify(e, Notice(a, Recovery, newOwner, None, None));
      case _ =>
    }

    /** The post's own row: inserted at the event's position, or its content replaced. */
    method PutPost(e: LogEvent)
      requires e.payload.Published?
      modifies this`posts
      ensures posts == PostsAfter(old(posts), e)
    {
      var p, ts := e.payload, TimestampOf(e);
      if p.postId in posts {
        posts := posts[p.postId := posts[p.postId].(versionNumber := VersionOf(p.versionNumber),
                                                    contentHash := p.contentHash,
                                                    previousVersion := p.previousVersion, epoch := p.epoch,
                                                    envelope := p.envelope, media := p.media, updatedAt := ts)];
      } else {
        posts := posts[p.postId := PostRow(p.author, p.authorSequence, VersionOf(p.versionNumber), p.contentHash,
                                           p.previousVersion, p.audience, p.audienceId, p.epoch, p.envelope, p.media,
                                           p.replyTo, p.idempotencyKey, p.protocolVersion, 0, "", "", ts, ts, e.txId,
                                           e.height, e.txIndex, e.sequence)];
      }
    }

    /** Stores every well addressed key of the set and tells its recipient. */
    method DistributeKeys(e: LogEvent)
      requires e.payload.KeysDistributed?
      modifies this`keyPackages, this`notifications
      ensures keyPackages == KeyPackagesAfter(old(keyPackages), e)
      ensures notifications == KeysNotified(old(notifications), e, PackagesOf(e))
    {
      hide Notified, TimestampOf;
      if e.payload.packages.None? {
        return;
      }
      var keys := e.payload.packages.value;
      for index := 0 to |keys|
        invariant keyPackages == KeysAdded(old(keyPackages), e, keys[..index])
        invariant notifications == KeysNotified(old(notifications), e, keys[..index])
      {
        assert keys[..index + 1][..index] == keys[..index];
        var key, id := keys[index], KeyId(EventId(e.height, e.txIndex, e.sequence), index);
        if |key.recipient| == ADDRESS_LENGTH {
          if id !in keyPackages {
            keyPackages := keyPackages[id := KeyPackageRow(e.payload.author, e.payload.audienceId, e.payload.epoch,
                                                           key.recipient, key.keyVersion, key.encoded, e.txId,
                                                           TimestampOf(e))];
          }
          Notify(e, Notice(key.recipient, Keys, e.payload.author, None, None));
        }
      }
      assert keys[..|keys|] == keys;
    }

    method ApplyPublicationEvent(e: LogEvent)
      modifies this`posts, this`versions, this`reactions, this`keyPackages, this`outcomes, this`notifications
      ensures PublicationTables(posts, versions, reactions, keyPackages, outcomes) ==
              ApplyPublications(old(PublicationTables(posts, versions, reactions, keyPackages, outcomes)), e)
      ensures var notice := PublicationNotice(old(posts), e);
              notifications == if e.payload.KeysDistributed? then KeysNotified(old(notifications), e, PackagesOf(e))
                               else if notice.Some? then Notified(old(notifications), e, notice.value)
                               else old(notifications)
    {
      hide KeysAdded, KeysNotified, Notified, TimestampOf;
      match e.payload
      case KeysDistributed(_, _, _, _, _) => DistributeKeys(e);
      case CrossPostOutcome(author, idempotencyKey, adapter, state, externalRef, postId, manifestHash, _) =>
        outcomes := outcomes[OutcomeId(author, idempotencyKey, adapter) :=
                               OutcomeRow(state, externalRef, postId, manifestHash, TimestampOf(e), e.height, e.txId)];
      case Published(author, postId, _, versionNumber, contentHash, previousVersion, envelope, media, _, _, _, replyTo,
                     _, _, _) =>
        var existing := Lookup(posts, postId);
        PutPost(e);
        versions := versions[VersionId(postId, VersionOf(versionNumber)) :=
                               VersionRow(contentHash, previousVersion, envelope, media, e.txId, e.height,
                                          TimestampOf(e))];
        if existing.None? && replyTo != "" {
          if replyTo in posts {
            Notify(e, Notice(posts[replyTo].author, Reply, author, Some(replyTo), None));
          }
        }
      case Lifecycle(postId, state, reason, replacementId, _) =>
        if postId in posts && posts[postId].state != 2 {
          posts := posts[postId := posts[postId].(state := state, stateReason := reason,
                                                  replacementId := replacementId, updatedAt := TimestampOf(e))];
        }
      case Reacted(actor, postId, postAuthor, reaction, removed, _) =>
        var key := ReactionId(postId, actor, reaction);
        if removed {
          reactions := reactions - {key};
        } else {
          reactions := reactions[key := ReactionRow(TimestampOf(e), e.height, e.txId)];
          Notify(e, Notice(postAuthor, Reaction, actor, Some(postId), None));
        }
      case _ =>
    }

    /** The community's own row. */
    method ApplyToCommunity(payload: Payload, ts: u64)
      modifies this`communities
      ensures communities == CommunitiesAfter(old(communities), payload, ts)
    {
      match payload
      case CommunityCreated(id, owner, name, policyHash, policyUri, transferDelayMs, _) =>
        communities := communities[id := CommunityRow(owner, name, policyHash, policyUri, transferDelayMs, [], 0, ts,
                                                      ts)];
      case CommunityPolicySet(id, policyHash, policyUri, _) =>
        if id in communities {
          communities := communities[id := communities[id].(policyHash := policyHash, policyUri := policyUri,
                                                            updatedAt := ts)];
        }
      case TransferProposed(id, newOwner, effectiveAt) =>
        if id in communities {
          communities := communities[id := communities[id].(pendingOwner := newOwner,
                                                            transferEffectiveAt := effectiveAt, updatedAt := ts)];
        }
      case TransferCancelled(id, _) =>
        if id in communities {
          communities := communities[id := communities[id].(pendingOwner := [], transferEffectiveAt := 0,
                                                            updatedAt := ts)];
        }
      case Transferred(id, newOwner, _) =>
        if id in communities {
          communities := communities[id := communities[id].(owner := newOwner, pendingOwner := [],
                                                            transferEffectiveAt := 0, updatedAt := ts)];
        }
      case RoleSet(id, _, _, _, _, _, _) =>
        if id in communities {
          communities := communities[id := communities[id].(updatedAt := ts)];
        }
      case _ =>
    }

    method ApplyCommunityEvent(e: LogEvent)
      modifies this`communities, this`roles, this`labels, this`notifications
      ensures communities == CommunitiesAfter(old(communities), e.payload, TimestampOf(e))
      ensures roles == RolesAfter(old(roles), e.payload, TimestampOf(e))
      ensures labels == LabelsAfter(old(labels), e)
      ensures var notice := CommunityNotice(posts, e.payload);
              notifications == if notice.Some? then Notified(old(notifications), e, notice.value)
                  else old(notifications)
    {
      hide CommunitiesAfter, Notified;
      var ts := TimestampOf(e);
      ApplyToCommunity(e.payload, ts);
      match e.payload
      case RoleSet(communityId, actor, subject, role, scope, expiresAt, _) =>
        var key := RoleId(communityId, subject);
        if role == 0 {
          roles := roles - {key};
        } else {
          roles := roles[key := RoleRow(role, scope, expiresAt, actor, ts)];
        }
        Notify(e, Notice(subject, Role, actor, None, Some(communityId)));
      case Labelled(communityId, actor, postId, text, reason, _) =>
        var key := EventId(e.height, e.txIndex, e.sequence);
        if key !in labels {
          labels := labels[key := LabelRow(communityId, postId, text, reason, actor, ts, e.txId)];
        }
        if postId in posts {
          Notify(e, Notice(posts[postId].author, Label, actor, Some(postId), Some(communityId)));
        }
      case _ =>
    }

    /** The `upsert` of the registry handler. */
    method PutEntry(key: EntryId, status: nat, effectiveAt: u64, abiHash: string, ts: u64)
      modifies this`entries
      ensures entries == UpsertEntry(old(entries), key, status, effectiveAt, abiHash, ts)
    {
      if key in entries {
        var row := entries[key].(status := status, effectiveAt := effectiveAt, updatedAt := ts);
        if abiHash != "" {
          row := row.(abiHash := abiHash);
        }
        entries := entries[key := row];
      } else {
        entries := entries[key := EntryRow(abiHash, status, effectiveAt, ts)];
      }
    }

    method ApplyRegistryEvent(e: LogEvent)
      modifies this`entries, this`meta
      ensures entries == EntriesAfter(old(entries), e.payload, TimestampOf(e))
      ensures meta == MetaAfter(old(meta), e.payload)
    {
      var ts := TimestampOf(e);
      match e.payload
      case EntryProposed(name, address, version, abiHash, effectiveAt) =>
        PutEntry(EntryId(name, address, version), 0, effectiveAt, abiHash, ts);
      case EntryActivated(name, address, version, _) => PutEntry(EntryId(name, address, version), 1, ts, "", ts);
      case EntryCancelled(name) =>
        entries := entries - set key | key in entries && key.name == name && entries[key].status == 0;
      case EntryDeprecated(name, address, version, _) => PutEntry(EntryId(name, address, version), 2, ts, "", ts);
      case AdminProposed(newAdmin, effectiveAt) =>
          meta := meta[PENDING_ADMIN_KEY := PendingAdminMeta(newAdmin, effectiveAt)];
      case AdminChanged(newAdmin) =>
        meta := meta[ADMIN_KEY := AdminMeta(newAdmin)];
        meta := meta - {PENDING_ADMIN_KEY};
      case _ =>
    }

    /** The `upsertRelationship` of the relationships handler. */
    method PutEdge(x: Bytes, y: Bytes, row: EdgeRow)
      modifies this`relations
      ensures relations == old(relations).(edges := old(relations).edges[PairKey(x, y) := row])
    {
      relations := relations.(edges := relations.edges[PairKey(x, y) := row]);
    }

    method ApplyRelationEvent(e: LogEvent, event: Social.Event)
      requires e.payload == SocialPayload(event)
      modifies this`relations, this`notifications
      ensures relations == ApplyRelations(old(relations), event, e.height)
      ensures notifications == if RelationNotice(event).Some?
                               then Notified(old(notifications), e, RelationNotice(event).value)
                               else old(notifications)
    {
      hide Notified;
      var ts := TimestampOf(e);
      match event
      case FriendRequested(requester, recipient, nonce, _) =>
        PutEdge(requester, recipient, EdgeRow(REQUESTED, requester, nonce, ts, 0, ts));
        Notify(e, Notice(recipient, FriendRequestKind, requester, None, None));
      case FriendAccepted(approver, requester, nonce, _, _) =>
        var existing := Lookup(relations.edges, PairKey(approver, requester));
        var requestedAt := if existing.Some? then existing.value.requestedAt else ts;
        PutEdge(approver, requester, EdgeRow(FRIENDS, requester, nonce, requestedAt, ts, ts));
        Notify(e, Notice(requester, FriendAcceptedKind, approver, None, None));
      case FriendRemoved(actor, peer, nonce, _) =>
        var existing := Lookup(relations.edges, PairKey(actor, peer));
        var before := if existing.Some? then existing.value else EdgeRow(INACTIVE, [], 0, 0, 0, 0);
        PutEdge(actor, peer, EdgeRow(INACTIVE, before.requester, nonce, before.requestedAt, before.since, ts));
      case Blocked(actor, target, _) =>
        relations := relations.(blocks := relations.blocks[Directed(actor, target) := ts]);
        var existing := Lookup(relations.edges, PairKey(actor, target));
        if existing.Some? && (existing.value.status == REQUESTED || existing.value.status == FRIENDS) {
          PutEdge(actor, target, existing.value.(status := INACTIVE, nonce := existing.value.nonce + 1,
                                                 updatedAt := ts));
        }
        relations := relations.(follows := relations.follows - {Directed(actor, target), Directed(target, actor)});
      case Unblocked(actor, target, _) =>
        relations := relations.(blocks := relations.blocks - {Directed(actor, target)});
      case Followed(follower, target, _) =>
        relations := relations.(follows := relations.follows[Directed(follower, target) := ts]);
      case Unfollowed(follower, target, _) =>
        relations := relations.(follows := relations.follows - {Directed(follower, target)});
      case AudienceRotated(account, newEpoch, reason, _) =>
        var row := AudienceRow(ts, reason, e.height);
        relations := relations.(audiences := relations.audiences[AudienceId(account, newEpoch) := row]);
      case _ =>
    }

    method ApplyMessagingEvent(e: LogEvent, event: Social.Event)
      modifies this`messaging
      ensures messaging == ApplyMessaging(old(messaging), event, e.height, e.txId)
    {
      if event.ConversationChanged? && event.conversation.Some? {
        var v := event.conversation.value;
        var row := ConversationRow(v.data, v.updatedAt);
        messaging := messaging.(conversations := messaging.conversations[Directed(v.a, v.b) := row]);
      } else if event.MessageSent? && event.message.Some? {
        var v := event.message.value;
        var key := MessageId(v.sender, v.messageId);
        if key !in messaging.messages {
          var row := MessageRow(v.recipient, v.sequence, v.data, event.envelope, e.height, e.txId);
          messaging := messaging.(messages := messaging.messages[key := row]);
        }
      }
    }

    method ApplyTokenEvent(e: LogEvent, event: Social.Event)
      modifies this`token
      ensures token == ApplyToken(old(token), event, PlaceOf(e), e.txId)
    {
      if event.AccountUpdated? {
        token := token.(accounts := token.accounts[event.account := event.data]);
      } else if event.TokenActivity? {
        var id := EventId(e.height, e.txIndex, e.sequence);
        if id !in token.activity {
          var row := ActivityRow(event.from, event.to, event.name, event.data, e.txId);
          token := token.(activity := token.activity[id := row]);
        }
      }
    }

    method ApplySponsorshipEvent(event: Social.Event)
      modifies this`sponsorship
      ensures sponsorship == ApplySponsorship(old(sponsorship), event)
    {
      var sponsors, grants := sponsorship.sponsors, sponsorship.grants;
      match event
      case SponsorSet(sponsor, endpoint, version, active, ts) =>
        var row := if sponsor in sponsors
                   then sponsors[sponsor].(endpoint := endpoint, policyVersion := version, active := active,
                                           updatedAt := ts)
                   else SponsorRow(endpoint, version, active, ts, ts);
        sponsorship := sponsorship.(sponsors := sponsors[sponsor := row]);
      case SponsorDeactivated(sponsor, ts) =>
        if sponsor in sponsors {
          var row := sponsors[sponsor].(active := false, updatedAt := ts);
          sponsorship := sponsorship.(sponsors := sponsors[sponsor := row]);
        }
      case GrantSet(sponsor, user, dailyOps, expiresAt, ts) =>
        var row := GrantRow(dailyOps, expiresAt, false, ts);
        sponsorship := sponsorship.(grants := grants[Directed(sponsor, user) := row]);
      case GrantRevoked(sponsor, user, ts) =>
        var key := Directed(sponsor, user);
        if key in grants {
          sponsorship := sponsorship.(grants := grants[key := grants[key].(revoked := true, updatedAt := ts)]);
        }
      case _ =>
    }

    /** Events of the four contracts of `SocialTables`; only relationships notify anybody. */
    method ApplySocialEvent(e: LogEvent)
      requires IsSocial(e.contract)
      modifies this`relations, this`messaging, this`token, this`sponsorship, this`notifications
      ensures SocialRows(relations, messaging, token, sponsorship) ==
              ApplySocial(old(SocialRows(relations, messaging, token, sponsorship)), e)
      ensures notifications == SocialNotices(old(notifications), e)
    {
      hide ApplyRelations, ApplyMessaging, ApplyToken, ApplySponsorship, RelationNotice, Notified;
      if e.payload.SocialPayload? {
        match e.contract
        case RelationshipsContract => ApplyRelationEvent(e, e.payload.social);
        case MessagingContract => ApplyMessagingEvent(e, e.payload.social);
        case TokenContract => ApplyTokenEvent(e, e.payload.social);
        case SponsorshipContract => ApplySponsorshipEvent(e.payload.social);
      }
    }

    method Apply(e: LogEvent)
      modifies this`identities, this`devices, this`posts, this`versions, this`reactions, this`keyPackages,
               this`outcomes, this`communities, this`roles, this`labels, this`entries, this`meta, this`relations,
               this`messaging, this`token, this`sponsorship, this`notifications
      ensures TablesNow() == ApplyEvent(old(TablesNow()), e)
    {
      hide IdentitiesAfter, DevicesAfter, ApplyPublications, CommunitiesAfter, RolesAfter, LabelsAfter, EntriesAfter,
           MetaAfter, Notified, KeysNotified, IdentityNotice, PublicationNotice, CommunityNotice,
           SocialNotices, TimestampOf, ApplySocial;
      ghost var after := ApplyEvent(TablesNow(), e);
      match e.contract
      case IdentityContract =>
        if e.payload.IdentityPayload? {
          ApplyIdentityEvent(e, e.payload.event);
        }
        assert TablesNow() == after;
      case PublicationsContract =>
        ApplyPublicationEvent(e);
        assert TablesNow() == after;
      case CommunitiesContract =>
        ApplyCommunityEvent(e);
        assert TablesNow() == after;
      case RegistryContract =>
        ApplyRegistryEvent(e);
        assert TablesNow() == after;
      case OtherContract =>
        assert TablesNow() == after;
      case _ =>
        ApplySocialEvent(e);
        assert TablesNow() == after;
    }

    // -----------------------------------------------------------------------
    // Replay
    // -----------------------------------------------------------------------

    /** Deletes the meta keys under `projection.`, one by one. */
    method DeleteProjectionMeta()
      modifies this`meta
      ensures meta == OtherMeta(old(meta))
    {
      hide IsProjectionKey;
      var keys := set k | k in meta && IsProjectionKey(k);
      while keys != {}
        invariant keys == set k | k in meta && IsProjectionKey(k)
        invariant OtherMeta(meta) == OtherMeta(old(meta))
        decreases keys
      {
        var key :| key in keys;
        ghost var before := meta;
        meta := meta - {key};
        keys := keys - {key};
        assert OtherMeta(meta) == OtherMeta(before);
      }
      assert forall k | k in meta :: !IsProjectionKey(k) by {
        assert forall k | k in meta && IsProjectionKey(k) :: k in keys;
      }
      assert OtherMeta(meta) == meta;
    }

    /** DELETE FROM the tables of accounts and posts. */
    method DeleteAccountRows()
      modifies this`identities, this`devices, this`posts, this`versions, this`reactions, this`keyPackages,
               this`outcomes
      ensures IdentityTables(identities, devices) == NoIdentityRows
      ensures PublicationTables(posts, versions, reactions, keyPackages, outcomes) == NoPublicationRows
    {
      identities := map[];
      devices := map[];
      posts := map[];
      versions := map[];
      reactions := map[];
      keyPackages := map[];
      outcomes := map[];
    }

    /** DELETE FROM every other projection table. */
    method DeleteOtherRows()
      modifies this`communities, this`roles, this`labels, this`entries, this`relations, this`messaging,
               this`token, this`sponsorship, this`notifications
      ensures CommunityTables(communities, roles, labels) == NoCommunityRows
      ensures SocialRows(relations, messaging, token, sponsorship) == NoSocialRows
      ensures entries == map[] && notifications == []
    {
      communities := map[];
      roles := map[];
      labels := map[];
      entries := map[];
      relations := NoRelationRows;
      messaging := NoMessagingRows;
      token := NoTokenRows;
      sponsorship := NoSponsorRows;
      notifications := [];
    }

    /** Removes every projection row; meta keys outside `projection.` stay. */
    method TruncateProjections()
      modifies this`identities, this`devices, this`posts, this`versions, this`reactions, this`keyPackages,
               this`outcomes, this`communities, this`roles, this`labels, this`entries, this`meta, this`relations,
               this`messaging, this`token, this`sponsorship, this`notifications
      ensures TablesNow() == Truncated(old(TablesNow()))
    {
      hide OtherMeta;
      DeleteAccountRows();
      DeleteOtherRows();
      DeleteProjectionMeta();
    }

    /** Truncates the projections and applies the whole log again, a page of rows at a time. */
    method ReplayProjections() returns (applied: nat)
      requires Sorted(log) && NaturalPositions(log)
      modifies this`identities, this`devices, this`posts, this`versions, this`reactions, this`keyPackages,
               this`outcomes, this`communities, this`roles, this`labels, this`entries, this`meta, this`relations,
               this`messaging, this`token, this`sponsorship, this`notifications
      ensures TablesNow() == Project(Truncated(old(TablesNow())), Rehydrated(cfg, log))
      ensures applied == |Rehydrated(cfg, log)|
    {
      hide ApplyEvent, Truncated, Project, Rehydrated, LogEventFromRow, RowsAfter, Sorted;
      TruncateProjections();
      ghost var start := TablesNow();
      NothingRehydrated(cfg, start);
      assert log[..0] == [];
      applied := 0;
      var cursor := START_CURSOR;
      ghost var k := 0;
      while true
        invariant 0 <= k <= |log| && cursor == CursorAt(log, k)
        invariant TablesNow() == Project(start, Rehydrated(cfg, log[..k]))
        invariant applied == |Rehydrated(cfg, log[..k])|
        decreases |log| - k
      {
        RowsAfterCursor(log, k);
        var matching := RowsAfter(log, cursor);
        var rows := if |matching| > REPLAY_PAGE then matching[..REPLAY_PAGE] else matching;
        if rows == [] {
          break;
        }
        for i := 0 to |rows|
          invariant TablesNow() == Project(start, Rehydrated(cfg, log[..k + i]))
          invariant applied == |Rehydrated(cfg, log[..k + i])|
        {
          RowProjects(cfg, log, start, k + i);
          assert rows[i] == log[k + i];
          assert k + (i + 1) == (k + i) + 1;
          var event := LogEventFromRow(cfg, rows[i]);
          if event.Some? {
            Apply(event.value);
            applied := applied + 1;
          }
        }
        cursor := rows[|rows| - 1].pos;
        k := k + |rows|;
      }
      assert log[..k] == log;
    }

    // -----------------------------------------------------------------------
    // Transactions of the sync loop
    // -----------------------------------------------------------------------

    method RestoreAccounts(saved: Tables)
      modifies this`identities, this`devices, this`posts, this`versions, this`reactions, this`keyPackages,
               this`outcomes
      ensures IdentityTables(identities, devices) == saved.identity
      ensures PublicationTables(posts, versions, reactions, keyPackages, outcomes) == saved.publications
    {
      identities := saved.identity.identities;
      devices := saved.identity.devices;
      posts := saved.publications.posts;
      versions := saved.publications.versions;
      reactions := saved.publications.reactions;
      keyPackages := saved.publications.keyPackages;
      outcomes := saved.publications.outcomes;
    }

    method RestoreOthers(saved: Tables)
      modifies this`communities, this`roles, this`labels, this`relations, this`messaging, this`token,
               this`sponsorship
      ensures CommunityTables(communities, roles, labels) == saved.communities
      ensures SocialRows(relations, messaging, token, sponsorship) == saved.social
    {
      communities := saved.communities.communities;
      roles := saved.communities.roles;
      labels := saved.communities.labels;
      relations := saved.social.relations;
      messaging := saved.social.messaging;
      token := saved.social.token;
      sponsorship := saved.social.sponsorship;
    }

    method RestoreTables(saved: Tables)
      modifies this`identities, this`devices, this`posts, this`versions, this`reactions, this`keyPackages,
               this`outcomes, this`communities, this`roles, this`labels, this`entries, this`meta, this`relations,
               this`messaging, this`token, this`sponsorship, this`notifications
      ensures TablesNow() == saved
    {
      RestoreAccounts(saved);
      RestoreOthers(saved);
      entries := saved.registry.entries;
      meta := saved.registry.meta;
      notifications := saved.notifications;
    }

    /** ROLLBACK: every table as it was. */
    method Restore(saved: Db)
      modifies this
      ensures Now() == saved
    {
      log := saved.log;
      checkpoints := saved.checkpoints;
      RestoreTables(saved.tables);
    }

    /** All of a block's effects or none of them; false when it throws. */
    method ApplyBlock(block: ChainBlock, startHeight: nat) returns (ok: bool)
      modifies this
      ensures var r := Database.ApplyBlock(cfg, old(Now()), block, startHeight);
              ok == r.Some? && Now() == if r.Some? then r.value else old(Now())
    {
      hide ApplyEvent, InsertRow;
      var saved := Now();
      var last := LastCheckpoint(checkpoints);
      if !IsNext(last, block, startHeight) {
        return false;
      }
      for i := 0 to |block.events|
        invariant InsertEvents(saved, block, i) == Some(Now())
      {
        var log' := InsertRow(log, RowOf(block, block.events[i]));
        if log'.None? {
          ConflictStays(saved, block, i + 1, |block.events|);
          Restore(saved);
          return false;
        }
        log := log'.value;
        Apply(LogEventOf(block, block.events[i]));
      }
      checkpoints := checkpoints + [CheckpointOf(cfg, last, block)];
      return true;
    }

    /** Drops every block above `height` and rebuilds the projections; the number of events replayed. */
    method RollbackTo(height: int) returns (replayed: nat)
      requires Sorted(log) && NaturalPositions(log)
      modifies this
      ensures Now() == RolledBack(cfg, old(Now()), height)
    {
      LogUpToSubset(log, height);
      LogUpToSorted(log, height);
      log := LogUpTo(log, height);
      checkpoints := CheckpointsUpTo(checkpoints, height);
      replayed := ReplayProjections();
    }
  }

  lemma {:induction false} ConflictStays(db: Db, block: ChainBlock, i: nat, n: nat)
    requires i <= n <= |block.events| && InsertEvents(db, block, i).None?
    ensures InsertEvents(db, block, n).None?
    decreases n
  {
    if i < n {
      ConflictStays(db, block, i, n - 1);
    }
  }

  lemma {:induction false} LogUpToSorted(log: seq<LogRow>, h: int)
    requires Sorted(log)
    ensures Sorted(LogUpTo(log, h))
  {
    if log != [] {
      LogUpToSorted(log[..|log| - 1], h);
      LogUpToSubset(log[..|log| - 1], h);
      assert forall row | row in log[..|log| - 1] :: Before(row.pos, log[|log| - 1].pos);
    }
  }
}
