/**
 * The tables the indexer keeps for the relationships, messaging, token and sponsorship contracts
 * (`apps/indexer/src/projections.ts`): their events, rows, and the row changes each event makes.
 */
module SocialTables {
  import opened Wrappers
  import opened Bytes

  datatype Conversation = Conversation(a: Bytes, b: Bytes, data: string, updatedAt: string)

  datatype Message = Message(sender: Bytes, recipient: Bytes, messageId: string, sequence: string, data: string)

  /** Every event carries its own time; `data` is the JSON text of a decoded value. */
  datatype Event =
    | FriendRequested(requester: Bytes, recipient: Bytes, nonce: nat, timestamp: u64)
    | FriendAccepted(approver: Bytes, requester: Bytes, nonce: nat, keyPackageRef: string, timestamp: u64)
    | FriendRemoved(actor: Bytes, peer: Bytes, nonce: nat, timestamp: u64)
    | Blocked(actor: Bytes, target: Bytes, timestamp: u64)
    | Unblocked(actor: Bytes, target: Bytes, timestamp: u64)
    | Followed(follower: Bytes, target: Bytes, timestamp: u64)
    | Unfollowed(follower: Bytes, target: Bytes, timestamp: u64)
    | AudienceRotated(account: Bytes, newEpoch: nat, reason: string, timestamp: u64)
    | ConversationChanged(conversation: Option<Conversation>, timestamp: u64)
    | MessageSent(message: Option<Message>, envelope: Bytes, timestamp: u64)
    | AccountUpdated(account: Bytes, data: string, timestamp: u64)
    | TokenActivity(name: string, from: Bytes, to: Bytes, data: string, timestamp: u64)
    | SponsorSet(sponsor: Bytes, endpoint: string, policyVersion: nat, active: bool, timestamp: u64)
    | SponsorDeactivated(sponsor: Bytes, timestamp: u64)
    | GrantSet(sponsor: Bytes, user: Bytes, dailyOps: nat, expiresAt: u64, timestamp: u64)
    | GrantRevoked(sponsor: Bytes, user: Bytes, timestamp: u64)

  // -------------------------------------------------------------------------
  // Rows
  // -------------------------------------------------------------------------

  /** The position of an event in the log, as a key. */
  datatype EventId = EventId(height: nat, txIndex: nat, sequence: nat)

  /** An unordered pair of accounts; the table stores it sorted. */
  datatype PairId = PairId(members: set<Bytes>)

  datatype Directed = Directed(source: Bytes, target: Bytes)

  const REQUESTED: nat := 1
  const FRIENDS: nat := 2
  const INACTIVE: nat := 3

  datatype EdgeRow = EdgeRow(
    status: nat, requester: Bytes, nonce: nat, requestedAt: u64, since: u64, updatedAt: u64)

  datatype AudienceId = AudienceId(account: Bytes, epoch: nat)

  datatype AudienceRow = AudienceRow(since: u64, reason: string, height: nat)

  datatype RelationTables = RelationTables(
    edges: map<PairId, EdgeRow>, blocks: map<Directed, u64>, follows: map<Directed, u64>,
    audiences: map<AudienceId, AudienceRow>)

  datatype ConversationRow = ConversationRow(data: string, updatedAt: string)

  datatype MessageId = MessageId(sender: Bytes, messageId: string)

  datatype MessageRow = MessageRow(
    recipient: Bytes, sequence: string, data: string, envelope: Bytes, height: nat, txId: string)

  datatype MessagingTables = MessagingTables(
    conversations: map<Directed, ConversationRow>, messages: map<MessageId, MessageRow>)

  datatype ActivityRow = ActivityRow(actor: Bytes, recipient: Bytes, name: string, data: string, txId: string)

  datatype TokenTables = TokenTables(accounts: map<Bytes, string>, activity: map<EventId, ActivityRow>)

  datatype SponsorRow = SponsorRow(
    endpoint: string, policyVersion: nat, active: bool, registeredAt: u64, updatedAt: u64)

  datatype GrantRow = GrantRow(dailyOps: nat, expiresAt: u64, revoked: bool, updatedAt: u64)

  datatype SponsorTables = SponsorTables(sponsors: map<Bytes, SponsorRow>, grants: map<Directed, GrantRow>)

  const NoRelationRows := RelationTables(map[], map[], map[], map[])
  const NoMessagingRows := MessagingTables(map[], map[])
  const NoTokenRows := TokenTables(map[], map[])
  const NoSponsorRows := SponsorTables(map[], map[])

  // -------------------------------------------------------------------------
  // relationships
  // -------------------------------------------------------------------------

  function PairKey(x: Bytes, y: Bytes): PairId {
    PairId({x, y})
  }

  /** A block ends a pending or accepted friendship and advances its nonce. */
  function Severed(row: EdgeRow, ts: u64): EdgeRow {
    if row.status == REQUESTED || row.status == FRIENDS
    then row.(status := INACTIVE, nonce := row.nonce + 1, updatedAt := ts) else row
  }

  function EdgesAfter(rows: map<PairId, EdgeRow>, e: Event): map<PairId, EdgeRow> {
    match e
    case FriendRequested(requester, recipient, nonce, ts) =>
      rows[PairKey(requester, recipient) := EdgeRow(REQUESTED, requester, nonce, ts, 0, ts)]
    case FriendAccepted(approver, requester, nonce, _, ts) =>
      var key := PairKey(approver, requester);
      rows[key := EdgeRow(FRIENDS, requester, nonce, if key in rows then rows[key].requestedAt else ts, ts, ts)]
    case FriendRemoved(actor, peer, nonce, ts) =>
      var key := PairKey(actor, peer);
      rows[key := if key in rows then rows[key].(status := INACTIVE, nonce := nonce, updatedAt := ts)
                  else EdgeRow(INACTIVE, [], nonce, 0, 0, ts)]
    case Blocked(actor, target, ts) =>
      var key := PairKey(actor, target);
      if key in rows then rows[key := Severed(rows[key], ts)] else rows
    case _ => rows
  }

  function BlocksAfter(rows: map<Directed, u64>, e: Event): map<Directed, u64> {
    match e
    case Blocked(actor, target, ts) => rows[Directed(actor, target) := ts]
    case Unblocked(actor, target, _) => rows - {Directed(actor, target)}
    case _ => rows
  }

  function FollowsAfter(rows: map<Directed, u64>, e: Event): map<Directed, u64> {
    match e
    case Blocked(actor, target, _) => rows - {Directed(actor, target), Directed(target, actor)}
    case Followed(follower, target, ts) => rows[Directed(follower, target) := ts]
    case Unfollowed(follower, target, _) => rows - {Directed(follower, target)}
    case _ => rows
  }

  function AudiencesAfter(rows: map<AudienceId, AudienceRow>, e: Event, height: nat): map<AudienceId, AudienceRow> {
    match e
    case AudienceRotated(account, epoch, reason, ts) =>
      rows[AudienceId(account, epoch) := AudienceRow(ts, reason, height)]
    case _ => rows
  }

  function ApplyRelations(t: RelationTables, e: Event, height: nat): RelationTables {
    RelationTables(EdgesAfter(t.edges, e), BlocksAfter(t.blocks, e), FollowsAfter(t.follows, e),
                   AudiencesAfter(t.audiences, e, height))
  }

  // -------------------------------------------------------------------------
  // messaging, token, sponsorship
  // -------------------------------------------------------------------------

  function ConversationsAfter(rows: map<Directed, ConversationRow>, e: Event): map<Directed, ConversationRow> {
    match e
    case ConversationChanged(Some(v), _) => rows[Directed(v.a, v.b) := ConversationRow(v.data, v.updatedAt)]
    case _ => rows
  }

  /** A message that is already there stays as it is. */
  function MessagesAfter(rows: map<MessageId, MessageRow>, e: Event, height: nat, txId: string):
    map<MessageId, MessageRow>
  {
    match e
    case MessageSent(Some(v), envelope, _) =>
      var key := MessageId(v.sender, v.messageId);
      if key in rows then rows
      else rows[key := MessageRow(v.recipient, v.sequence, v.data, envelope, height, txId)]
    case _ => rows
  }

  function ApplyMessaging(t: MessagingTables, e: Event, height: nat, txId: string): MessagingTables {
    MessagingTables(ConversationsAfter(t.conversations, e), MessagesAfter(t.messages, e, height, txId))
  }

  function AccountsAfter(rows: map<Bytes, string>, e: Event): map<Bytes, string> {
    match e
    case AccountUpdated(account, data, _) => rows[account := data]
    case _ => rows
  }

  function ActivityAfter(rows: map<EventId, ActivityRow>, e: Event, id: EventId, txId: string):
    map<EventId, ActivityRow>
  {
    match e
    case TokenActivity(name, from, to, data, _) =>
      if id in rows then rows else rows[id := ActivityRow(from, to, name, data, txId)]
    case _ => rows
  }

  function ApplyToken(t: TokenTables, e: Event, id: EventId, txId: string): TokenTables {
    TokenTables(AccountsAfter(t.accounts, e), ActivityAfter(t.activity, e, id, txId))
  }

  /** A later setting keeps the time of the first. */
  function SponsorsAfter(rows: map<Bytes, SponsorRow>, e: Event): map<Bytes, SponsorRow> {
    match e
    case SponsorSet(sponsor, endpoint, version, active, ts) =>
      var registered := if sponsor in rows then rows[sponsor].registeredAt else ts;
      rows[sponsor := SponsorRow(endpoint, version, active, registered, ts)]
    case SponsorDeactivated(sponsor, ts) =>
      if sponsor in rows then rows[sponsor := rows[sponsor].(active := false, updatedAt := ts)] else rows
    case _ => rows
  }

  function GrantsAfter(rows: map<Directed, GrantRow>, e: Event): map<Directed, GrantRow> {
    match e
    case GrantSet(sponsor, user, dailyOps, expiresAt, ts) =>
      rows[Directed(sponsor, user) := GrantRow(dailyOps, expiresAt, false, ts)]
    case GrantRevoked(sponsor, user, ts) =>
      var key := Directed(sponsor, user);
      if key in rows then rows[key := rows[key].(revoked := true, updatedAt := ts)] else rows
    case _ => rows
  }

  function ApplySponsorship(t: SponsorTables, e: Event): SponsorTables {
    SponsorTables(SponsorsAfter(t.sponsors, e), GrantsAfter(t.grants, e))
  }
}
