/**
 * What the relationship, message and key tables show of a whole log: every pair its last event, every follow that
 * nothing ended, the first message of each id, every well addressed key of every distribution.
 */
module SocialLog {
  import opened Wrappers
  import opened Bytes
  import opened SocialTables
  import opened Projections
  import opened Chain
  import opened Database
  import opened Sync
  import opened Paging
  import Social = SocialTables

  ghost function Relations(log: seq<LogEvent>): RelationTables {
    Project(FreshTables, log).social.relations
  }

  /** The relationships event a log event carries, if it does. */
  function RelationOf(e: LogEvent): Option<Social.Event> {
    if e.contract == RelationshipsContract && e.payload.SocialPayload? then Some(e.payload.social) else None
  }

  lemma LogStep(log: seq<LogEvent>)
    requires log != []
    ensures Project(FreshTables, log) == ApplyEvent(Project(FreshTables, log[..|log| - 1]), log[|log| - 1])
  {
    hide ApplyEvent;
  }

  /** Only relationships events reach these tables. */
  lemma RelationStep(t: Tables, e: LogEvent)
    ensures ApplyEvent(t, e).social.relations ==
            if RelationOf(e).Some? then ApplyRelations(t.social.relations, RelationOf(e).value, e.height)
            else t.social.relations
  {
    hide ApplyIdentity, ApplyPublications, ApplyCommunities, ApplyRegistry, NoticesAfter, ApplyRelations,
         ApplyMessaging, ApplyToken, ApplySponsorship;
  }

  // -------------------------------------------------------------------------
  // Edges
  // -------------------------------------------------------------------------

  /** The pair an event is about; follows, unblocking and audiences leave edges alone. */
  function PairOf(e: LogEvent): Option<PairId> {
    if RelationOf(e).None? then None
    else
      match RelationOf(e).value
      case FriendRequested(requester, recipient, _, _) => Some(PairKey(requester, recipient))
      case FriendAccepted(approver, requester, _, _, _) => Some(PairKey(approver, requester))
      case FriendRemoved(actor, peer, _, _) => Some(PairKey(actor, peer))
      case Blocked(actor, target, _) => Some(PairKey(actor, target))
      case _ => None
  }

  ghost predicate KnownStatus(rows: map<PairId, EdgeRow>) {
    forall p | p in rows :: rows[p].status in {REQUESTED, FRIENDS, INACTIVE}
  }

  /** The edge as the last event of its pair leaves it. */
  ghost predicate EdgeAfterLast(rows: map<PairId, EdgeRow>, pair: PairId, event: Social.Event) {
    match event
    case FriendRequested(requester, _, nonce, ts) =>
      pair in rows && rows[pair] == EdgeRow(REQUESTED, requester, nonce, ts, 0, ts)
    case FriendAccepted(_, requester, nonce, _, ts) =>
      && pair in rows && rows[pair].status == FRIENDS && rows[pair].requester == requester
      && rows[pair].nonce == nonce && rows[pair].since == rows[pair].updatedAt == ts
    case FriendRemoved(_, _, nonce, ts) =>
      pair in rows && rows[pair].status == INACTIVE && rows[pair].nonce == nonce && rows[pair].updatedAt == ts
    case _ => pair in rows ==> rows[pair].status == INACTIVE
  }

  lemma EdgeStep(rows: map<PairId, EdgeRow>, e: LogEvent, pair: PairId)
    requires KnownStatus(rows) && RelationOf(e).Some?
    ensures var after := EdgesAfter(rows, RelationOf(e).value);
            && KnownStatus(after)
            && (PairOf(e) == Some(pair) ==> EdgeAfterLast(after, pair, RelationOf(e).value))
            && (PairOf(e) != Some(pair) ==>
                  (pair in after <==> pair in rows) && (pair in rows ==> after[pair] == rows[pair]))
  {
  }

  lemma {:induction false} StatusKnown(log: seq<LogEvent>)
    ensures KnownStatus(Relations(log).edges)
  {
    if log != [] {
      var init, e := log[..|log| - 1], log[|log| - 1];
      StatusKnown(init);
      LogStep(log);
      RelationStep(Project(FreshTables, init), e);
      hide ApplyEvent, Project, KnownStatus, EdgesAfter, PairOf;
      if RelationOf(e).Some? {
        EdgeStep(Relations(init).edges, e, PairKey([], []));
      }
    }
  }

  /**
   * Every pair shows the last event about it: a request, an acceptance, a removal; after a block there is no open
   * request and no friendship, whatever was there before.
   */
  lemma {:induction false} EdgeShowsLastEvent(log: seq<LogEvent>, pair: PairId, i: nat)
    requires i < |log| && PairOf(log[i]) == Some(pair)
    requires forall k | i < k < |log| :: PairOf(log[k]) != Some(pair)
    ensures EdgeAfterLast(Relations(log).edges, pair, RelationOf(log[i]).value)
  {
    var init, e := log[..|log| - 1], log[|log| - 1];
    StatusKnown(init);
    LogStep(log);
    RelationStep(Project(FreshTables, init), e);
    if RelationOf(e).Some? {
      EdgeStep(Relations(init).edges, e, pair);
    }
    hide ApplyEvent, Project, KnownStatus, EdgesAfter;
    if i + 1 < |log| {
      EdgeShowsLastEvent(init, pair, i);
    }
  }

  /** A pair no event was about has no row. */
  lemma {:induction false} NoEdgeWithoutEvent(log: seq<LogEvent>, pair: PairId)
    requires forall k | 0 <= k < |log| :: PairOf(log[k]) != Some(pair)
    ensures pair !in Relations(log).edges
  {
    if log != [] {
      var init, e := log[..|log| - 1], log[|log| - 1];
      StatusKnown(init);
      LogStep(log);
      RelationStep(Project(FreshTables, init), e);
      if RelationOf(e).Some? {
        EdgeStep(Relations(init).edges, e, pair);
      }
      hide ApplyEvent, Project, KnownStatus, EdgesAfter;
      NoEdgeWithoutEvent(init, pair);
    }
  }

  // -------------------------------------------------------------------------
  // Follows
  // -------------------------------------------------------------------------

  predicate Follows(e: LogEvent, a: Bytes, b: Bytes) {
    RelationOf(e).Some? && RelationOf(e).value.Followed?
    && RelationOf(e).value.follower == a && RelationOf(e).value.target == b
  }

  /** Unfollowing ends a follow, and so does a block by either side. */
  predicate EndsFollow(e: LogEvent, a: Bytes, b: Bytes) {
    && RelationOf(e).Some?
    && match RelationOf(e).value
       case Unfollowed(follower, target, _) => follower == a && target == b
       case Blocked(actor, target, _) => (actor == a && target == b) || (actor == b && target == a)
       case _ => false
  }

  lemma FollowStep(t: Tables, e: LogEvent, a: Bytes, b: Bytes)
    ensures var before, after := t.social.relations.follows, ApplyEvent(t, e).social.relations.follows;
            && (Directed(a, b) in after <==> Follows(e, a, b) || (Directed(a, b) in before && !EndsFollow(e, a, b)))
            && (Directed(a, b) in after && Follows(e, a, b) ==> after[Directed(a, b)] == TimestampOf(e))
            && (Directed(a, b) in after && !Follows(e, a, b) ==> after[Directed(a, b)] == before[Directed(a, b)])
  {
    RelationStep(t, e);
    hide ApplyEvent, EdgesAfter, BlocksAfter, AudiencesAfter;
  }

  /** The follow made by event `i` was neither ended nor renewed since. */
  ghost predicate FollowsSince(log: seq<LogEvent>, a: Bytes, b: Bytes, i: nat) {
    && i < |log| && Follows(log[i], a, b)
    && forall k | i < k < |log| :: !EndsFollow(log[k], a, b) && !Follows(log[k], a, b)
  }

  lemma FollowsSinceSnoc(log: seq<LogEvent>, a: Bytes, b: Bytes, i: nat)
    requires log != [] && i < |log| - 1
    ensures var e := log[|log| - 1];
            FollowsSince(log, a, b, i) <==>
            FollowsSince(log[..|log| - 1], a, b, i) && !EndsFollow(e, a, b) && !Follows(e, a, b)
  {
    hide Follows, EndsFollow;
    var init := log[..|log| - 1];
    assert forall k | 0 <= k < |init| :: init[k] == log[k];
    if FollowsSince(init, a, b, i) && !EndsFollow(log[|log| - 1], a, b) && !Follows(log[|log| - 1], a, b) {
      assert forall k | i < k < |log| - 1 :: log[k] == init[k];
    }
    if FollowsSince(log, a, b, i) {
      assert forall k | i < k < |init| :: log[k] == init[k];
    }
  }

  /** A follow is shown exactly when some event made it and none ended it since, with the time of the last one. */
  lemma {:induction false} FollowShownExactly(log: seq<LogEvent>, a: Bytes, b: Bytes)
    ensures Directed(a, b) in Relations(log).follows <==> exists i: nat :: FollowsSince(log, a, b, i)
    ensures forall i: nat | FollowsSince(log, a, b, i) ::
              Directed(a, b) in Relations(log).follows
              && Relations(log).follows[Directed(a, b)] == TimestampOf(log[i])
  {
    if log != [] {
      var n := |log| - 1;
      var init, e := log[..n], log[n];
      FollowShownExactly(init, a, b);
      LogStep(log);
      FollowStep(Project(FreshTables, init), e, a, b);
      assert Follows(e, a, b) ==> FollowsSince(log, a, b, n);
      hide ApplyEvent, Project, Follows, EndsFollow, TimestampOf;
      forall i: nat | i < n
        ensures FollowsSince(log, a, b, i) <==>
                FollowsSince(init, a, b, i) && !EndsFollow(e, a, b) && !Follows(e, a, b)
      {
        FollowsSinceSnoc(log, a, b, i);
      }
      assert forall i: nat | FollowsSince(log, a, b, i) :: i < n || (i == n && Follows(e, a, b));
      if Directed(a, b) in Relations(log).follows && !Follows(e, a, b) {
        var i: nat :| FollowsSince(init, a, b, i);
        assert FollowsSince(log, a, b, i);
      }
    }
  }

  // -------------------------------------------------------------------------
  // Messages
  // -------------------------------------------------------------------------

  /** A message of this id, as its event carries it. */
  predicate Sends(e: LogEvent, id: MessageId) {
    && e.contract == MessagingContract && e.payload.SocialPayload? && e.payload.social.MessageSent?
    && e.payload.social.message.Some?
    && MessageId(e.payload.social.message.value.sender, e.payload.social.message.value.messageId) == id
  }

  function MessageRowOf(e: LogEvent, id: MessageId): MessageRow
    requires Sends(e, id)
  {
    var v := e.payload.social.message.value;
    MessageRow(v.recipient, v.sequence, v.data, e.payload.social.envelope, e.height, e.txId)
  }

  ghost function Messages(log: seq<LogEvent>): map<MessageId, MessageRow> {
    Project(FreshTables, log).social.messaging.messages
  }

  lemma MessageStep(t: Tables, e: LogEvent, id: MessageId)
    ensures var before, after := t.social.messaging.messages, ApplyEvent(t, e).social.messaging.messages;
            && (id in after <==> id in before || Sends(e, id))
            && (id in before ==> after[id] == before[id])
            && (id !in before && Sends(e, id) ==> after[id] == MessageRowOf(e, id))
  {
    hide ApplyIdentity, ApplyPublications, ApplyCommunities, ApplyRegistry, NoticesAfter, ApplyRelations, ApplyToken,
         ApplySponsorship, ConversationsAfter;
  }

  lemma {:induction false} NoMessageUnsent(log: seq<LogEvent>, id: MessageId)
    requires forall k | 0 <= k < |log| :: !Sends(log[k], id)
    ensures id !in Messages(log)
  {
    if log != [] {
      LogStep(log);
      MessageStep(Project(FreshTables, log[..|log| - 1]), log[|log| - 1], id);
      hide ApplyEvent, Project, Sends;
      NoMessageUnsent(log[..|log| - 1], id);
    }
  }

  /** Of all messages with one sender and id the first is shown, for good. */
  lemma {:induction false} FirstMessageStays(log: seq<LogEvent>, id: MessageId, i: nat)
    requires i < |log| && Sends(log[i], id) && forall k | 0 <= k < i :: !Sends(log[k], id)
    ensures id in Messages(log) && Messages(log)[id] == MessageRowOf(log[i], id)
  {
    var init, e := log[..|log| - 1], log[|log| - 1];
    LogStep(log);
    MessageStep(Project(FreshTables, init), e, id);
    if i + 1 < |log| {
      FirstMessageStays(init, id, i);
    } else {
      NoMessageUnsent(init, id);
    }
  }

  // -------------------------------------------------------------------------
  // Key packages
  // -------------------------------------------------------------------------

  ghost function Packages(log: seq<LogEvent>): map<KeyId, KeyPackageRow> {
    Project(FreshTables, log).publications.keyPackages
  }

  predicate Distributes(e: LogEvent) {
    e.contract == PublicationsContract && e.payload.KeysDistributed?
  }

  /** The event delivers a key to an address at this place and index. */
  predicate Delivers(e: LogEvent, id: KeyId) {
    && Distributes(e) && PlaceOf(e) == id.event && id.index < |PackagesOf(e)|
    && |PackagesOf(e)[id.index].recipient| == ADDRESS_LENGTH
  }

  function DeliveredRow(e: LogEvent, id: KeyId): KeyPackageRow
    requires Delivers(e, id)
  {
    KeyRowOf(e, PackagesOf(e)[id.index])
  }

  lemma {:induction false} KeysAddedExactly(rows: map<KeyId, KeyPackageRow>, e: LogEvent, keys: seq<SealedKey>,
                                            id: KeyId)
    requires e.payload.KeysDistributed?
    ensures var after := KeysAdded(rows, e, keys);
            var added := id.event == PlaceOf(e) && id.index < |keys| && |keys[id.index].recipient| == ADDRESS_LENGTH;
            && (id in after <==> id in rows || added)
            && (id in rows ==> after[id] == rows[id])
            && (id !in rows && added ==> after[id] == KeyRowOf(e, keys[id.index]))
  {
    hide KeyRowOf;
    if keys != [] {
      KeysAddedExactly(rows, e, keys[..|keys| - 1], id);
    }
  }

  lemma PackageStep(t: Tables, e: LogEvent, id: KeyId)
    ensures var before, after := t.publications.keyPackages, ApplyEvent(t, e).publications.keyPackages;
            && (id in after <==> id in before || Delivers(e, id))
            && (id in before ==> after[id] == before[id])
            && (id !in before && Delivers(e, id) ==> after[id] == DeliveredRow(e, id))
  {
    hide ApplyIdentity, ApplyCommunities, ApplyRegistry, ApplySocial, NoticesAfter, PostsAfter, VersionsAfter,
         ReactionsAfter, OutcomesAfter, KeysAdded, KeyRowOf;
    if e.payload.KeysDistributed? {
      KeysAddedExactly(t.publications.keyPackages, e, PackagesOf(e), id);
    }
  }

  /** No earlier event of an ordered log delivers what the last one delivers. */
  lemma DeliveredOnce(log: seq<LogEvent>, id: KeyId, i: nat)
    requires Ascending(log) && i < |log| - 1 && Delivers(log[i], id)
    ensures !Delivers(log[|log| - 1], id)
  {
    hide Distributes, PackagesOf;
    assert Before(EventPos(log[i]), EventPos(log[|log| - 1]));
  }

  lemma {:induction false} StoredIsDelivered(log: seq<LogEvent>, id: KeyId)
    ensures id in Packages(log) ==> exists i :: 0 <= i < |log| && Delivers(log[i], id)
  {
    if log != [] && id in Packages(log) {
      var n := |log| - 1;
      StoredIsDelivered(log[..n], id);
      LogStep(log);
      PackageStep(Project(FreshTables, log[..n]), log[n], id);
      hide ApplyEvent, Project, Delivers, DeliveredRow;
      if !Delivers(log[n], id) {
        var i :| 0 <= i < n && Delivers(log[..n][i], id);
        assert Delivers(log[i], id);
      }
    }
  }

  lemma {:induction false} DeliveredIsStored(log: seq<LogEvent>, id: KeyId, i: nat)
    requires Ascending(log) && i < |log| && Delivers(log[i], id)
    ensures id in Packages(log) && Packages(log)[id] == DeliveredRow(log[i], id)
  {
    var n := |log| - 1;
    var init, e := log[..n], log[n];
    assert Ascending(init);
    LogStep(log);
    PackageStep(Project(FreshTables, init), e, id);
    hide ApplyEvent, Project, Delivers, DeliveredRow, Ascending;
    if i < n {
      DeliveredIsStored(init, id, i);
    } else {
      StoredIsDelivered(init, id);
      if j :| 0 <= j < n && Delivers(init[j], id) {
        DeliveredOnce(log, id, j);
      }
    }
  }

  /**
   * The key table holds exactly the keys that some distribution of the log delivers to an address, each as its event
   * carries it: none is lost, none replaced by a later one.
   */
  lemma PackagesAreDelivered(log: seq<LogEvent>, id: KeyId)
    requires Ascending(log)
    ensures id in Packages(log) <==> exists i :: 0 <= i < |log| && Delivers(log[i], id)
    ensures forall i | 0 <= i < |log| && Delivers(log[i], id) :: Packages(log)[id] == DeliveredRow(log[i], id)
  {
    hide Delivers, DeliveredRow, Ascending;
    StoredIsDelivered(log, id);
    forall i | 0 <= i < |log| && Delivers(log[i], id)
      ensures id in Packages(log) && Packages(log)[id] == DeliveredRow(log[i], id)
    {
      DeliveredIsStored(log, id, i);
    }
  }

  /** The same in the database of any chain of blocks. */
  lemma IndexedPackagesAreDelivered(cfg: Config, blocks: seq<ChainBlock>, startHeight: nat, id: KeyId)
    requires Chained(cfg, blocks, startHeight)
    ensures var rows, log := Indexed(cfg, blocks).tables.publications.keyPackages, AllEvents(blocks);
            && (id in rows <==> exists i :: 0 <= i < |log| && Delivers(log[i], id))
            && (forall i | 0 <= i < |log| && Delivers(log[i], id) :: rows[id] == DeliveredRow(log[i], id))
  {
    IndexedAscending(cfg, blocks, startHeight);
    IndexedLogSorted(cfg, blocks, startHeight);
    hide Delivers, DeliveredRow;
    PackagesAreDelivered(AllEvents(blocks), id);
  }
}
