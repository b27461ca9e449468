/**
 * Post listings of an indexed database. Rows ordered by position alone are listed strictly, because
 * different posts have different positions; so following the cursors serves every selected post once.
 */
module PostListing {
  import opened Wrappers
  import opened Projections
  import opened Chain
  import opened Database
  import opened Sync
  import opened Paging

  /** The selected rows, each once, ordered by falling position; rows at one position may stand in any order. */
  ghost predicate IsSelection(list: seq<PostEntry>, posts: map<string, PostRow>, where: PostEntry -> bool) {
    && (forall e :: e in list <==> e.id in posts && posts[e.id] == e.row && where(e))
    && (forall i, j | 0 <= i < j < |list| :: list[i] != list[j])
    && (forall i, j | 0 <= i < j < |list| :: !Before(PosOf(list[i].row), PosOf(list[j].row)))
  }

  /** Distinct positions make the order strict. */
  lemma SelectionIsListing(list: seq<PostEntry>, posts: map<string, PostRow>, where: PostEntry -> bool,
                           log: seq<LogEvent>)
    requires IsSelection(list, posts, where) && PostsPlaced(posts, log)
    ensures IsListing(list, posts, where)
  {
    hide PosOf;
    forall i, j | 0 <= i < j < |list|
      ensures Before(PosOf(list[j].row), PosOf(list[i].row))
    {
      assert list[i] in list && list[j] in list && list[i] != list[j];
      assert PosOf(list[i].row) != PosOf(list[j].row);
    }
  }

  // -------------------------------------------------------------------------
  // There is such a list
  // -------------------------------------------------------------------------

  ghost predicate Ordered(list: seq<PostEntry>) {
    forall i, j | 0 <= i < j < |list| :: list[i] != list[j] && !Before(PosOf(list[i].row), PosOf(list[j].row))
  }

  ghost function Inserted(list: seq<PostEntry>, e: PostEntry): seq<PostEntry> {
    if list == [] || !Before(PosOf(e.row), PosOf(list[0].row)) then [e] + list
    else [list[0]] + Inserted(list[1..], e)
  }

  lemma {:induction false} InsertedMembers(list: seq<PostEntry>, e: PostEntry)
    ensures forall x :: x in Inserted(list, e) <==> x == e || x in list
  {
    if !(list == [] || !Before(PosOf(e.row), PosOf(list[0].row))) {
      InsertedMembers(list[1..], e);
      assert forall x :: x in list <==> x == list[0] || x in list[1..];
    }
  }

  lemma OrderedCons(first: PostEntry, rest: seq<PostEntry>)
    requires Ordered(rest) && forall x | x in rest :: x != first && !Before(PosOf(first.row), PosOf(x.row))
    ensures Ordered([first] + rest)
  {
    hide PosOf;
  }

  lemma {:induction false} InsertedOrdered(list: seq<PostEntry>, e: PostEntry)
    requires Ordered(list) && e !in list
    ensures Ordered(Inserted(list, e))
  {
    if list == [] || !Before(PosOf(e.row), PosOf(list[0].row)) {
      assert forall i | 0 < i < |list| :: !Before(PosOf(list[0].row), PosOf(list[i].row));
      OrderedCons(e, list);
    } else {
      InsertedOrdered(list[1..], e);
      InsertedMembers(list[1..], e);
      OrderedCons(list[0], Inserted(list[1..], e));
    }
  }

  lemma {:induction false} OrderedExists(entries: set<PostEntry>)
    ensures exists list :: Ordered(list) && forall x :: x in list <==> x in entries
    decreases |entries|
  {
    if entries == {} {
      assert Ordered([]) && forall x :: x in [] <==> x in entries;
    } else {
      var e :| e in entries;
      OrderedExists(entries - {e});
      var list :| Ordered(list) && forall x :: x in list <==> x in entries - {e};
      InsertedOrdered(list, e);
      InsertedMembers(list, e);
      hide Ordered, Inserted;
      assert forall x :: x in Inserted(list, e) <==> x in entries;
    }
  }

  lemma SelectionExists(posts: map<string, PostRow>, where: PostEntry -> bool)
    ensures exists list :: IsSelection(list, posts, where)
  {
    var entries := set id | id in posts && where(PostEntry(id, posts[id])) :: PostEntry(id, posts[id]);
    OrderedExists(entries);
    var list :| Ordered(list) && forall x :: x in list <==> x in entries;
    assert forall e :: e in entries <==> e.id in posts && posts[e.id] == e.row && where(e);
    assert IsSelection(list, posts, where);
  }

  // -------------------------------------------------------------------------
  // Indexed databases
  // -------------------------------------------------------------------------

  /** Heights and indexes of the log fit in safe integers. */
  ghost predicate SafeLog(log: seq<LogEvent>) {
    forall e | e in log ::
      e.height <= MAX_SAFE_INTEGER && e.txIndex <= MAX_SAFE_INTEGER && e.sequence <= MAX_SAFE_INTEGER
  }

  lemma PlacedIsSafe(list: seq<PostEntry>, posts: map<string, PostRow>, log: seq<LogEvent>)
    requires PostsPlaced(posts, log) && SafeLog(log) && forall e | e in list :: e.id in posts && posts[e.id] == e.row
    ensures SafePositions(list)
  {
    forall e | e in list
      ensures e.row.height <= MAX_SAFE_INTEGER && e.row.txIndex <= MAX_SAFE_INTEGER
      ensures e.row.sequence <= MAX_SAFE_INTEGER
    {
      var i :| 0 <= i < |log| && EventPos(log[i]) == PosOf(posts[e.id]);
      assert log[i] in log;
    }
  }

  /**
   * In the database of every chain, whatever the filter: the rows come in strictly falling positions, and following
   * `nextCursor` from the first page serves the whole selection once, newest first, in at most one page per post.
   */
  lemma IndexedListingsPageExactly(cfg: Config, blocks: seq<ChainBlock>, startHeight: nat, where: PostEntry -> bool,
                                   list: seq<PostEntry>, limit: nat, rounds: nat)
    requires Chained(cfg, blocks, startHeight) && SafeLog(AllEvents(blocks)) && limit >= 1 && rounds > |list|
    requires IsSelection(list, Indexed(cfg, blocks).tables.publications.posts, where)
    ensures IsListing(list, Indexed(cfg, blocks).tables.publications.posts, where)
    ensures FollowPosts(list, None, limit, rounds) == list
  {
    hide Chained, AllEvents, Indexed, IsListing, PostsPlaced, SafeLog, FollowPosts, SafePositions;
    var posts := Indexed(cfg, blocks).tables.publications.posts;
    IndexedPostsArePaged(cfg, blocks, startHeight);
    SelectionIsListing(list, posts, where, AllEvents(blocks));
    PlacedIsSafe(list, posts, AllEvents(blocks));
    PostPagingIsExact(list, posts, where, limit, rounds);
  }
}
