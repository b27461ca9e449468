/**
 * Paging (`apps/indexer/src/queries.ts`): the event log by whole blocks, and posts by a position
 * cursor. Following the pages yields everything once, in order.
 */
module Paging {
  import opened Wrappers
  import opened Projections
  import opened Chain
  import opened Database
  import opened Reorg
  import opened Sync

  // -------------------------------------------------------------------------
  // Events by whole blocks
  // -------------------------------------------------------------------------

  predicate InRange(height: int, lo: int, hi: Option<int>) {
    lo <= height && (hi.Some? ==> height < hi.value)
  }

  /** The rows with `lo <= height < hi`, in log order; no upper bound when `hi` is None. */
  function Between(log: seq<LogRow>, lo: int, hi: Option<int>): seq<LogRow> {
    if log == [] then []
    else
      var last := log[|log| - 1];
      Between(log[..|log| - 1], lo, hi)
      + (if InRange(last.pos.height, lo, hi) then [last] else [])
  }

  /** SELECT ... WHERE height = h. */
  function RowsAt(log: seq<LogRow>, h: int): seq<LogRow> {
    Between(log, h, Some(h + 1))
  }

  function NotAt(rows: seq<LogRow>, height: int): seq<LogRow> {
    if rows == [] then []
    else NotAt(rows[..|rows| - 1], height) + (if rows[|rows| - 1].pos.height != height then [rows[|rows| - 1]] else [])
  }

  datatype EventPage = EventPage(items: seq<LogRow>, nextHeight: Option<int>)

  function FirstRows(rows: seq<LogRow>, n: nat): seq<LogRow> {
    if n <= |rows| then rows[..n] else rows
  }

  /** Decoded events from a height, whole blocks at a time. */
  function EventsFrom(log: seq<LogRow>, tip: Option<int>, from: int, limit: nat): EventPage
    requires limit >= 1
  {
    if tip.None? || from > tip.value then EventPage([], None)
    else
      var rows := FirstRows(Between(log, from, None), limit + 1);
      if |rows| <= limit then EventPage(rows, None)
      else
        var extra, full := rows[limit].pos.height, rows[..limit];
        if extra != full[limit - 1].pos.height then EventPage(full, Some(extra))
        else
          var page := NotAt(full, extra);
          if page != [] then EventPage(page, Some(extra))
          else EventPage(RowsAt(log, extra), if extra >= tip.value then None else Some(extra + 1))
  }

  ghost predicate HeightsSorted(rows: seq<LogRow>) {
    forall i, j | 0 <= i <= j < |rows| :: rows[i].pos.height <= rows[j].pos.height
  }

  /** Heights never decrease along the log, and none is above the tip. */
  ghost predicate UpTo(log: seq<LogRow>, tip: Option<int>) {
    && HeightsSorted(log)
    && (forall row | row in log :: tip.Some? && row.pos.height <= tip.value)
  }

  lemma {:induction false} BetweenMembers(log: seq<LogRow>, lo: int, hi: Option<int>)
    ensures forall x :: x in Between(log, lo, hi) <==>
                          x in log && InRange(x.pos.height, lo, hi)
  {
    hide InRange;
    if log != [] {
      BetweenMembers(log[..|log| - 1], lo, hi);
      assert log == log[..|log| - 1] + [log[|log| - 1]];
    }
  }

  lemma {:induction false} BetweenConcat(a: seq<LogRow>, b: seq<LogRow>, lo: int, hi: Option<int>)
    ensures Between(a + b, lo, hi) == Between(a, lo, hi) + Between(b, lo, hi)
  {
    hide InRange;
    if b == [] {
      assert a + b == a;
    } else {
      BetweenConcat(a, b[..|b| - 1], lo, hi);
      assert (a + b)[..|a + b| - 1] == a + b[..|b| - 1];
    }
  }

  lemma {:induction false} BetweenAll(rows: seq<LogRow>, lo: int, hi: Option<int>)
    requires forall x | x in rows :: InRange(x.pos.height, lo, hi)
    ensures Between(rows, lo, hi) == rows
  {
    if rows != [] {
      BetweenAll(rows[..|rows| - 1], lo, hi);
    }
  }

  lemma {:induction false} BetweenNone(rows: seq<LogRow>, lo: int, hi: Option<int>)
    requires forall x | x in rows :: !InRange(x.pos.height, lo, hi)
    ensures Between(rows, lo, hi) == []
  {
    if rows != [] {
      BetweenNone(rows[..|rows| - 1], lo, hi);
    }
  }

  /** Narrowing a range. */
  lemma {:induction false} BetweenTwice(log: seq<LogRow>, lo: int, hi: Option<int>)
    ensures Between(Between(log, lo, None), lo, hi) == Between(log, lo, hi)
  {
    if log != [] {
      var init, last := log[..|log| - 1], log[|log| - 1];
      BetweenTwice(init, lo, hi);
      var rows := Between(init, lo, None);
      assert (rows + [last])[..|rows|] == rows && rows + [] == rows;
    }
  }

  /** Where a sorted log is cut at a height, the two parts are what lies below and from it. */
  lemma {:induction false} CutAt(log: seq<LogRow>, lo: int, mid: int, hi: Option<int>)
    requires HeightsSorted(log)
    requires lo <= mid && (hi.Some? ==> mid <= hi.value)
    ensures Between(log, lo, hi) == Between(log, lo, Some(mid)) + Between(log, mid, hi)
  {
    if log != [] {
      var init, last := log[..|log| - 1], log[|log| - 1];
      CutAt(init, lo, mid, hi);
      if last.pos.height < mid {
        BetweenNone(log, mid, hi);
        BetweenNone(init, mid, hi);
      }
    }
  }

  lemma {:induction false} BetweenSorted(log: seq<LogRow>, lo: int, hi: Option<int>)
    requires HeightsSorted(log)
    ensures HeightsSorted(Between(log, lo, hi))
  {
    if log != [] {
      var init, last := log[..|log| - 1], log[|log| - 1];
      BetweenSorted(init, lo, hi);
      BetweenMembers(init, lo, hi);
      assert forall x | x in Between(init, lo, hi) :: x.pos.height <= last.pos.height;
    }
  }

  lemma {:induction false} NotAtIsBelow(rows: seq<LogRow>, lo: int, height: int)
    requires forall x | x in rows :: lo <= x.pos.height <= height
    ensures NotAt(rows, height) == Between(rows, lo, Some(height))
  {
    if rows != [] {
      NotAtIsBelow(rows[..|rows| - 1], lo, height);
    }
  }

  /** A page that was cut short before row `limit`, at the height of that row. */
  lemma CutPage(rows: seq<LogRow>, from: int, limit: nat)
    requires 1 <= limit < |rows|
    requires HeightsSorted(rows)
    requires forall x | x in rows :: from <= x.pos.height
    ensures var extra, full := rows[limit].pos.height, rows[..limit];
            && Between(rows, from, Some(extra)) == NotAt(full, extra)
            && (extra != full[limit - 1].pos.height ==> NotAt(full, extra) == full)
  {
    var extra, full := rows[limit].pos.height, rows[..limit];
    assert rows == full + rows[limit..];
    BetweenConcat(full, rows[limit..], from, Some(extra));
    BetweenNone(rows[limit..], from, Some(extra));
    assert forall x | x in full :: exists i :: 0 <= i < limit && rows[i] == x;
    NotAtIsBelow(full, from, extra);
    if extra != full[limit - 1].pos.height {
      BetweenAll(full, from, Some(extra));
    }
  }

  /** The only block of a page that would split it, served whole. */
  lemma SplitBlock(log: seq<LogRow>, tip: int, from: int, extra: int)
    requires HeightsSorted(log) && (forall row | row in log :: row.pos.height <= tip) && from <= extra
    requires Between(log, from, Some(extra)) == []
    ensures RowsAt(log, extra) == Between(log, from, Some(extra + 1))
    ensures extra >= tip ==> RowsAt(log, extra) == Between(log, from, None)
  {
    CutAt(log, from, extra, Some(extra + 1));
    if extra >= tip {
      CutAt(log, from, extra + 1, None);
      BetweenNone(log, extra + 1, None);
    }
    hide Between;
  }

  ghost predicate IsOneBlock(log: seq<LogRow>, items: seq<LogRow>) {
    exists h :: items == RowsAt(log, h)
  }

  lemma OneBlock(log: seq<LogRow>, h: int)
    ensures IsOneBlock(log, RowsAt(log, h))
  {
  }

  /** Where a page with more rows than fit is cut. */
  lemma LongPageCut(log: seq<LogRow>, tip: int, from: int, limit: nat)
    requires limit >= 1 && HeightsSorted(log) && (forall row | row in log :: row.pos.height <= tip) && from <= tip
    requires |Between(log, from, None)| > limit
    ensures var rows := Between(log, from, None);
            var extra, full := rows[limit].pos.height, rows[..limit];
            && from <= extra <= tip
            && Between(log, from, Some(extra)) == NotAt(full, extra) && |NotAt(full, extra)| <= limit
            && (NotAt(full, extra) != [] ==> from < extra)
            && (extra != full[limit - 1].pos.height ==> NotAt(full, extra) == full)
  {
    var rows := Between(log, from, None);
    BetweenSorted(log, from, None);
    BetweenMembers(log, from, None);
    assert forall x | x in rows :: from <= x.pos.height <= tip;
    hide Between, HeightsSorted;
    CutPage(rows, from, limit);
    var extra, full := rows[limit].pos.height, rows[..limit];
    assert rows[limit] in rows;
    BetweenTwice(log, from, Some(extra));
    NotAtShorter(full, extra);
    NotAtBelow(rows, limit, from);
  }

  lemma NotAtBelow(rows: seq<LogRow>, limit: nat, from: int)
    requires 1 <= limit < |rows| && HeightsSorted(rows) && forall x | x in rows :: from <= x.pos.height
    ensures NotAt(rows[..limit], rows[limit].pos.height) != [] ==> from < rows[limit].pos.height
  {
    var full, extra := rows[..limit], rows[limit].pos.height;
    NotAtShorter(full, extra);
    if NotAt(full, extra) != [] {
      var x := NotAt(full, extra)[0];
      assert x in full;
      var i :| 0 <= i < limit && rows[i] == x;
      assert rows[i] in rows;
    }
    hide NotAt;
  }

  /** More rows than fit: the page ends before a block, or is one whole block. */
  lemma LongPage(log: seq<LogRow>, tip: int, from: int, limit: nat)
    requires limit >= 1 && HeightsSorted(log) && (forall row | row in log :: row.pos.height <= tip) && from <= tip
    requires |Between(log, from, None)| > limit
    ensures var page := EventsFrom(log, Some(tip), from, limit);
            && page.items == Between(log, from, page.nextHeight)
            && (page.nextHeight.Some? ==> from < page.nextHeight.value <= tip)
            && (|page.items| <= limit || IsOneBlock(log, page.items))
  {
    LongPageCut(log, tip, from, limit);
    hide Between, NotAt, HeightsSorted, RowsAt, IsOneBlock;
    var rows := Between(log, from, None);
    var extra, full := rows[limit].pos.height, rows[..limit];
    assert rows[..limit + 1][..limit] == full;
    if extra == full[limit - 1].pos.height && NotAt(full, extra) == [] {
      SplitBlock(log, tip, from, extra);
      OneBlock(log, extra);
    } else {
      assert full != [] && NotAt(full, extra) != [];
    }
  }

  /**
   * A page holds exactly the rows of the blocks from its start up to the next height, so no block is split; the
   * next height is beyond the start and not above the tip; only a single block exceeds the limit.
   */
  lemma PageIsWholeBlocks(log: seq<LogRow>, tip: Option<int>, from: int, limit: nat)
    requires limit >= 1 && UpTo(log, tip)
    ensures var page := EventsFrom(log, tip, from, limit);
            && page.items == Between(log, from, page.nextHeight)
            && (page.nextHeight.Some? ==>
                  from < page.nextHeight.value && tip.Some? && page.nextHeight.value <= tip.value)
            && (|page.items| <= limit || IsOneBlock(log, page.items))
  {
    if tip.None? || from > tip.value {
      BetweenNone(log, from, None);
    } else if |Between(log, from, None)| > limit {
      LongPage(log, tip.value, from, limit);
    }
    hide Between, RowsAt, NotAt;
  }

  lemma {:induction false} NotAtShorter(rows: seq<LogRow>, height: int)
    ensures |NotAt(rows, height)| <= |rows|
    ensures forall x | x in NotAt(rows, height) :: x in rows && x.pos.height != height
  {
    if rows != [] {
      NotAtShorter(rows[..|rows| - 1], height);
    }
  }

  /** All items of the pages that following `nextHeight` visits. */
  ghost function FollowEvents(log: seq<LogRow>, tip: Option<int>, from: int, limit: nat): seq<LogRow>
    requires limit >= 1 && UpTo(log, tip)
    decreases if tip.Some? && from <= tip.value then tip.value - from + 1 else 0
  {
    var page := EventsFrom(log, tip, from, limit);
    PageIsWholeBlocks(log, tip, from, limit);
    if page.nextHeight.None? then page.items else page.items + FollowEvents(log, tip, page.nextHeight.value, limit)
  }

  /** Following `nextHeight` from any start ends, and yields every row from there on once, in log order. */
  lemma {:induction false} EventPagingIsExact(log: seq<LogRow>, tip: Option<int>, from: int, limit: nat)
    requires limit >= 1 && UpTo(log, tip)
    ensures FollowEvents(log, tip, from, limit) == Between(log, from, None)
    decreases if tip.Some? && from <= tip.value then tip.value - from + 1 else 0
  {
    PageIsWholeBlocks(log, tip, from, limit);
    hide EventsFrom, IsOneBlock, Between;
    var page := EventsFrom(log, tip, from, limit);
    if page.nextHeight.Some? {
      EventPagingIsExact(log, tip, page.nextHeight.value, limit);
      CutAt(log, from, page.nextHeight.value, None);
    }
  }

  /** The log of an indexed chain can be paged. */
  lemma IndexedUpTo(cfg: Config, blocks: seq<ChainBlock>, startHeight: nat)
    requires Chained(cfg, blocks, startHeight)
    ensures UpTo(AllRows(blocks), if blocks == [] then None else Some(startHeight + |blocks| - 1))
  {
    IndexedLogSorted(cfg, blocks, startHeight);
    RowsHeights(blocks, cfg, startHeight);
    hide AllRows, Chained;
    var log := AllRows(blocks);
    forall i, j | 0 <= i <= j < |log|
      ensures log[i].pos.height <= log[j].pos.height
    {
      assert i < j ==> Before(log[i].pos, log[j].pos);
    }
  }

  // -------------------------------------------------------------------------
  // Cursors
  // -------------------------------------------------------------------------

  const MAX_SAFE_INTEGER := 9_007_199_254_740_991

  function Digit(d: nat): char
    requires d < 10
  {
    ('0' as int + d) as char
  }

  /** A number in decimal. */
  function Decimal(n: nat): string {
    if n < 10 then [Digit(n)] else Decimal(n / 10) + [Digit(n % 10)]
  }

  predicate IsDigit(c: char) {
    '0' <= c <= '9'
  }

  /** The number a string of digits denotes; None for anything else. */
  function DigitsValue(s: string): Option<nat> {
    if s == [] || !IsDigit(s[|s| - 1]) then None
    else
      var d := s[|s| - 1] as int - '0' as int;
      if |s| == 1 then Some(d)
      else
        var rest := DigitsValue(s[..|s| - 1]);
        if rest.None? then None else Some(rest.value * 10 + d)
  }

  /** `split(":")`. */
  function Split(s: string): (parts: seq<string>)
    ensures parts != []
  {
    if s == [] then [""]
    else
      var rest := Split(s[1..]);
      if s[0] == ':' then [""] + rest else [[s[0]] + rest[0]] + rest[1..]
  }

  function CursorText(p: Pos): string
    requires p.height >= 0 && p.txIndex >= 0 && p.sequence >= 0
  {
    Decimal(p.height) + ":" + Decimal(p.txIndex) + ":" + Decimal(p.sequence)
  }

  /** Three safe integers in plain digits, separated by colons; None otherwise. */
  function ParseCursor(text: string): Option<Pos> {
    var parts := Split(text);
    if |parts| != 3 then None
    else
      var h, t, s := DigitsValue(parts[0]), DigitsValue(parts[1]), DigitsValue(parts[2]);
      if h.None? || t.None? || s.None? then None
      else if h.value > MAX_SAFE_INTEGER || t.value > MAX_SAFE_INTEGER || s.value > MAX_SAFE_INTEGER then None
      else Some(Pos(h.value, t.value, s.value))
  }

  lemma {:induction false} DecimalDigits(n: nat)
    ensures Decimal(n) != [] && forall c | c in Decimal(n) :: IsDigit(c)
  {
    if n >= 10 {
      DecimalDigits(n / 10);
    }
  }

  lemma {:induction false} DecimalValue(n: nat)
    ensures DigitsValue(Decimal(n)) == Some(n)
  {
    if n >= 10 {
      DecimalValue(n / 10);
      DecimalDigits(n / 10);
      assert Decimal(n)[..|Decimal(n)| - 1] == Decimal(n / 10);
    }
  }

  /** A part without colons in front of a colon is the first part. */
  lemma {:induction false} SplitFirst(a: string, rest: string)
    requires ':' !in a
    ensures Split(a + ":" + rest) == [a] + Split(rest)
  {
    var s := a + ":" + rest;
    if a == [] {
      assert s[1..] == rest;
    } else {
      SplitFirst(a[1..], rest);
      assert s[1..] == a[1..] + ":" + rest;
      assert [a[0]] + a[1..] == a;
    }
  }

  lemma {:induction false} SplitNone(a: string)
    requires ':' !in a
    ensures Split(a) == [a]
  {
    if a != [] {
      SplitNone(a[1..]);
      assert [a[0]] + a[1..] == a;
    }
  }

  /** Cursors round-trip: what a page hands out is the position it is read back as. */
  lemma CursorRoundTrip(p: Pos)
    requires 0 <= p.height <= MAX_SAFE_INTEGER && 0 <= p.txIndex <= MAX_SAFE_INTEGER
             && 0 <= p.sequence <= MAX_SAFE_INTEGER
    ensures ParseCursor(CursorText(p)) == Some(p)
  {
    var h, t, s := Decimal(p.height), Decimal(p.txIndex), Decimal(p.sequence);
    DecimalDigits(p.height);
    DecimalDigits(p.txIndex);
    DecimalDigits(p.sequence);
    DecimalValue(p.height);
    DecimalValue(p.txIndex);
    DecimalValue(p.sequence);
    hide Decimal, DigitsValue, Split;
    assert CursorText(p) == h + ":" + (t + ":" + s);
    SplitFirst(h, t + ":" + s);
    SplitFirst(t, s);
    SplitNone(s);
    assert [h] + ([t] + [s]) == [h, t, s];
  }

  // -------------------------------------------------------------------------
  // Posts by position
  // -------------------------------------------------------------------------

  datatype PostEntry = PostEntry(id: string, row: PostRow)

  function PosOf(row: PostRow): Pos {
    Pos(row.height, row.txIndex, row.sequence)
  }

  /** The rows a filter selects, newest first. */
  ghost predicate IsListing(list: seq<PostEntry>, posts: map<string, PostRow>, where: PostEntry -> bool) {
    && (forall e :: e in list <==> e.id in posts && posts[e.id] == e.row && where(e))
    && (forall i, j | 0 <= i < j < |list| :: Before(PosOf(list[j].row), PosOf(list[i].row)))
  }

  datatype PostPage = PostPage(items: seq<PostEntry>, nextCursor: Option<string>)

  /** The entries before the cursor's position, in list order. */
  function BeforeCursor(list: seq<PostEntry>, cursor: Option<Pos>): seq<PostEntry> {
    if list == [] then []
    else
      (if cursor.None? || Before(PosOf(list[0].row), cursor.value) then [list[0]] else [])
      + BeforeCursor(list[1..], cursor)
  }

  /** One page of a listing; the cursor names the last row served when there are more. */
  function PagePosts(list: seq<PostEntry>, cursor: Option<Pos>, limit: nat): PostPage
    requires limit >= 1
  {
    var rows := BeforeCursor(list, cursor);
    if |rows| > limit then PostPage(rows[..limit], Some(CursorText(PosOf(rows[limit - 1].row))))
       else PostPage(rows, None)
  }

  ghost predicate Descending(list: seq<PostEntry>) {
    forall i, j | 0 <= i < j < |list| :: Before(PosOf(list[j].row), PosOf(list[i].row))
  }

  lemma {:induction false} NoCursor(list: seq<PostEntry>)
    ensures BeforeCursor(list, None) == list
  {
    if list != [] {
      NoCursor(list[1..]);
      assert [list[0]] + list[1..] == list;
    }
  }

  lemma {:induction false} AllBefore(list: seq<PostEntry>, cursor: Pos)
    requires forall e | e in list :: Before(PosOf(e.row), cursor)
    ensures BeforeCursor(list, Some(cursor)) == list
  {
    if list != [] {
      AllBefore(list[1..], cursor);
      assert [list[0]] + list[1..] == list;
    }
  }

  /** The cursor of entry k leaves the entries after it. */
  lemma {:induction false} CursorCuts(list: seq<PostEntry>, k: nat)
    requires Descending(list) && k < |list|
    ensures BeforeCursor(list, Some(PosOf(list[k].row))) == list[k + 1..]
  {
    if k == 0 {
      AllBefore(list[1..], PosOf(list[0].row));
    } else {
      assert Before(PosOf(list[k].row), PosOf(list[0].row));
      CursorCuts(list[1..], k - 1);
      assert list[1..][k..] == list[k + 1..];
    }
  }

  /** Positions fit in safe integers, as the indexer's heights and indexes do. */
  ghost predicate SafePositions(list: seq<PostEntry>) {
    forall e | e in list :: e.row.height <= MAX_SAFE_INTEGER && e.row.txIndex <= MAX_SAFE_INTEGER
        && e.row.sequence <= MAX_SAFE_INTEGER
  }

  /** The entries a page is cut from, `k` entries into the list. */
  lemma RestAfter(list: seq<PostEntry>, k: nat, cursor: Option<Pos>)
    requires k <= |list| && Descending(list)
    requires cursor == if k == 0 then None else Some(PosOf(list[k - 1].row))
    ensures BeforeCursor(list, cursor) == list[k..]
  {
    hide BeforeCursor, Descending;
    if k == 0 {
      NoCursor(list);
      assert list[0..] == list;
    } else {
      CursorCuts(list, k - 1);
    }
  }

  lemma EntryCursor(list: seq<PostEntry>, k: nat)
    requires k < |list| && SafePositions(list)
    ensures ParseCursor(CursorText(PosOf(list[k].row))) == Some(PosOf(list[k].row))
  {
    assert list[k] in list;
    CursorRoundTrip(PosOf(list[k].row));
    hide CursorText, ParseCursor;
  }

  /** The page after the first `k` entries, and the cursor it hands out. */
  lemma PageAfter(list: seq<PostEntry>, k: nat, cursor: Option<Pos>, limit: nat)
    requires limit >= 1 && k <= |list| && Descending(list) && SafePositions(list)
    requires cursor == if k == 0 then None else Some(PosOf(list[k - 1].row))
    ensures var page, n := PagePosts(list, cursor, limit), if k + limit <= |list| then k + limit else |list|;
            && page.items == list[k..n]
            && (page.nextCursor.Some? <==> n < |list|)
            && (page.nextCursor.Some? ==> n > k && ParseCursor(page.nextCursor.value) == Some(PosOf(list[n - 1].row)))
  {
    hide BeforeCursor, Descending, SafePositions, CursorText, ParseCursor, PosOf;
    RestAfter(list, k, cursor);
    if k + limit < |list| {
      EntryCursor(list, k + limit - 1);
      assert list[k..][limit - 1] == list[k + limit - 1];
      assert list[k..][..limit] == list[k..k + limit];
    } else {
      assert list[k..] == list[k..|list|];
    }
  }

  /** All items of the pages that following `nextCursor` visits; at most `rounds` pages. */
  ghost function FollowPosts(list: seq<PostEntry>, cursor: Option<Pos>, limit: nat, rounds: nat): seq<PostEntry>
    requires limit >= 1
    decreases rounds
  {
    if rounds == 0 then []
    else
      var page := PagePosts(list, cursor, limit);
      if page.nextCursor.None? then page.items
      else
        var next := ParseCursor(page.nextCursor.value);
        page.items + (if next.None? then [] else FollowPosts(list, next, limit, rounds - 1))
  }

  lemma {:induction false} FollowFrom(list: seq<PostEntry>, k: nat, cursor: Option<Pos>, limit: nat, rounds: nat)
    requires limit >= 1 && k <= |list| && Descending(list) && SafePositions(list) && rounds > |list| - k
    requires cursor == if k == 0 then None else Some(PosOf(list[k - 1].row))
    ensures FollowPosts(list, cursor, limit, rounds) == list[k..]
    decreases rounds
  {
    hide PagePosts, ParseCursor, Descending, SafePositions, PosOf;
    PageAfter(list, k, cursor, limit);
    var n := if k + limit <= |list| then k + limit else |list|;
    if n < |list| {
      FollowFrom(list, n, Some(PosOf(list[n - 1].row)), limit, rounds - 1);
      assert list[k..n] + list[n..] == list[k..];
    }
  }

  /**
   * Following `nextCursor` from the first page ends after at most one page per post and yields the whole filtered list
   * once, newest first.
   */
  lemma PostPagingIsExact(list: seq<PostEntry>, posts: map<string, PostRow>, where: PostEntry -> bool, limit: nat,
                          rounds: nat)
    requires limit >= 1 && IsListing(list, posts, where) && SafePositions(list) && rounds > |list|
    ensures FollowPosts(list, None, limit, rounds) == list
  {
    FollowFrom(list, 0, None, limit, rounds);
    assert list[0..] == list;
  }

  // -------------------------------------------------------------------------
  // Post positions are distinct
  // -------------------------------------------------------------------------

  function EventPos(e: LogEvent): Pos {
    Pos(e.height, e.txIndex, e.sequence)
  }

  ghost predicate Ascending(log: seq<LogEvent>) {
    forall i, j | 0 <= i < j < |log| :: Before(EventPos(log[i]), EventPos(log[j]))
  }

  /** Every post sits at the position of one event of the log, different posts at different ones. */
  ghost predicate PostsPlaced(posts: map<string, PostRow>, log: seq<LogEvent>) {
    && (forall id | id in posts :: exists i :: 0 <= i < |log| && EventPos(log[i]) == PosOf(posts[id]))
    && (forall a, b | a in posts && b in posts && a != b :: PosOf(posts[a]) != PosOf(posts[b]))
  }

  /** Posts keep their positions; a new one gets the event's. */
  lemma PositionsKept(t: Tables, e: LogEvent)
    ensures var posts, posts' := t.publications.posts, ApplyEvent(t, e).publications.posts;
            && (forall id | id in posts :: id in posts' && PosOf(posts'[id]) == PosOf(posts[id]))
            && (forall id | id in posts' && id !in posts :: PosOf(posts'[id]) == EventPos(e))
            && (forall a, b | a in posts' && a !in posts && b in posts' && b !in posts :: a == b)
  {
    hide NoticesAfter, ApplySocial, TimestampOf, ApplyIdentity, ApplyCommunities, ApplyRegistry, VersionsAfter,
         ReactionsAfter, KeyPackagesAfter, OutcomesAfter;
  }

  lemma ApplyKeepsPlaced(t: Tables, log: seq<LogEvent>, e: LogEvent)
    requires Ascending(log + [e]) && PostsPlaced(t.publications.posts, log)
    ensures PostsPlaced(ApplyEvent(t, e).publications.posts, log + [e])
  {
    var posts, posts' := t.publications.posts, ApplyEvent(t, e).publications.posts;
    PositionsKept(t, e);
    hide ApplyEvent, EventPos, PosOf;
    assert forall i | 0 <= i < |log| :: (log + [e])[i] == log[i] && EventPos(log[i]) != EventPos(e) by {
      assert forall i | 0 <= i < |log| :: Before(EventPos((log + [e])[i]), EventPos((log + [e])[|log|]));
    }
    forall id | id in posts'
      ensures exists i :: 0 <= i < |log + [e]| && EventPos((log + [e])[i]) == PosOf(posts'[id])
    {
      if id in posts {
        var i :| 0 <= i < |log| && EventPos(log[i]) == PosOf(posts[id]);
        assert (log + [e])[i] == log[i];
      } else {
        assert (log + [e])[|log|] == e;
      }
    }
  }

  /** The publication projection gives distinct posts distinct positions, which is what page cursors rely on. */
  lemma {:induction false} DistinctPositions(log: seq<LogEvent>)
    requires Ascending(log)
    ensures PostsPlaced(Project(FreshTables, log).publications.posts, log)
  {
    if log != [] {
      var init, e := log[..|log| - 1], log[|log| - 1];
      DistinctPositions(init);
      assert log == init + [e];
      ApplyKeepsPlaced(Project(FreshTables, init), init, e);
    }
  }

  lemma {:induction false} IndexedAscending(cfg: Config, blocks: seq<ChainBlock>, startHeight: nat)
    requires Chained(cfg, blocks, startHeight)
    ensures |AllEvents(blocks)| == |AllRows(blocks)|
    ensures forall i | 0 <= i < |AllEvents(blocks)| :: EventPos(AllEvents(blocks)[i]) == AllRows(blocks)[i].pos
  {
    if blocks != [] {
      IndexedAscending(cfg, blocks[..|blocks| - 1], startHeight);
    }
  }

  /** In every indexed database, after any applied and refused blocks and rollbacks, posts have distinct positions. */
  lemma IndexedPostsArePaged(cfg: Config, blocks: seq<ChainBlock>, startHeight: nat)
    requires Chained(cfg, blocks, startHeight)
    ensures PostsPlaced(Indexed(cfg, blocks).tables.publications.posts, AllEvents(blocks))
  {
    IndexedAscending(cfg, blocks, startHeight);
    IndexedLogSorted(cfg, blocks, startHeight);
    DistinctPositions(AllEvents(blocks));
  }
}
