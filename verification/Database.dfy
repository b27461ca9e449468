/**
 * The indexer database as a value (`apps/indexer/src/db.ts`, `applyBlock` and `rollbackTo` of
 * `sync.ts`, `replayProjections`): the authoritative log and checkpoints, the projections, and the
 * statements on them.
 */
module Database {
  import opened Wrappers
  import opened Bytes
  import opened Projections
  import opened Chain

  /** Primary key of `event_log`; integers, because the replay cursor starts at -1. */
  datatype Pos = Pos(height: int, txIndex: int, sequence: int)

  const START_CURSOR := Pos(-1, -1, -1)

  /** Row-value comparison `(h, t, s) < (h', t', s')`. */
  predicate Before(p: Pos, q: Pos) {
    || p.height < q.height
    || (p.height == q.height && p.txIndex < q.txIndex)
    || (p.height == q.height && p.txIndex == q.txIndex && p.sequence < q.sequence)
  }

  datatype LogRow = LogRow(
    pos: Pos, blockId: string, blockTimestamp: u64, txId: string, contract: Contract, name: string, raw: Bytes)

  datatype Checkpoint = Checkpoint(
    height: nat, blockId: string, previousId: string, timestamp: u64, stateHash: string, eventCount: nat)

  /** Log and checkpoints are kept in primary-key order. */
  datatype Db = Db(log: seq<LogRow>, checkpoints: seq<Checkpoint>, tables: Tables)

  const EmptyDb := Db([], [], FreshTables)

  ghost predicate Sorted(log: seq<LogRow>) {
    forall i, j | 0 <= i < j < |log| :: Before(log[i].pos, log[j].pos)
  }

  // -------------------------------------------------------------------------
  // Rows and events
  // -------------------------------------------------------------------------

  function RowOf(block: ChainBlock, e: ChainEvent): LogRow {
    LogRow(Pos(block.height, e.txIndex, e.sequence), block.id, block.timestamp, e.txId, e.data.contract, e.name, e.raw)
  }

  function LogEventOf(block: ChainBlock, e: ChainEvent): LogEvent {
    LogEvent(block.height, block.id, block.timestamp, e.txIndex, e.sequence, e.txId, e.data.contract, e.data.payload)
  }

  function ViewOf(block: ChainBlock, e: ChainEvent): EventView {
    EventView(block.height, block.id, e.txIndex, e.txId, e.sequence, e.name, e.data)
  }

  function RowsOf(block: ChainBlock): (rows: seq<LogRow>)
    ensures |rows| == |block.events|
    ensures forall row | row in rows :: row.pos.height == block.height
  {
    seq(|block.events|, i requires 0 <= i < |block.events| => RowOf(block, block.events[i]))
  }

  function LogEventsOf(block: ChainBlock): (events: seq<LogEvent>)
    ensures |events| == |block.events|
  {
    seq(|block.events|, i requires 0 <= i < |block.events| => LogEventOf(block, block.events[i]))
  }

  function ViewsOf(block: ChainBlock): seq<EventView> {
    seq(|block.events|, i requires 0 <= i < |block.events| => ViewOf(block, block.events[i]))
  }

  /** Rehydrates a log row by decoding its raw bytes again; None when they do not decode. */
  function LogEventFromRow(cfg: Config, row: LogRow): Option<LogEvent>
    requires row.pos.height >= 0 && row.pos.txIndex >= 0 && row.pos.sequence >= 0
  {
    var decoded := cfg.decode(row.name, row.raw);
    if decoded.None? then None
    else
      Some(LogEvent(row.pos.height, row.blockId, row.blockTimestamp, row.pos.txIndex, row.pos.sequence, row.txId,
                    row.contract, decoded.value.payload))
  }

  ghost predicate NaturalPositions(log: seq<LogRow>) {
    forall row | row in log :: row.pos.height >= 0 && row.pos.txIndex >= 0 && row.pos.sequence >= 0
  }

  /** The events a log rehydrates to, in log order. */
  function Rehydrated(cfg: Config, log: seq<LogRow>): seq<LogEvent>
    requires NaturalPositions(log)
  {
    if log == [] then []
    else
      var last := LogEventFromRow(cfg, log[|log| - 1]);
      Rehydrated(cfg, log[..|log| - 1]) + (if last.Some? then [last.value] else [])
  }

  // -------------------------------------------------------------------------
  // Statements
  // -------------------------------------------------------------------------

  /** INSERT INTO event_log; None when the primary key is taken. */
  function InsertRow(log: seq<LogRow>, row: LogRow): Option<seq<LogRow>> {
    if log == [] || Before(log[|log| - 1].pos, row.pos) then Some(log + [row])
    else if log[|log| - 1].pos == row.pos then None
    else
      var init := InsertRow(log[..|log| - 1], row);
      if init.None? then None else Some(init.value + [log[|log| - 1]])
  }

  /** DELETE FROM event_log WHERE height > h. */
  function LogUpTo(log: seq<LogRow>, h: int): seq<LogRow> {
    if log == [] then []
    else LogUpTo(log[..|log| - 1], h) + (if log[|log| - 1].pos.height > h then [] else [log[|log| - 1]])
  }

  /** DELETE FROM checkpoints WHERE height > h. */
  function CheckpointsUpTo(rows: seq<Checkpoint>, h: int): seq<Checkpoint> {
    if rows == [] then []
    else CheckpointsUpTo(rows[..|rows| - 1], h) + (if rows[|rows| - 1].height > h then [] else [rows[|rows| - 1]])
  }

  /** SELECT ... WHERE height = h. */
  function CheckpointAt(rows: seq<Checkpoint>, h: int): Option<Checkpoint> {
    if rows == [] then None
    else if rows[|rows| - 1].height == h then Some(rows[|rows| - 1])
    else CheckpointAt(rows[..|rows| - 1], h)
  }

  /** SELECT ... ORDER BY height DESC LIMIT 1. */
  function LastCheckpoint(rows: seq<Checkpoint>): Option<Checkpoint> {
    if rows == [] then None else Some(rows[|rows| - 1])
  }

  /** SELECT ... WHERE (height, tx_index, sequence) > cursor ORDER BY the same, without the LIMIT. */
  function RowsAfter(log: seq<LogRow>, cursor: Pos): seq<LogRow> {
    if log == [] then []
    else RowsAfter(log[..|log| - 1], cursor) + (if Before(cursor, log[|log| - 1].pos) then [log[|log| - 1]] else [])
  }

  // -------------------------------------------------------------------------
  // applyBlock and rollbackTo
  // -------------------------------------------------------------------------

  /** Inserts the first `n` events of a block into the log and applies them; None on a key conflict. */
  function InsertEvents(db: Db, block: ChainBlock, n: nat): Option<Db>
    requires n <= |block.events|
  {
    if n == 0 then Some(db)
    else
      var before := InsertEvents(db, block, n - 1);
      if before.None? then None
      else
        var log := InsertRow(before.value.log, RowOf(block, block.events[n - 1]));
        if log.None? then None
        else Some(Db(log.value, before.value.checkpoints,
                     ApplyEvent(before.value.tables, LogEventOf(block, block.events[n - 1]))))
  }

  function CheckpointOf(cfg: Config, last: Option<Checkpoint>, block: ChainBlock): Checkpoint {
    Checkpoint(block.height, block.id, block.previous, block.timestamp,
               cfg.hash(if last.Some? then last.value.stateHash else "", ViewsOf(block)), |block.events|)
  }

  /**
   * The block follows the last checkpoint (without one, it stands at the start height); an empty `previous` is not
   * compared.
   */
  predicate IsNext(last: Option<Checkpoint>, block: ChainBlock, startHeight: nat) {
    && block.height == (if last.Some? then last.value.height + 1 else startHeight)
    && (last.Some? && block.previous != "" ==> last.value.blockId == block.previous)
  }

  /** One block applied in one transaction; None when it throws, and then nothing changes. */
  function ApplyBlock(cfg: Config, db: Db, block: ChainBlock, startHeight: nat): Option<Db> {
    var last := LastCheckpoint(db.checkpoints);
    if !IsNext(last, block, startHeight) then None
    else
      var inserted := InsertEvents(db, block, |block.events|);
      if inserted.None? then None
      else Some(inserted.value.(checkpoints := inserted.value.checkpoints + [CheckpointOf(cfg, last, block)]))
  }

  /** Truncates the projections and projects the log again. */
  function Replayed(cfg: Config, db: Db): Db
    requires NaturalPositions(db.log)
  {
    db.(tables := Project(Truncated(db.tables), Rehydrated(cfg, db.log)))
  }

  lemma {:induction false} LogUpToSubset(log: seq<LogRow>, h: int)
    ensures forall row | row in LogUpTo(log, h) :: row in log
  {
    if log != [] {
      LogUpToSubset(log[..|log| - 1], h);
    }
  }

  /** Drops every block above `h` and rebuilds the projections. */
  function RolledBack(cfg: Config, db: Db, h: int): Db
    requires NaturalPositions(db.log)
  {
    LogUpToSubset(db.log, h);
    Replayed(cfg, Db(LogUpTo(db.log, h), CheckpointsUpTo(db.checkpoints, h), db.tables))
  }

  // -------------------------------------------------------------------------
  // The database a list of blocks determines
  // -------------------------------------------------------------------------

  function AllRows(blocks: seq<ChainBlock>): seq<LogRow> {
    if blocks == [] then [] else AllRows(blocks[..|blocks| - 1]) + RowsOf(blocks[|blocks| - 1])
  }

  function AllEvents(blocks: seq<ChainBlock>): seq<LogEvent> {
    if blocks == [] then [] else AllEvents(blocks[..|blocks| - 1]) + LogEventsOf(blocks[|blocks| - 1])
  }

  function AllCheckpoints(cfg: Config, blocks: seq<ChainBlock>): seq<Checkpoint> {
    if blocks == [] then []
    else
      var rest := AllCheckpoints(cfg, blocks[..|blocks| - 1]);
      rest + [CheckpointOf(cfg, LastCheckpoint(rest), blocks[|blocks| - 1])]
  }

  /** Log, checkpoints, state hashes and every projection, as a function of the blocks alone. */
  function Indexed(cfg: Config, blocks: seq<ChainBlock>): Db {
    Db(AllRows(blocks), AllCheckpoints(cfg, blocks), Project(FreshTables, AllEvents(blocks)))
  }

  /**
   * Blocks of consecutive heights from the start height, each naming its predecessor unless it names none, in canonical
   * order.
   */
  ghost predicate Chained(cfg: Config, blocks: seq<ChainBlock>, startHeight: nat) {
    && (forall i | 0 <= i < |blocks| :: blocks[i].height == startHeight + i && Canonical(cfg, blocks[i].events))
    && (forall i | 0 < i < |blocks| :: blocks[i].previous != "" ==> blocks[i].previous == blocks[i - 1].id)
  }

  /** What a fresh indexer makes of `blocks`, one `applyBlock` after the other. */
  function FreshIndex(cfg: Config, blocks: seq<ChainBlock>, startHeight: nat): Option<Db> {
    if blocks == [] then Some(EmptyDb)
    else
      var before := FreshIndex(cfg, blocks[..|blocks| - 1], startHeight);
      if before.None? then None else ApplyBlock(cfg, before.value, blocks[|blocks| - 1], startHeight)
  }
}
