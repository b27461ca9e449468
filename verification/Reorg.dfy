/**
 * Reorg convergence: incremental application, rejected blocks and rollbacks always leave the
 * database a fresh indexer would build from the blocks now stored.
 */
module Reorg {
  import opened Wrappers
  import opened Bytes
  import opened Projections
  import opened Chain
  import opened Database

  // -------------------------------------------------------------------------
  // Applying a block
  // -------------------------------------------------------------------------

  lemma {:induction false} RowsHeights(blocks: seq<ChainBlock>, cfg: Config, startHeight: nat)
    requires Chained(cfg, blocks, startHeight)
    ensures forall row | row in AllRows(blocks) :: startHeight <= row.pos.height < startHeight + |blocks|
    ensures NaturalPositions(AllRows(blocks))
  {
    if blocks != [] {
      RowsHeights(blocks[..|blocks| - 1], cfg, startHeight);
    }
  }

  /** Events of a canonical block above the whole log all fit at its end. */
  lemma {:induction false} InsertsAtEnd(cfg: Config, db: Db, block: ChainBlock, n: nat)
    requires n <= |block.events| && Canonical(cfg, block.events)
    requires forall row | row in db.log :: row.pos.height < block.height
    ensures InsertEvents(db, block, n) ==
            Some(Db(db.log + RowsOf(block)[..n], db.checkpoints, Project(db.tables, LogEventsOf(block)[..n])))
  {
    hide ApplyEvent, Canonical, RowOf, InsertRow;
    if n == 0 {
      assert db.log + RowsOf(block)[..0] == db.log;
    } else {
      InsertsAtEnd(cfg, db, block, n - 1);
      NextRowFits(cfg, db.log, block, n - 1);
      var events := LogEventsOf(block);
      assert events[..n][..n - 1] == events[..n - 1];
    }
  }

  /** Row n of the block fits behind the log and the rows before it. */
  lemma NextRowFits(cfg: Config, log: seq<LogRow>, block: ChainBlock, n: nat)
    requires n < |block.events| && Canonical(cfg, block.events)
    requires forall row | row in log :: row.pos.height < block.height
    ensures InsertRow(log + RowsOf(block)[..n], RowOf(block, block.events[n])) == Some(log + RowsOf(block)[..n + 1])
  {
    var row, before := RowOf(block, block.events[n]), log + RowsOf(block)[..n];
    assert RowsOf(block)[..n + 1] == RowsOf(block)[..n] + [row];
    if n == 0 {
      assert before == log;
    } else {
      assert before[|before| - 1] == RowOf(block, block.events[n - 1]);
      assert Precedes(block.events[n - 1], block.events[n]);
    }
    AppendsAtEnd(before, row);
    assert before + [row] == log + RowsOf(block)[..n + 1];
  }

  lemma AppendsAtEnd(log: seq<LogRow>, row: LogRow)
    requires log == [] || Before(log[|log| - 1].pos, row.pos)
    ensures InsertRow(log, row) == Some(log + [row])
  {
  }

  lemma {:induction false} CheckpointsShape(cfg: Config, blocks: seq<ChainBlock>, startHeight: nat)
    requires Chained(cfg, blocks, startHeight)
    ensures |AllCheckpoints(cfg, blocks)| == |blocks|
    ensures forall i | 0 <= i < |blocks| ::
              var row := AllCheckpoints(cfg, blocks)[i];
              row.height == startHeight + i && row.blockId == blocks[i].id && row.previousId == blocks[i].previous
  {
    if blocks != [] {
      CheckpointsShape(cfg, blocks[..|blocks| - 1], startHeight);
    }
  }

  /** The block may follow `blocks`: the next height, and the previous id (when given) of their tip. */
  predicate Extends(blocks: seq<ChainBlock>, block: ChainBlock, startHeight: nat) {
    && block.height == startHeight + |blocks|
    && (blocks != [] && block.previous != "" ==> block.previous == blocks[|blocks| - 1].id)
  }

  lemma IsNextIsExtends(cfg: Config, blocks: seq<ChainBlock>, block: ChainBlock, startHeight: nat)
    requires Chained(cfg, blocks, startHeight)
    ensures IsNext(LastCheckpoint(AllCheckpoints(cfg, blocks)), block, startHeight) <==>
            Extends(blocks, block, startHeight)
  {
    CheckpointsShape(cfg, blocks, startHeight);
  }

  lemma ExtendsChained(cfg: Config, blocks: seq<ChainBlock>, block: ChainBlock, startHeight: nat)
    requires Chained(cfg, blocks, startHeight) && Canonical(cfg, block.events)
    requires Extends(blocks, block, startHeight)
    ensures Chained(cfg, blocks + [block], startHeight)
  {
    hide Canonical;
  }

  lemma IndexedSnoc(cfg: Config, blocks: seq<ChainBlock>, block: ChainBlock)
    ensures Indexed(cfg, blocks + [block]) ==
            Db(AllRows(blocks) + RowsOf(block),
               AllCheckpoints(cfg, blocks) + [CheckpointOf(cfg, LastCheckpoint(AllCheckpoints(cfg, blocks)), block)],
               Project(Project(FreshTables, AllEvents(blocks)), LogEventsOf(block)))
  {
    ProjectConcat(FreshTables, AllEvents(blocks), LogEventsOf(block));
    hide Project, RowsOf, LogEventsOf, CheckpointOf, LastCheckpoint;
    assert (blocks + [block])[..|blocks|] == blocks;
  }

  /** `applyBlock` accepts exactly the blocks that extend the stored ones, and then stores them. */
  lemma ApplyIndexed(cfg: Config, blocks: seq<ChainBlock>, block: ChainBlock, startHeight: nat)
    requires Chained(cfg, blocks, startHeight) && Canonical(cfg, block.events)
    ensures ApplyBlock(cfg, Indexed(cfg, blocks), block, startHeight) ==
            if Extends(blocks, block, startHeight) then Some(Indexed(cfg, blocks + [block])) else None
  {
    hide InsertEvents, Project, RowsOf, LogEventsOf, CheckpointOf, IsNext, AllRows, AllEvents, AllCheckpoints,
         Canonical;
    IsNextIsExtends(cfg, blocks, block, startHeight);
    if Extends(blocks, block, startHeight) {
      RowsHeights(blocks, cfg, startHeight);
      InsertsAtEnd(cfg, Indexed(cfg, blocks), block, |block.events|);
      assert RowsOf(block)[..|block.events|] == RowsOf(block);
      assert LogEventsOf(block)[..|block.events|] == LogEventsOf(block);
      IndexedSnoc(cfg, blocks, block);
    }
  }

  lemma NothingIndexed(cfg: Config, startHeight: nat)
    ensures Indexed(cfg, []) == EmptyDb && Chained(cfg, [], startHeight)
  {
  }

  /** The last of chained blocks extends the others. */
  lemma LastExtends(cfg: Config, blocks: seq<ChainBlock>, startHeight: nat)
    requires Chained(cfg, blocks, startHeight) && blocks != []
    ensures var init, last := blocks[..|blocks| - 1], blocks[|blocks| - 1];
            Chained(cfg, init, startHeight) && Extends(init, last, startHeight) && Canonical(cfg, last.events)
  {
    hide Canonical;
  }

  /** A fresh indexer that is given chained blocks indexes all of them. */
  lemma {:induction false} FreshIsIndexed(cfg: Config, blocks: seq<ChainBlock>, startHeight: nat)
    requires Chained(cfg, blocks, startHeight)
    ensures FreshIndex(cfg, blocks, startHeight) == Some(Indexed(cfg, blocks))
  {
    if blocks == [] {
      NothingIndexed(cfg, startHeight);
    } else {
      hide ApplyBlock, Indexed, Canonical, Chained, Extends;
      var init, last := blocks[..|blocks| - 1], blocks[|blocks| - 1];
      LastExtends(cfg, blocks, startHeight);
      FreshIsIndexed(cfg, init, startHeight);
      ApplyIndexed(cfg, init, last, startHeight);
      assert init + [last] == blocks;
      assert FreshIndex(cfg, blocks, startHeight) == Some(Indexed(cfg, blocks));
    }
  }

  // -------------------------------------------------------------------------
  // Rolling back
  // -------------------------------------------------------------------------

  /** The blocks at or below height `h`. */
  function Kept(blocks: seq<ChainBlock>, h: int, startHeight: nat): seq<ChainBlock> {
    if h < startHeight then []
    else if h - startHeight + 1 >= |blocks| then blocks
    else blocks[..h - startHeight + 1]
  }

  lemma {:induction false} LogUpToConcat(a: seq<LogRow>, b: seq<LogRow>, h: int)
    ensures LogUpTo(a + b, h) == LogUpTo(a, h) + LogUpTo(b, h)
  {
    if b == [] {
      assert a + b == a;
    } else {
      LogUpToConcat(a, b[..|b| - 1], h);
      assert (a + b)[..|a + b| - 1] == a + b[..|b| - 1];
    }
  }

  lemma {:induction false} LogUpToUniform(rows: seq<LogRow>, height: int, h: int)
    requires forall row | row in rows :: row.pos.height == height
    ensures LogUpTo(rows, h) == if height > h then [] else rows
  {
    if rows != [] {
      LogUpToUniform(rows[..|rows| - 1], height, h);
    }
  }

  lemma {:induction false} LogRollsBack(cfg: Config, blocks: seq<ChainBlock>, h: int, startHeight: nat)
    requires Chained(cfg, blocks, startHeight)
    ensures LogUpTo(AllRows(blocks), h) == AllRows(Kept(blocks, h, startHeight))
  {
    if blocks != [] {
      var init, last := blocks[..|blocks| - 1], blocks[|blocks| - 1];
      KeptLast(cfg, blocks, h, startHeight);
      RowsAreOfBlock(last);
      hide RowsOf, Chained, Kept, LogUpTo;
      LogRollsBack(cfg, init, h, startHeight);
      LogUpToConcat(AllRows(init), RowsOf(last), h);
      LogUpToUniform(RowsOf(last), last.height, h);
      assert AllRows(init) + [] == AllRows(init);
    } else {
      assert Kept([], h, startHeight) == [];
    }
  }

  lemma RowsAreOfBlock(block: ChainBlock)
    ensures forall row | row in RowsOf(block) :: row.pos.height == block.height
  {
  }

  /** Whether the last block stays. */
  lemma KeptLast(cfg: Config, blocks: seq<ChainBlock>, h: int, startHeight: nat)
    requires Chained(cfg, blocks, startHeight) && blocks != []
    ensures var init, last := blocks[..|blocks| - 1], blocks[|blocks| - 1];
            && Chained(cfg, init, startHeight)
            && if last.height > h then Kept(blocks, h, startHeight) == Kept(init, h, startHeight)
               else Kept(blocks, h, startHeight) == blocks && Kept(init, h, startHeight) == init
  {
    hide Canonical;
  }

  lemma {:induction false} CheckpointsRollBack(cfg: Config, blocks: seq<ChainBlock>, h: int, startHeight: nat)
    requires Chained(cfg, blocks, startHeight)
    ensures CheckpointsUpTo(AllCheckpoints(cfg, blocks), h) == AllCheckpoints(cfg, Kept(blocks, h, startHeight))
  {
    if blocks != [] {
      var init, last := blocks[..|blocks| - 1], blocks[|blocks| - 1];
      KeptLast(cfg, blocks, h, startHeight);
      hide ViewsOf, Chained, Kept;
      CheckpointsRollBack(cfg, init, h, startHeight);
    }
  }

  lemma {:induction false} RehydratesConcat(cfg: Config, a: seq<LogRow>, b: seq<LogRow>)
    requires NaturalPositions(a) && NaturalPositions(b)
    ensures NaturalPositions(a + b)
    ensures Rehydrated(cfg, a + b) == Rehydrated(cfg, a) + Rehydrated(cfg, b)
  {
    if b == [] {
      assert a + b == a;
    } else {
      RehydratesConcat(cfg, a, b[..|b| - 1]);
      assert (a + b)[..|a + b| - 1] == a + b[..|b| - 1];
    }
  }

  lemma {:induction false} BlockRehydrates(cfg: Config, block: ChainBlock, n: nat)
    requires n <= |block.events| && Canonical(cfg, block.events)
    ensures NaturalPositions(RowsOf(block)[..n])
    ensures Rehydrated(cfg, RowsOf(block)[..n]) == LogEventsOf(block)[..n]
  {
    if n != 0 {
      BlockRehydrates(cfg, block, n - 1);
      assert RowsOf(block)[..n][..n - 1] == RowsOf(block)[..n - 1];
      assert LogEventFromRow(cfg, RowOf(block, block.events[n - 1])) == Some(LogEventOf(block, block.events[n - 1]));
    }
  }

  /** Decoding the stored bytes again gives the events that were applied. */
  lemma {:induction false} LogRehydrates(cfg: Config, blocks: seq<ChainBlock>, startHeight: nat)
    requires Chained(cfg, blocks, startHeight)
    ensures NaturalPositions(AllRows(blocks))
    ensures Rehydrated(cfg, AllRows(blocks)) == AllEvents(blocks)
  {
    if blocks != [] {
      var last := blocks[|blocks| - 1];
      LogRehydrates(cfg, blocks[..|blocks| - 1], startHeight);
      BlockRehydrates(cfg, last, |last.events|);
      assert RowsOf(last)[..|last.events|] == RowsOf(last);
      assert LogEventsOf(last)[..|last.events|] == LogEventsOf(last);
      RehydratesConcat(cfg, AllRows(blocks[..|blocks| - 1]), RowsOf(last));
    }
  }

  lemma KeptChained(cfg: Config, blocks: seq<ChainBlock>, h: int, startHeight: nat)
    requires Chained(cfg, blocks, startHeight)
    ensures Chained(cfg, Kept(blocks, h, startHeight), startHeight)
  {
  }

  /** A rollback leaves the database of the blocks that remain, projections included. */
  lemma RollbackIndexed(cfg: Config, blocks: seq<ChainBlock>, h: int, startHeight: nat)
    requires Chained(cfg, blocks, startHeight)
    ensures NaturalPositions(AllRows(blocks))
    ensures RolledBack(cfg, Indexed(cfg, blocks), h) == Indexed(cfg, Kept(blocks, h, startHeight))
  {
    var kept := Kept(blocks, h, startHeight);
    KeptChained(cfg, blocks, h, startHeight);
    LogRollsBack(cfg, blocks, h, startHeight);
    CheckpointsRollBack(cfg, blocks, h, startHeight);
    LogRehydrates(cfg, blocks, startHeight);
    LogRehydrates(cfg, kept, startHeight);
    ProjectKeepsTruncated(FreshTables, AllEvents(blocks));
    TruncatedFresh();
  }

  // -------------------------------------------------------------------------
  // Histories
  // -------------------------------------------------------------------------

  /** What the sync loop does to the database: apply a block (which may be refused), or roll back to a height. */
  datatype Op = Apply(block: ChainBlock) | Rollback(height: int)

  ghost function DbStep(cfg: Config, db: Db, op: Op, startHeight: nat): Db {
    match op
    case Apply(block) =>
      var applied := ApplyBlock(cfg, db, block, startHeight);
      if applied.Some? then applied.value else db
    case Rollback(h) =>
      if NaturalPositions(db.log) then RolledBack(cfg, db, h) else db
  }

  ghost function DbAfter(cfg: Config, ops: seq<Op>, n: nat, startHeight: nat): Db
    requires n <= |ops|
  {
    if n == 0 then EmptyDb else DbStep(cfg, DbAfter(cfg, ops, n - 1, startHeight), ops[n - 1], startHeight)
  }

  /**
   * The blocks stored after the first `n` operations, as a list that grows by accepted blocks and is cut by rollbacks.
   */
  ghost function StoredAfter(ops: seq<Op>, n: nat, startHeight: nat): seq<ChainBlock>
    requires n <= |ops|
  {
    if n == 0 then []
    else
      var stored := StoredAfter(ops, n - 1, startHeight);
      match ops[n - 1]
      case Apply(block) => if Extends(stored, block, startHeight) then stored + [block] else stored
      case Rollback(h) => Kept(stored, h, startHeight)
  }

  lemma IndexedLog(cfg: Config, blocks: seq<ChainBlock>)
    ensures Indexed(cfg, blocks).log == AllRows(blocks)
  {
  }

  /**
   * Reorg convergence: after any sequence of applied blocks, refused blocks and rollbacks, the
   * whole database (log, checkpoints, state hashes, every projection and `projection.` meta key)
   * equals that of a fresh indexer that applied only the blocks now stored.
   */
  lemma {:induction false} ReorgConvergence(cfg: Config, ops: seq<Op>, n: nat, startHeight: nat)
    requires n <= |ops|
    requires forall i | 0 <= i < |ops| && ops[i].Apply? :: Canonical(cfg, ops[i].block.events)
    ensures Chained(cfg, StoredAfter(ops, n, startHeight), startHeight)
    ensures DbAfter(cfg, ops, n, startHeight) == Indexed(cfg, StoredAfter(ops, n, startHeight))
    ensures FreshIndex(cfg, StoredAfter(ops, n, startHeight), startHeight) == Some(DbAfter(cfg, ops, n, startHeight))
  {
    hide ApplyBlock, RolledBack, Indexed, FreshIndex, Canonical, Chained, Extends, Kept;
    if n == 0 {
      NothingIndexed(cfg, startHeight);
    } else {
      ReorgConvergence(cfg, ops, n - 1, startHeight);
      var stored := StoredAfter(ops, n - 1, startHeight);
      match ops[n - 1]
      case Apply(block) =>
        ApplyIndexed(cfg, stored, block, startHeight);
        if Extends(stored, block, startHeight) {
          ExtendsChained(cfg, stored, block, startHeight);
        }
      case Rollback(h) =>
        RollbackIndexed(cfg, stored, h, startHeight);
        assert NaturalPositions(DbAfter(cfg, ops, n - 1, startHeight).log) by {
          IndexedLog(cfg, stored);
        }
        KeptChained(cfg, stored, h, startHeight);
    }
    FreshIsIndexed(cfg, StoredAfter(ops, n, startHeight), startHeight);
  }
}
