/**
 * The sync loop (`apps/indexer/src/sync.ts`). A step asks the node for its head and blocks and
 * applies, rolls back or waits. `SyncStep` says what one step makes of the list of stored blocks;
 * the class `Syncer` does it on the database. Finality, tolerance of a shrinking head, and
 * convergence against a consistent node are proved about `SyncStep`.
 */
module Sync {
  import opened Wrappers
  import opened Bytes
  import opened Chain
  import opened Database
  import opened Reorg
  import opened IndexerStore

  datatype ChainHead = ChainHead(height: nat, id: string, lastIrreversible: nat)

  /**
   * What the node answers during one step; None when the call throws. `blocks(from, count)` is
   * asked at most once with the same arguments in a step.
   */
  datatype Node = Node(
    chainId: Option<string>,
    head: Option<ChainHead>,
    blocks: (int, int) -> Option<seq<ChainBlock>>)

  datatype Options = Options(
    startHeight: nat, chainId: Option<string>, batchSize: nat, reversibleWindow: Option<nat>)

  /** Start height and batch size are at least 1 (the constructor clamps them). */
  predicate ValidOptions(o: Options) {
    o.startHeight >= 1 && o.batchSize >= 1
  }

  datatype SyncState = SyncState(stored: seq<ChainBlock>, shrunkHead: Option<ChainHead>, chainIdVerified: bool)

  datatype RolledBackTo = RolledBackTo(from: int, to: int)

  /** A step that throws, or what it reports. */
  datatype StepResult =
    | Failed
    | Done(applied: nat, caughtUp: bool, stalled: bool, rolledBack: Option<RolledBackTo>)

  function Max(a: int, b: int): int {
    if a >= b then a else b
  }

  function Min(a: int, b: int): int {
    if a <= b then a else b
  }

  // -------------------------------------------------------------------------
  // One step
  // -------------------------------------------------------------------------

  /** From this height down everything is final under `head`. */
  function FinalHeight(o: Options, head: ChainHead): int {
    if o.reversibleWindow.None? then head.lastIrreversible
    else Max(head.lastIrreversible, head.height - o.reversibleWindow.value)
  }

  /** Height of the last stored block; start height - 1 when there is none. */
  function Tip(o: Options, stored: seq<ChainBlock>): int {
    o.startHeight + |stored| - 1
  }

  /** The stored block at a height. */
  function BlockAt(o: Options, stored: seq<ChainBlock>, height: int): Option<ChainBlock> {
    if o.startHeight <= height <= Tip(o, stored) then Some(stored[height - o.startHeight]) else None
  }

  /** The id of the first block the node serves for (height, 1); None when it serves none; Failed as None of None. */
  function FirstId(node: Node, height: int): Option<Option<string>> {
    var answer := node.blocks(height, 1);
    if answer.None? then None
    else if answer.value == [] then Some(None)
    else Some(Some(answer.value[0].id))
  }

  /** Where a fork at `forkHeight` is rolled back to. */
  function RollbackTarget(o: Options, head: ChainHead, forkHeight: int): int {
    Max(Min(FinalHeight(o, head), forkHeight - 1), o.startHeight - 1)
  }

  /** The node agrees with the stored block at the rollback target, if there is one. */
  predicate TargetConfirmed(o: Options, stored: seq<ChainBlock>, node: Node, to: int) {
    var ours := BlockAt(o, stored, to);
    ours.Some? ==> FirstId(node, to) == Some(Some(ours.value.id))
  }

  /** Rolls back for a fork at `forkHeight`; None when it refuses. */
  function ForkRollback(o: Options, stored: seq<ChainBlock>, node: Node, head: ChainHead,
                        forkHeight: int): Option<seq<ChainBlock>> {
    var to := RollbackTarget(o, head, forkHeight);
    if to >= forkHeight || !TargetConfirmed(o, stored, node, to) then None
    else Some(Kept(stored, to, o.startHeight))
  }

  /** How far the served blocks extend the stored ones, and the block that does not (a fork), if the run ends at one. */
  function ApplyRun(o: Options, stored: seq<ChainBlock>, blocks: seq<ChainBlock>)
    : (r: (seq<ChainBlock>, Option<ChainBlock>))
    ensures stored <= r.0 <= stored + blocks
    ensures r.1.Some? ==> r.1.value.height == o.startHeight + |r.0| && !Extends(r.0, r.1.value, o.startHeight)
    decreases |blocks|
  {
    if blocks == [] || blocks[0].height != o.startHeight + |stored| then (stored, None)
    else if !Extends(stored, blocks[0], o.startHeight) then (stored, Some(blocks[0]))
    else ApplyRun(o, stored + [blocks[0]], blocks[1..])
  }

  /** No block is missing: compare what is stored with the head. */
  function ReconcileTip(o: Options, st: SyncState, node: Node, head: ChainHead): (SyncState, StepResult) {
    var tip := Tip(o, st.stored);
    var answer := if tip == head.height then Some(Some(head.id)) else FirstId(node, head.height);
    if answer.None? then (st, Failed)
    else
      var ours := BlockAt(o, st.stored, head.height);
      if answer.value.Some? && answer.value.value != "" && ours.Some? && ours.value.id != answer.value.value then
        var kept := ForkRollback(o, st.stored, node, head, head.height);
        if kept.None? then (st.(shrunkHead := None), Failed)
        else
          (st.(stored := kept.value, shrunkHead := None),
           Done(0, false, false, Some(RolledBackTo(tip, RollbackTarget(o, head, head.height)))))
      else if tip == head.height then (st.(shrunkHead := None), Done(0, true, false, None))
      else if st.shrunkHead.None? then (st.(shrunkHead := Some(head)), Done(0, true, false, None))
      else
        var to := Max(head.height, o.startHeight - 1);
        (st.(stored := Kept(st.stored, to, o.startHeight), shrunkHead := None),
         Done(0, true, false, Some(RolledBackTo(tip, to))))
  }

  /** The head is above the tip: fetch and apply. */
  function Advance(o: Options, st: SyncState, node: Node, head: ChainHead): (SyncState, StepResult) {
    var next := Tip(o, st.stored) + 1;
    var count := Min(o.batchSize, head.height - next + 1);
    var answer := node.blocks(next, count);
    if answer.None? then (st, Failed)
    else
      var (stored, fork) := ApplyRun(o, st.stored, answer.value);
      var applied := |stored| - |st.stored|;
      if fork.Some? then
        var kept := ForkRollback(o, stored, node, head, fork.value.height);
        if kept.None? then (st.(stored := stored), Failed)
        else
          (st.(stored := kept.value),
           Done(applied, false, false,
                Some(RolledBackTo(fork.value.height - 1, RollbackTarget(o, head, fork.value.height)))))
      else
        var caughtUp := Tip(o, stored) + 1 > head.height;
        (st.(stored := stored), Done(applied, caughtUp, !caughtUp && applied == 0, None))
  }

  /** One sync step. */
  function SyncStep(o: Options, st: SyncState, node: Node): (SyncState, StepResult) {
    if !st.chainIdVerified && (node.chainId.None? || (o.chainId.Some? && node.chainId != o.chainId)) then (st, Failed)
    else
      var verified := st.(chainIdVerified := true);
      if node.head.None? then (verified, Failed)
      else
        var head := node.head.value;
        if st.stored != [] && Tip(o, st.stored) >= head.height then ReconcileTip(o, verified, node, head)
        else Advance(o, verified.(shrunkHead := None), node, head)
  }

  /** What a whole `syncToHead` run reports, and how many of its steps rolled back. */
  datatype HeadRun = HeadRun(state: SyncState, result: StepResult, rollbacks: nat)

  function RollbacksOf(r: StepResult): nat {
    if r.Done? && r.rolledBack.Some? then 1 else 0
  }

  /** A later run after an earlier step: applied blocks add up, the last rollback is reported. */
  function After(r: StepResult, rest: HeadRun): HeadRun
    requires r.Done?
  {
    if rest.result.Failed? then rest.(rollbacks := RollbacksOf(r) + rest.rollbacks)
    else
      rest.(rollbacks := RollbacksOf(r) + rest.rollbacks,
            result := rest.result.(applied := r.applied + rest.result.applied,
                                   rolledBack := if rest.result.rolledBack.Some? then rest.result.rolledBack
                                       else r.rolledBack))
  }

  /** Steps until caught up or stalled, one node answer set a round; Failed when a step throws or the rounds run out. */
  function ToHead(o: Options, st: SyncState, nodes: seq<Node>): HeadRun
    decreases |nodes|
  {
    if nodes == [] then HeadRun(st, Failed, 0)
    else
      var (next, r) := SyncStep(o, st, nodes[0]);
      if r.Failed? || r.caughtUp || r.stalled then HeadRun(next, r, RollbacksOf(r))
      else After(r, ToHead(o, next, nodes[1..]))
  }

  // -------------------------------------------------------------------------
  // What the statements return on the database of the stored blocks
  // -------------------------------------------------------------------------

  lemma SortedConcat(a: seq<LogRow>, b: seq<LogRow>)
    requires Sorted(a) && Sorted(b)
    requires forall x, y | x in a && y in b :: Before(x.pos, y.pos)
    ensures Sorted(a + b)
  {
    hide Before;
  }

  lemma BlockRowsSorted(cfg: Config, block: ChainBlock)
    requires Canonical(cfg, block.events)
    ensures Sorted(RowsOf(block))
  {
    forall i, j | 0 <= i < j < |block.events|
      ensures Before(RowsOf(block)[i].pos, RowsOf(block)[j].pos)
    {
      assert Precedes(block.events[i], block.events[j]);
    }
  }

  /** The log of chained blocks is in primary-key order. */
  lemma {:induction false} IndexedLogSorted(cfg: Config, blocks: seq<ChainBlock>, startHeight: nat)
    requires Chained(cfg, blocks, startHeight)
    ensures Sorted(AllRows(blocks)) && NaturalPositions(AllRows(blocks))
  {
    RowsHeights(blocks, cfg, startHeight);
    if blocks != [] {
      var init, last := blocks[..|blocks| - 1], blocks[|blocks| - 1];
      IndexedLogSorted(cfg, init, startHeight);
      RowsHeights(init, cfg, startHeight);
      BlockRowsSorted(cfg, last);
      hide Canonical, RowsOf;
      SortedConcat(AllRows(init), RowsOf(last));
    }
  }

  lemma {:induction false} CheckpointsFound(rows: seq<Checkpoint>, startHeight: nat, h: int)
    requires forall i | 0 <= i < |rows| :: rows[i].height == startHeight + i
    ensures CheckpointAt(rows, h) ==
            if startHeight <= h < startHeight + |rows| then Some(rows[h - startHeight]) else None
  {
    if rows != [] {
      CheckpointsFound(rows[..|rows| - 1], startHeight, h);
    }
  }

  /** `checkpointAt` names the stored block at that height, `lastCheckpoint` the last one. */
  lemma CheckpointsOfStored(cfg: Config, o: Options, blocks: seq<ChainBlock>, h: int)
    requires Chained(cfg, blocks, o.startHeight)
    ensures var row := CheckpointAt(AllCheckpoints(cfg, blocks), h);
            && (row.Some? <==> BlockAt(o, blocks, h).Some?)
            && (row.Some? ==> row.value.blockId == BlockAt(o, blocks, h).value.id && row.value.height == h)
    ensures var last := LastCheckpoint(AllCheckpoints(cfg, blocks));
            && (last.Some? <==> blocks != [])
            && (last.Some? ==> last.value.height == Tip(o, blocks) && last.value.blockId == blocks[|blocks| - 1].id)
  {
    CheckpointsShape(cfg, blocks, o.startHeight);
    CheckpointsFound(AllCheckpoints(cfg, blocks), o.startHeight, h);
    hide AllCheckpoints;
  }

  lemma IndexedParts(cfg: Config, blocks: seq<ChainBlock>)
    ensures Indexed(cfg, blocks).log == AllRows(blocks)
    ensures Indexed(cfg, blocks).checkpoints == AllCheckpoints(cfg, blocks)
  {
  }

  // -------------------------------------------------------------------------
  // The syncer
  // -------------------------------------------------------------------------

  /** Every block the node serves is parsed: its events are in canonical order. */
  ghost predicate ServesParsedBlocks(cfg: Config, node: Node) {
    forall from, count, b | node.blocks(from, count).Some?
        && b in node.blocks(from, count).value :: Canonical(cfg, b.events)
  }

  lemma ServesParsed(cfg: Config, node: Node, from: int, count: int, block: ChainBlock)
    requires ServesParsedBlocks(cfg, node)
    requires node.blocks(from, count).Some? && block in node.blocks(from, count).value
    ensures Canonical(cfg, block.events)
  {
  }

  lemma ApplyRunEmpty(o: Options, stored: seq<ChainBlock>)
    ensures ApplyRun(o, stored, []) == (stored, None)
  {
  }

  lemma ApplyRunAt(o: Options, stored: seq<ChainBlock>, blocks: seq<ChainBlock>, i: nat)
    requires i < |blocks|
    ensures ApplyRun(o, stored, blocks[i..]) ==
            if blocks[i].height != o.startHeight + |stored| then (stored, None)
            else if !Extends(stored, blocks[i], o.startHeight) then (stored, Some(blocks[i]))
            else ApplyRun(o, stored + [blocks[i]], blocks[i + 1..])
  {
    assert blocks[i..][0] == blocks[i] && blocks[i..][1..] == blocks[i + 1..];
  }

  /** The parent check of the sync loop is the one `applyBlock` makes. */
  lemma ParentMatches(cfg: Config, o: Options, stored: seq<ChainBlock>, block: ChainBlock, parent: Option<Checkpoint>)
    requires block.height == o.startHeight + |stored|
    requires parent.Some? <==> BlockAt(o, stored, block.height - 1).Some?
    requires parent.Some? ==> parent.value.blockId == BlockAt(o, stored, block.height - 1).value.id
    ensures Extends(stored, block, o.startHeight) <==>
            !(parent.Some? && block.previous != "" && parent.value.blockId != block.previous)
  {
  }

  /** What a run amounts to after steps that applied `applied` blocks and last rolled back as given. */
  ghost function Continues(applied: nat, rolledBack: Option<RolledBackTo>, rollbacks: nat, rest: HeadRun): HeadRun {
    if rest.result.Failed? then rest.(rollbacks := rollbacks + rest.rollbacks)
    else
      rest.(rollbacks := rollbacks + rest.rollbacks,
            result := rest.result.(applied := applied + rest.result.applied,
                                   rolledBack := if rest.result.rolledBack.Some? then rest.result.rolledBack
                                       else rolledBack))
  }

  lemma ContinuesAfter(applied: nat, rolledBack: Option<RolledBackTo>, rollbacks: nat, r: StepResult, rest: HeadRun)
    requires r.Done?
    ensures Continues(applied, rolledBack, rollbacks, After(r, rest)) ==
            Continues(applied + r.applied, if r.rolledBack.Some? then r.rolledBack else rolledBack,
                      rollbacks + RollbacksOf(r), rest)
  {
  }

  lemma ToHeadUnfold(o: Options, st: SyncState, nodes: seq<Node>, i: nat)
    requires i < |nodes|
    ensures var (next, r) := SyncStep(o, st, nodes[i]);
            ToHead(o, st, nodes[i..]) ==
            if r.Failed? || r.caughtUp || r.stalled then HeadRun(next, r, RollbacksOf(r))
            else After(r, ToHead(o, next, nodes[i + 1..]))
  {
    hide SyncStep;
    assert nodes[i..][0] == nodes[i] && nodes[i..][1..] == nodes[i + 1..];
  }

  class Syncer {
    const db: IndexerDb
    const options: Options
    var shrunkHead: Option<ChainHead>
    var chainIdVerified: bool
    /** The blocks the database was built from. */
    ghost var stored: seq<ChainBlock>

    /** The database is the one a fresh indexer builds from the stored blocks. */
    ghost predicate Valid()
      reads this, db
    {
      && ValidOptions(options)
      && Chained(db.cfg, stored, options.startHeight)
      && db.Now() == Indexed(db.cfg, stored)
    }

    ghost function State(): SyncState
      reads this
    {
      SyncState(stored, shrunkHead, chainIdVerified)
    }

    constructor (cfg: Config, options: Options)
      requires ValidOptions(options)
      ensures fresh(db) && db.cfg == cfg && this.options == options
      ensures Valid() && State() == SyncState([], None, false)
    {
      this.options := options;
      db := new IndexerDb(cfg);
      shrunkHead, chainIdVerified := None, false;
      stored := [];
    }

    /** Undoes a fork down to the final height; None when it refuses. */
    method RollbackFork(node: Node, head: ChainHead, forkHeight: int) returns (to: Option<int>)
      requires Valid()
      modifies this`stored, db
      ensures Valid()
      ensures var kept := ForkRollback(options, old(stored), node, head, forkHeight);
              && to == (if kept.Some? then Some(RollbackTarget(options, head, forkHeight)) else None)
              && stored == if kept.Some? then kept.value else old(stored)
    {
      hide Indexed, RolledBack, Chained, IndexerDb.Now;
      var floor := options.startHeight - 1;
      var target := Max(Min(FinalHeight(options, head), forkHeight - 1), floor);
      if target >= forkHeight {
        return None;
      }
      StatementsOnStored(target);
      var ours := if target > floor then CheckpointAt(db.checkpoints, target) else None;
      if ours.Some? {
        var canonical := FirstId(node, target);
        if canonical != Some(Some(ours.value.blockId)) {
          return None;
        }
      }
      RollbackIndexed(db.cfg, stored, target, options.startHeight);
      KeptChained(db.cfg, stored, target, options.startHeight);
      var _ := db.RollbackTo(target);
      stored := Kept(stored, target, options.startHeight);
      return Some(target);
    }

    /** No block is missing: verify the tip, roll a fork back, or act on a head that stays below it. */
    method ReconcileTipStep(node: Node, head: ChainHead) returns (result: StepResult)
      requires Valid() && stored != [] && Tip(options, stored) >= head.height
      modifies this`stored, this`shrunkHead, db
      ensures Valid()
      ensures (State(), result) == ReconcileTip(options, old(State()), node, head)
    {
      hide Indexed, RolledBack, Chained, IndexerDb.Now, ForkRollback, CheckpointAt, LastCheckpoint, FirstId, Kept;
      var floor := options.startHeight - 1;
      StatementsOnStored(head.height);
      var last := LastCheckpoint(db.checkpoints).value;
      var answer := if last.height == head.height then Some(Some(head.id)) else FirstId(node, head.height);
      if answer.None? {
        return Failed;
      }
      var canonicalId := answer.value;
      var ours := if head.height > floor then CheckpointAt(db.checkpoints, head.height) else None;
      if canonicalId.Some? && canonicalId.value != "" && ours.Some? && ours.value.blockId != canonicalId.value {
        shrunkHead := None;
        var to := RollbackFork(node, head, head.height);
        if to.None? {
          return Failed;
        }
        return Done(0, false, false, Some(RolledBackTo(last.height, to.value)));
      }
      if last.height == head.height {
        shrunkHead := None;
        return Done(0, true, false, None);
      }
      if shrunkHead.None? {
        shrunkHead := Some(head);
        return Done(0, true, false, None);
      }
      var to := Max(head.height, floor);
      DropAbove(to);
      shrunkHead := None;
      return Done(0, true, false, Some(RolledBackTo(last.height, to)));
    }

    /** `rollbackTo` on the database of the stored blocks. */
    method DropAbove(to: int)
      requires Valid()
      modifies this`stored, db
      ensures Valid()
      ensures stored == Kept(old(stored), to, options.startHeight)
    {
      hide Indexed, RolledBack, Chained, IndexerDb.Now, Kept;
      StatementsOnStored(to);
      RollbackIndexed(db.cfg, stored, to, options.startHeight);
      KeptChained(db.cfg, stored, to, options.startHeight);
      var _ := db.RollbackTo(to);
      stored := Kept(stored, to, options.startHeight);
    }

    /** Applies a block that extends the stored ones. */
    method Append(block: ChainBlock)
      requires Valid() && Extends(stored, block, options.startHeight) && Canonical(db.cfg, block.events)
      modifies this`stored, db
      ensures Valid()
      ensures stored == old(stored) + [block]
    {
      hide Indexed, Chained, IndexerDb.Now, Extends, Canonical, Database.ApplyBlock;
      ApplyIndexed(db.cfg, stored, block, options.startHeight);
      ExtendsChained(db.cfg, stored, block, options.startHeight);
      var ok := db.ApplyBlock(block, options.startHeight);
      assert ok;
      stored := stored + [block];
    }

    /** The head is above the tip: fetch blocks, apply them in order, roll back at a fork. */
    method AdvanceStep(node: Node, head: ChainHead) returns (result: StepResult)
      requires Valid() && ServesParsedBlocks(db.cfg, node)
      modifies this`stored, db
      ensures Valid()
      ensures (State(), result) == Advance(options, old(State()), node, head)
    {
      hide Indexed, RolledBack, Chained, IndexerDb.Now, ForkRollback, CheckpointAt, LastCheckpoint, Canonical,
          RollbackTarget,
           Sorted, NaturalPositions, ApplyRun, Extends, Min, ServesParsedBlocks, Kept, BlockAt, IndexerDb.TablesNow;
      ghost var goal := Advance(options, State(), node, head);
      StatementsOnStored(0);
      var last := LastCheckpoint(db.checkpoints);
      var next := if last.Some? then last.value.height + 1 else options.startHeight;
      var answer := node.blocks(next, Min(options.batchSize, head.height - next + 1));
      if answer.None? {
        assert (State(), Failed) == goal;
        return Failed;
      }
      var blocks := answer.value;
      var applied, expected := 0, next;
      ghost var start := stored;
      for i := 0 to |blocks|
        invariant Valid()
        invariant applied == |stored| - |start| && expected == Tip(options, stored) + 1
        invariant ApplyRun(options, stored, blocks[i..]) == ApplyRun(options, start, blocks)
      {
        var block := blocks[i];
        ApplyRunAt(options, stored, blocks, i);
        if block.height != expected {
          break;
        }
        StatementsOnStored(block.height - 1);
        var parent := CheckpointAt(db.checkpoints, block.height - 1);
        ParentMatches(db.cfg, options, stored, block, parent);
        if parent.Some? && block.previous != "" && parent.value.blockId != block.previous {
          var to := RollbackFork(node, head, block.height);
          if to.None? {
            assert (State(), Failed) == goal;
            return Failed;
          }
          assert (State(), Done(applied, false, false, Some(RolledBackTo(parent.value.height, to.value)))) == goal;
          return Done(applied, false, false, Some(RolledBackTo(parent.value.height, to.value)));
        }
        ServesParsed(db.cfg, node, next, Min(options.batchSize, head.height - next + 1), block);
        Append(block);
        applied := applied + 1;
        expected := expected + 1;
      }
      ApplyRunEmpty(options, stored);
      assert blocks[|blocks|..] == [];
      assert ApplyRun(options, start, blocks) == (stored, None);
      var caughtUp := expected > head.height;
      return Done(applied, caughtUp, !caughtUp && applied == 0, None);
    }

    /** One sync step does to the database what `SyncStep` says of the stored blocks. */
    method Step(node: Node) returns (result: StepResult)
      requires Valid() && ServesParsedBlocks(db.cfg, node)
      modifies this`stored, this`shrunkHead, this`chainIdVerified, db
      ensures Valid()
      ensures (State(), result) == SyncStep(options, old(State()), node)
    {
      hide Indexed, Chained, IndexerDb.Now, ReconcileTip, Advance, CheckpointAt, LastCheckpoint;
      if !chainIdVerified {
        if node.chainId.None? || (options.chainId.Some? && node.chainId != options.chainId) {
          return Failed;
        }
        chainIdVerified := true;
      }
      if node.head.None? {
        return Failed;
      }
      var head := node.head.value;
      StatementsOnStored(0);
      var last := LastCheckpoint(db.checkpoints);
      if last.Some? && last.value.height >= head.height {
        result := ReconcileTipStep(node, head);
        return;
      }
      shrunkHead := None;
      result := AdvanceStep(node, head);
    }

    /** Syncs until caught up or stalled; None when a step throws or the rounds run out. */
    method SyncToHead(nodes: seq<Node>) returns (result: Option<StepResult>)
      requires Valid()
      requires forall node | node in nodes :: ServesParsedBlocks(db.cfg, node)
      modifies this`stored, this`shrunkHead, this`chainIdVerified, db
      ensures Valid()
      ensures var run := ToHead(options, old(State()), nodes);
              && State() == run.state
              && result == (if run.result.Done? then Some(run.result) else None)
    {
      hide Indexed, Chained, IndexerDb.Now, SyncStep, ServesParsedBlocks, ValidOptions;
      var applied: nat, rolledBack: Option<RolledBackTo> := 0, None;
      ghost var start, rollbacks: nat := State(), 0;
      for i := 0 to |nodes|
        invariant Valid()
        invariant Continues(applied, rolledBack, rollbacks, ToHead(options, State(), nodes[i..])) ==
                  ToHead(options, start, nodes)
      {
        assert nodes[i..][0] == nodes[i] && nodes[i..][1..] == nodes[i + 1..];
        ghost var before := State();
        var step := Step(nodes[i]);
        ToHeadUnfold(options, before, nodes, i);
        if step.Failed? {
          return None;
        }
        ghost var rest := ToHead(options, State(), nodes[i + 1..]);
        ContinuesAfter(applied, rolledBack, rollbacks, step, rest);
        rolledBack := if step.rolledBack.Some? then step.rolledBack else rolledBack;
        applied := applied + step.applied;
        if step.caughtUp || step.stalled {
          return Some(Done(applied, step.caughtUp, step.stalled, rolledBack));
        }
        rollbacks := rollbacks + RollbacksOf(step);
      }
      assert nodes[|nodes|..] == [];
      return None;
    }

    lemma StatementsOnStored(h: int)
      requires Valid()
      ensures Sorted(db.log) && NaturalPositions(db.log)
      ensures var row := CheckpointAt(db.checkpoints, h);
              && (row.Some? <==> BlockAt(options, stored, h).Some?)
              && (row.Some? ==> row.value.blockId == BlockAt(options, stored, h).value.id && row.value.height == h)
      ensures var last := LastCheckpoint(db.checkpoints);
              && (last.Some? <==> stored != [])
              && (last.Some? ==>
                    last.value.height == Tip(options, stored) && last.value.blockId == stored[|stored| - 1].id)
    {
      IndexedParts(db.cfg, stored);
      IndexedLogSorted(db.cfg, stored, options.startHeight);
      CheckpointsOfStored(db.cfg, options, stored, h);
      hide Indexed, Chained, Sorted, NaturalPositions, AllRows, AllCheckpoints, BlockAt;
      assert db.Now().log == AllRows(stored) && db.Now().checkpoints == AllCheckpoints(db.cfg, stored);
    }
  }
}
