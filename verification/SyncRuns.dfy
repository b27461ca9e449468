/**
 * What whole runs of the sync loop guarantee: stored blocks stay linked, final blocks stay, a
 * head below the tip drops blocks only when it persists, and a run against a consistent node ends
 * with exactly the blocks of its chain after at most one rollback.
 */
module SyncRuns {
  import opened Wrappers
  import opened Bytes
  import opened Chain
  import opened Reorg
  import opened Sync

  /** Blocks at contiguous heights from the start height, each naming the id before it (when it names one). */
  ghost predicate Linked(o: Options, blocks: seq<ChainBlock>) {
    && (forall i | 0 <= i < |blocks| :: blocks[i].height == o.startHeight + i)
    && (forall i | 0 < i < |blocks| :: blocks[i].previous != "" ==> blocks[i].previous == blocks[i - 1].id)
  }

  /** The state before step `n` of a run that starts from `start`; the node may answer anything in each step. */
  ghost function StateAt(o: Options, start: SyncState, nodes: seq<Node>, n: nat): SyncState
    requires n <= |nodes|
  {
    if n == 0 then start else SyncStep(o, StateAt(o, start, nodes, n - 1), nodes[n - 1]).0
  }

  ghost function ResultAt(o: Options, start: SyncState, nodes: seq<Node>, n: nat): StepResult
    requires n < |nodes|
  {
    SyncStep(o, StateAt(o, start, nodes, n), nodes[n]).1
  }

  // -------------------------------------------------------------------------
  // Shape of a step
  // -------------------------------------------------------------------------

  /** The blocks a step fetches: none unless the head is above the tip. */
  function Fetched(o: Options, st: SyncState, node: Node): seq<ChainBlock> {
    if node.head.None? || (st.stored != [] && Tip(o, st.stored) >= node.head.value.height) then []
    else
      var answer := node.blocks(Tip(o, st.stored) + 1, Min(o.batchSize, node.head.value.height - Tip(o, st.stored)));
      if answer.Some? then answer.value else []
  }

  /**
   * A step appends fetched blocks that extend the stored ones, and then cuts the result at one height or not at all.
   */
  lemma StepShape(o: Options, st: SyncState, node: Node)
    ensures var stored := SyncStep(o, st, node).0.stored;
            var grown := ApplyRun(o, st.stored, Fetched(o, st, node)).0;
            || stored == st.stored
            || stored == grown
            || exists to :: stored == Kept(grown, to, o.startHeight)
  {
    hide Kept, RollbackTarget, Extends;
  }

  lemma {:induction false} ApplyRunLinked(o: Options, stored: seq<ChainBlock>, blocks: seq<ChainBlock>)
    requires Linked(o, stored)
    ensures Linked(o, ApplyRun(o, stored, blocks).0)
    decreases |blocks|
  {
    if blocks != [] && blocks[0].height == o.startHeight + |stored| && Extends(stored, blocks[0], o.startHeight) {
      ApplyRunLinked(o, stored + [blocks[0]], blocks[1..]);
    }
  }

  lemma StepKeepsLinked(o: Options, st: SyncState, node: Node)
    requires Linked(o, st.stored)
    ensures Linked(o, SyncStep(o, st, node).0.stored)
  {
    StepShape(o, st, node);
    ApplyRunLinked(o, st.stored, Fetched(o, st, node));
    hide SyncStep, ApplyRun, Fetched;
  }

  /** Whatever the node answers, the stored blocks stay contiguous from the start height and parent-linked. */
  lemma {:induction false} AlwaysLinked(o: Options, start: SyncState, nodes: seq<Node>, n: nat)
    requires n <= |nodes| && Linked(o, start.stored)
    ensures Linked(o, StateAt(o, start, nodes, n).stored)
  {
    hide Linked, SyncStep;
    if n != 0 {
      AlwaysLinked(o, start, nodes, n - 1);
      StepKeepsLinked(o, StateAt(o, start, nodes, n - 1), nodes[n - 1]);
    }
  }

  // -------------------------------------------------------------------------
  // Finality
  // -------------------------------------------------------------------------

  /** Every stored block at or below height `h` is stored after the step too. */
  ghost predicate KeepsUpTo(o: Options, before: seq<ChainBlock>, after: seq<ChainBlock>, h: int) {
    forall i | 0 <= i < |before| && o.startHeight + i <= h :: i < |after| && after[i] == before[i]
  }

  lemma ForkKeeps(o: Options, before: seq<ChainBlock>, stored: seq<ChainBlock>, node: Node, head: ChainHead,
                  forkHeight: int)
    requires before <= stored
    requires FinalHeight(o, head) < forkHeight || |before| <= forkHeight - o.startHeight
    ensures var kept := ForkRollback(o, stored, node, head, forkHeight);
            kept.Some? ==> KeepsUpTo(o, before, kept.value, FinalHeight(o, head))
  {
    hide TargetConfirmed, FinalHeight;
  }

  /**
   * When the final height is below the head, no step deletes or changes a block at or below it, whatever the node
   * answers.
   */
  lemma Finality(o: Options, st: SyncState, node: Node)
    requires node.head.Some? && FinalHeight(o, node.head.value) < node.head.value.height
    ensures KeepsUpTo(o, st.stored, SyncStep(o, st, node).0.stored, FinalHeight(o, node.head.value))
  {
    var head := node.head.value;
    var grown := ApplyRun(o, st.stored, Fetched(o, st, node));
    ForkKeeps(o, st.stored, st.stored, node, head, head.height);
    if grown.1.Some? {
      ForkKeeps(o, st.stored, grown.0, node, head, grown.1.value.height);
    }
    hide ForkRollback, ApplyRun, FinalHeight, FirstId;
  }

  // A chain of blocks with distinct ids that grows by one block a step, and a node that then answers
  // with another block at its head.

  /** Our id at a height; longer than `other`, so never equal to it. */
  function Name(other: string, h: nat): (id: string)
    ensures |id| == h + |other| + 1
  {
    seq(h + |other| + 1, _ => 'x')
  }

  function OurBlock(other: string, h: nat): ChainBlock {
    ChainBlock(h, Name(other, h), if h == 0 then "" else Name(other, h - 1), 0, [])
  }

  function OurChain(o: Options, other: string, n: nat): seq<ChainBlock> {
    seq(n, i requires 0 <= i < n => OurBlock(other, o.startHeight + i))
  }

  function AnyChainId(o: Options): Option<string> {
    Some(if o.chainId.Some? then o.chainId.value else "")
  }

  /** The node while its head is our block at `h`. */
  function GrowingNode(o: Options, other: string, h: nat): Node {
    Node(AnyChainId(o), Some(ChainHead(h, Name(other, h), 0)),
         (from: int, count: int) => Some(if from == h then [OurBlock(other, h)] else []))
  }

  /** The node once its head is `head`, where it has the block `other`. */
  function ForkingNode(o: Options, head: ChainHead, other: string): Node {
    Node(AnyChainId(o), Some(head),
         (from: int, count: int) =>
           Some(if from < 0 then []
                else if from == head.height then [OurBlock(other, head.height).(id := other)]
                else [OurBlock(other, from)]))
  }

  const Initial := SyncState([], None, false)

  /** One step of the growing chain. */
  lemma GrowStep(o: Options, other: string, n: nat, verified: bool)
    requires ValidOptions(o)
    ensures SyncStep(o, SyncState(OurChain(o, other, n), None, verified), GrowingNode(o, other, o.startHeight + n)).0 ==
            SyncState(OurChain(o, other, n + 1), None, true)
  {
    var stored, block := OurChain(o, other, n), OurBlock(other, o.startHeight + n);
    OurChainNamed(o, other, n + 1);
    assert OurChain(o, other, n + 1)[n] == block && (n > 0 ==> OurChain(o, other, n + 1)[n - 1] == stored[n - 1]);
    assert stored + [block] == OurChain(o, other, n + 1);
    OneBlock(o, stored, block);
    assert Tip(o, stored) + 1 == block.height;
    hide Extends, ApplyRun, Name, OurBlock;
  }

  lemma OneBlock(o: Options, stored: seq<ChainBlock>, block: ChainBlock)
    requires Extends(stored, block, o.startHeight)
    ensures ApplyRun(o, stored, [block]) == (stored + [block], None)
  {
    ApplyRunEmpty(o, stored + [block]);
    assert [block][1..] == [];
  }

  /** The state after n steps of the growing chain. */
  lemma {:induction false} Grown(o: Options, other: string, nodes: seq<Node>, n: nat)
    requires ValidOptions(o) && n <= |nodes|
    requires forall i | 0 <= i < n :: nodes[i] == GrowingNode(o, other, o.startHeight + i)
    ensures StateAt(o, Initial, nodes, n) == SyncState(OurChain(o, other, n), None, n > 0)
  {
    hide SyncStep, GrowingNode;
    if n != 0 {
      Grown(o, other, nodes, n - 1);
      GrowStep(o, other, n - 1, n > 1);
    }
  }

  /** The node answers with another block below the tip: the block at its head is rolled back. */
  lemma ForkStep(o: Options, head: ChainHead, other: string)
    requires ValidOptions(o) && FinalHeight(o, head) >= head.height >= o.startHeight && other != ""
    ensures var n := head.height - o.startHeight + 2;
            SyncStep(o, SyncState(OurChain(o, other, n), None, true), ForkingNode(o, head, other)).0.stored ==
            OurChain(o, other, n - 2)
  {
    var n := head.height - o.startHeight + 2;
    var stored := OurChain(o, other, n);
    assert stored[head.height - o.startHeight] == OurBlock(other, head.height);
    assert |OurBlock(other, head.height).id| != |other|;
    assert Kept(stored, head.height - 1, o.startHeight) == OurChain(o, other, n - 2);
    hide Kept, Name;
  }

  /** The head falls below the start height: the first sighting is remembered, the second drops everything. */
  lemma LowStep(o: Options, head: ChainHead, other: string)
    requires ValidOptions(o) && head.height < o.startHeight
    ensures SyncStep(o, SyncState(OurChain(o, other, 1), None, true), ForkingNode(o, head, other)).0 ==
            SyncState(OurChain(o, other, 1), Some(head), true)
    ensures SyncStep(o, SyncState(OurChain(o, other, 1), Some(head), true), ForkingNode(o, head, other)).0.stored == []
  {
    hide Name, OurBlock;
  }

  /** The last step of the run deletes a final block, of blocks with distinct ids and their parents' names. */
  ghost predicate EndsUnfinal(o: Options, head: ChainHead, nodes: seq<Node>) {
    && nodes != [] && nodes[|nodes| - 1].head == Some(head)
    && var n := |nodes| - 1;
       var before, after := StateAt(o, Initial, nodes, n).stored, StateAt(o, Initial, nodes, n + 1).stored;
       && !KeepsUpTo(o, before, after, FinalHeight(o, head))
       && (forall i, j | 0 <= i < j < |before| :: before[i].id != before[j].id)
       && (forall i | 0 < i < |before| :: before[i].previous == before[i - 1].id)
  }

  /** Our chain grows until node i. */
  ghost predicate GrowsUntil(o: Options, other: string, nodes: seq<Node>, n: nat) {
    n <= |nodes| && forall i | 0 <= i < n :: nodes[i] == GrowingNode(o, other, o.startHeight + i)
  }

  lemma ForkRun(o: Options, head: ChainHead, other: string, nodes: seq<Node>, n: nat)
    requires ValidOptions(o) && FinalHeight(o, head) >= head.height >= o.startHeight && other != ""
    requires n == head.height - o.startHeight + 2 && |nodes| == n + 1 && GrowsUntil(o, other, nodes, n)
    requires nodes[n] == ForkingNode(o, head, other)
    ensures EndsUnfinal(o, head, nodes)
  {
    Grown(o, other, nodes, n);
    OurChainNamed(o, other, n);
    hide SyncStep, GrowingNode, FinalHeight, Name, OurBlock, GrowsUntil;
    ForkStep(o, head, other);
    Shorter(o, StateAt(o, Initial, nodes, n).stored, StateAt(o, Initial, nodes, n + 1).stored, FinalHeight(o, head),
            head.height - o.startHeight);
  }

  lemma LowRun(o: Options, head: ChainHead, other: string, nodes: seq<Node>)
    requires ValidOptions(o) && FinalHeight(o, head) >= o.startHeight > head.height
    requires |nodes| == 3 && GrowsUntil(o, other, nodes, 1)
    requires nodes[1] == nodes[2] == ForkingNode(o, head, other)
    ensures EndsUnfinal(o, head, nodes)
  {
    Grown(o, other, nodes, 1);
    OurChainNamed(o, other, 1);
    hide SyncStep, GrowingNode, FinalHeight, Name, OurBlock, GrowsUntil;
    LowStep(o, head, other);
    assert StateAt(o, Initial, nodes, 2) == SyncState(OurChain(o, other, 1), Some(head), true);
    Shorter(o, StateAt(o, Initial, nodes, 2).stored, StateAt(o, Initial, nodes, 3).stored, FinalHeight(o, head), 0);
  }

  lemma Shorter(o: Options, before: seq<ChainBlock>, after: seq<ChainBlock>, h: int, i: nat)
    requires |after| <= i < |before| && o.startHeight + i <= h
    ensures !KeepsUpTo(o, before, after, h)
  {
    var lost := before[i];
  }

  /**
   * The condition is exact: with the final height at or above the head (a reversible window of 0, or a node that calls
   * its head irreversible) some run from an empty database ends with a step that deletes a final block, unless no
   * height that is indexed is final.
   */
  lemma FinalityNeedsALowerFinalHeight(o: Options, head: ChainHead) returns (nodes: seq<Node>)
    requires ValidOptions(o) && FinalHeight(o, head) >= head.height && FinalHeight(o, head) >= o.startHeight
    ensures EndsUnfinal(o, head, nodes)
  {
    var other := if head.id == "" then "y" else head.id;
    var forking := ForkingNode(o, head, other);
    var n := if head.height >= o.startHeight then head.height - o.startHeight + 2 else 1;
    var growing := seq(n, i requires 0 <= i < n => GrowingNode(o, other, o.startHeight + i));
    hide SyncStep, GrowingNode, FinalHeight, Name, OurBlock, EndsUnfinal;
    if head.height >= o.startHeight {
      nodes := growing + [forking];
      ForkRun(o, head, other, nodes, n);
    } else {
      nodes := growing + [forking, forking];
      LowRun(o, head, other, nodes);
    }
  }

  lemma OurChainNamed(o: Options, other: string, n: nat)
    requires ValidOptions(o)
    ensures var blocks := OurChain(o, other, n);
            && (forall i, j | 0 <= i < j < n :: blocks[i].id != blocks[j].id)
            && (forall i | 0 < i < n :: blocks[i].previous == blocks[i - 1].id)
  {
    forall i, j | 0 <= i < j < n
      ensures OurChain(o, other, n)[i].id != OurChain(o, other, n)[j].id
    {
      var a, b := OurChain(o, other, n)[i], OurChain(o, other, n)[j];
      assert a == OurBlock(other, o.startHeight + i) && b == OurBlock(other, o.startHeight + j);
      assert |a.id| != |b.id|;
    }
    forall i | 0 < i < n
      ensures OurChain(o, other, n)[i].previous == OurChain(o, other, n)[i - 1].id
    {
      var h := o.startHeight + i;
      assert OurChain(o, other, n)[i] == OurBlock(other, h) && OurChain(o, other, n)[i - 1] == OurBlock(other, h - 1);
    }
    hide Name;
  }

  // -------------------------------------------------------------------------
  // A head below the tip
  // -------------------------------------------------------------------------

  /**
   * The node contradicted a stored block: another id at the head height (an empty one names no block), or a successor
   * of another block.
   */
  ghost predicate SawFork(o: Options, st: SyncState, node: Node)
    requires node.head.Some?
  {
    var head := node.head.value;
    if st.stored != [] && Tip(o, st.stored) >= head.height then
      var id := if Tip(o, st.stored) == head.height then Some(Some(head.id)) else FirstId(node, head.height);
      var ours := BlockAt(o, st.stored, head.height);
      id.Some? && id.value.Some? && id.value.value != "" && ours.Some? && ours.value.id != id.value.value
    else
      ApplyRun(o, st.stored, Fetched(o, st, node)).1.Some?
  }

  /** A step that completed although the head was below the tip and nothing contradicted the stored blocks. */
  ghost predicate SawLowerHead(o: Options, st: SyncState, node: Node) {
    && node.head.Some? && node.head.value.height < Tip(o, st.stored)
    && SyncStep(o, st, node).1.Done?
  }

  /** What the remembered head means. */
  lemma ShrunkHeadStep(o: Options, st: SyncState, node: Node)
    ensures var (next, r) := SyncStep(o, st, node);
            next.shrunkHead.Some? ==>
              || (r.Failed? && next.shrunkHead == st.shrunkHead && next.stored == st.stored)
              || (SawLowerHead(o, st, node) && next.stored == st.stored)
  {
    hide ForkRollback, ApplyRun, FirstId, RollbackTarget, Kept;
  }

  /**
   * A remembered head was seen by an earlier completed step, and every step since failed without changing the stored
   * blocks.
   */
  lemma {:induction false} ShrunkHeadWasSeen(o: Options, start: SyncState, nodes: seq<Node>, n: nat) returns (j: nat)
    requires n <= |nodes| && start.shrunkHead.None?
    requires StateAt(o, start, nodes, n).shrunkHead.Some?
    ensures j < n
    ensures SawLowerHead(o, StateAt(o, start, nodes, j), nodes[j])
    ensures forall i | j < i < n :: ResultAt(o, start, nodes, i).Failed?
    ensures forall i | j <= i <= n :: StateAt(o, start, nodes, i).stored == StateAt(o, start, nodes, n).stored
  {
    hide SyncStep, SawLowerHead;
    ShrunkHeadStep(o, StateAt(o, start, nodes, n - 1), nodes[n - 1]);
    if ResultAt(o, start, nodes, n - 1).Failed? && StateAt(o, start, nodes, n).shrunkHead ==
       StateAt(o, start, nodes, n - 1).shrunkHead
       && StateAt(o, start, nodes, n).stored == StateAt(o, start, nodes, n - 1).stored {
      j := ShrunkHeadWasSeen(o, start, nodes, n - 1);
    } else {
      j := n - 1;
    }
  }

  lemma {:induction false} GrownKeepsPrefix(o: Options, st: SyncState, node: Node)
    ensures st.stored <= ApplyRun(o, st.stored, Fetched(o, st, node)).0
  {
  }

  /** A step that drops a block without seeing a fork has a remembered head and drops only the blocks above the head. */
  lemma DropsWithoutFork(o: Options, st: SyncState, node: Node)
    requires node.head.Some? && !SawFork(o, st, node)
    ensures var next := SyncStep(o, st, node).0;
            || st.stored <= next.stored
            || (st.shrunkHead.Some? && node.head.value.height < Tip(o, st.stored)
                && next.stored == Kept(st.stored, Max(node.head.value.height, o.startHeight - 1), o.startHeight))
  {
    GrownKeepsPrefix(o, st, node);
    hide ForkRollback, ApplyRun, FirstId, RollbackTarget, Kept;
  }

  /**
   * One poll of tolerance: in any run from a fresh start, blocks are dropped without a contradicting
   * id only above a head that is below the tip, and only if an earlier completed step also saw a head below
   * that same tip, with nothing but failed steps in between.
   */
  lemma HeadShrinkTolerance(o: Options, start: SyncState, nodes: seq<Node>, n: nat) returns (j: nat)
    requires n < |nodes| && start.shrunkHead.None?
    requires !(StateAt(o, start, nodes, n).stored <= StateAt(o, start, nodes, n + 1).stored)
    requires nodes[n].head.Some? && !SawFork(o, StateAt(o, start, nodes, n), nodes[n])
    ensures nodes[n].head.value.height < Tip(o, StateAt(o, start, nodes, n).stored)
    ensures StateAt(o, start, nodes, n + 1).stored ==
            Kept(StateAt(o, start, nodes, n).stored, Max(nodes[n].head.value.height, o.startHeight - 1), o.startHeight)
    ensures j < n && StateAt(o, start, nodes, j).stored == StateAt(o, start, nodes, n).stored
    ensures SawLowerHead(o, StateAt(o, start, nodes, j), nodes[j])
    ensures forall i | j < i < n :: ResultAt(o, start, nodes, i).Failed?
  {
    hide SyncStep, SawLowerHead, SawFork, Kept;
    DropsWithoutFork(o, StateAt(o, start, nodes, n), nodes[n]);
    j := ShrunkHeadWasSeen(o, start, nodes, n);
  }

  // -------------------------------------------------------------------------
  // Convergence
  // -------------------------------------------------------------------------

  /** A canonical chain from the start height: non-empty ids, every block after the first names the one before it. */
  ghost predicate CanonicalChain(o: Options, chain: seq<ChainBlock>) {
    && (forall i | 0 <= i < |chain| :: chain[i].height == o.startHeight + i && chain[i].id != "")
    && (forall i | 0 < i < |chain| :: chain[i].previous == chain[i - 1].id)
  }

  /** A node of the right network whose head is the last block of the chain and which serves every block of it. */
  ghost predicate Serves(o: Options, node: Node, chain: seq<ChainBlock>) {
    && node.chainId.Some? && (o.chainId.Some? ==> node.chainId == o.chainId)
    && node.head.Some? && node.head.value.height == o.startHeight + |chain| - 1
    && (chain != [] ==> node.head.value.id == chain[|chain| - 1].id)
    && (forall from, count | o.startHeight <= from && 0 <= count && from - o.startHeight + count <= |chain| ::
          node.blocks(from, count) == Some(chain[from - o.startHeight..from - o.startHeight + count]))
  }

  /** Ids are collision-free: stored blocks and canonical blocks with the same id are the same block. */
  ghost predicate CollisionFree(stored: seq<ChainBlock>, chain: seq<ChainBlock>) {
    forall b, c | b in stored && c in chain && b.id == c.id :: b == c
  }

  /** Stored blocks name their predecessor, as blocks read from a node do. */
  ghost predicate NamesPredecessors(stored: seq<ChainBlock>) {
    forall i | 0 < i < |stored| :: stored[i].previous != ""
  }

  /** What convergence starts from: linked blocks, no taller than the chain, canonical up to the final height. */
  ghost predicate Recoverable(o: Options, stored: seq<ChainBlock>, node: Node, chain: seq<ChainBlock>) {
    && ValidOptions(o) && CanonicalChain(o, chain) && Serves(o, node, chain)
    && FinalHeight(o, node.head.value) < node.head.value.height
    && Linked(o, stored) && NamesPredecessors(stored) && CollisionFree(stored, chain) && |stored| <= |chain|
    && (forall i | 0 <= i < |stored| && o.startHeight + i <= FinalHeight(o, node.head.value) :: stored[i] == chain[i])
  }

  /** Stored blocks whose tip is canonical are canonical altogether. */
  lemma {:induction false} CanonicalTip(o: Options, stored: seq<ChainBlock>, chain: seq<ChainBlock>, n: nat)
    requires CanonicalChain(o, chain) && Linked(o, stored) && NamesPredecessors(stored) && CollisionFree(stored, chain)
    requires n <= |stored| <= |chain|
    requires n > 0 ==> stored[n - 1].id == chain[n - 1].id
    ensures stored[..n] == chain[..n]
  {
    if n != 0 {
      assert stored[n - 1] == chain[n - 1];
      CanonicalTip(o, stored, chain, n - 1);
      assert stored[..n] == stored[..n - 1] + [stored[n - 1]];
      assert chain[..n] == chain[..n - 1] + [chain[n - 1]];
    }
  }

  lemma {:induction false} ApplyRunCanonical(o: Options, chain: seq<ChainBlock>, n: nat, count: nat)
    requires CanonicalChain(o, chain) && n + count <= |chain|
    ensures ApplyRun(o, chain[..n], chain[n..n + count]) == (chain[..n + count], None)
    decreases count
  {
    hide CanonicalChain, Extends;
    if count != 0 {
      var rest := chain[n..n + count];
      assert rest[0] == chain[n] && rest[1..] == chain[n + 1..n + 1 + (count - 1)];
      NextCanonical(o, chain, n);
      ApplyRunCanonical(o, chain, n + 1, count - 1);
    }
  }

  lemma NextCanonical(o: Options, chain: seq<ChainBlock>, n: nat)
    requires CanonicalChain(o, chain) && n < |chain|
    ensures chain[n].height == o.startHeight + n && Extends(chain[..n], chain[n], o.startHeight)
    ensures chain[..n] + [chain[n]] == chain[..n + 1]
  {
  }

  /** The facts of a consistent node that one step uses. */
  lemma NodeAnswers(o: Options, node: Node, chain: seq<ChainBlock>, n: nat, count: nat)
    requires Serves(o, node, chain) && n + count <= |chain|
    ensures node.blocks(o.startHeight + n, count) == Some(chain[n..n + count])
    ensures node.chainId.Some? && (o.chainId.Some? ==> node.chainId == o.chainId)
    ensures node.head.Some? && node.head.value.height == o.startHeight + |chain| - 1
    ensures chain != [] ==> node.head.value.id == chain[|chain| - 1].id
  {
    assert o.startHeight + n - o.startHeight == n;
  }

  lemma StepAdvances(o: Options, st: SyncState, node: Node)
    requires node.chainId.Some? && (o.chainId.Some? ==> node.chainId == o.chainId) && node.head.Some?
    requires st.stored == [] || Tip(o, st.stored) < node.head.value.height
    ensures SyncStep(o, st, node) == Advance(o, SyncState(st.stored, None, true), node, node.head.value)
  {
    hide Advance;
  }

  /** What the fetched batch decides when all of it extends the stored blocks. */
  lemma AdvanceResult(o: Options, st: SyncState, node: Node, chain: seq<ChainBlock>,
                      run: (seq<ChainBlock>, Option<ChainBlock>))
    requires node.head.Some? && node.head.value.height == o.startHeight + |chain| - 1 && |st.stored| <= |chain|
    requires var n := |st.stored|; var count := Min(o.batchSize, |chain| - n);
             && 0 <= count && n + count <= |chain|
             && node.blocks(o.startHeight + n, count) == Some(chain[n..n + count])
             && run == ApplyRun(o, st.stored, chain[n..n + count])
    requires run.1.None?
    ensures var (next, r) := Advance(o, st, node, node.head.value);
            && next.stored == run.0
            && var applied := |run.0| - |st.stored|;
               r == Done(applied, |run.0| >= |chain|, |run.0| < |chain| && applied == 0, None)
  {
    hide ApplyRun;
  }

  /** Canonical stored blocks: the step applies the next batch, and is caught up when that was the last. */
  lemma CanonicalStep(o: Options, st: SyncState, node: Node, chain: seq<ChainBlock>)
    requires ValidOptions(o) && CanonicalChain(o, chain) && Serves(o, node, chain) && st.stored <= chain
    ensures var (next, r) := SyncStep(o, st, node);
            var n := Min(|st.stored| + o.batchSize, |chain|);
            && next.stored == chain[..n]
            && r == Done(n - |st.stored|, n == |chain|, false, None)
  {
    hide Serves, ApplyRun, CanonicalChain, SyncStep, Advance;
    var n := |st.stored|;
    assert st.stored == chain[..n];
    if n < |chain| || n == 0 {
      var count := Min(o.batchSize, |chain| - n);
      ApplyRunCanonical(o, chain, n, count);
      NodeAnswers(o, node, chain, n, count);
      StepAdvances(o, st, node);
      AdvanceResult(o, SyncState(st.stored, None, true), node, chain, (chain[..n + count], None));
    } else {
      CanonicalAtHead(o, st, node, chain);
    }
  }

  lemma CanonicalAtHead(o: Options, st: SyncState, node: Node, chain: seq<ChainBlock>)
    requires ValidOptions(o) && Serves(o, node, chain) && st.stored == chain && chain != []
    ensures var (next, r) := SyncStep(o, st, node);
            next.stored == chain && r == Done(0, true, false, None)
  {
    NodeAnswers(o, node, chain, 0, 0);
    hide Serves, FirstId, ForkRollback;
  }

  /** The fork is found and undone: the rollback target is the final height, which the node confirms. */
  lemma ForkUndone(o: Options, stored: seq<ChainBlock>, node: Node, chain: seq<ChainBlock>, forkHeight: int)
    requires Recoverable(o, stored, node, chain)
    requires FinalHeight(o, node.head.value) < forkHeight && o.startHeight <= forkHeight <= o.startHeight + |stored|
    ensures ForkRollback(o, stored, node, node.head.value, forkHeight) ==
            Some(Kept(stored, FinalHeight(o, node.head.value), o.startHeight))
    ensures Kept(stored, FinalHeight(o, node.head.value), o.startHeight) <= chain
  {
    var to := RollbackTarget(o, node.head.value, forkHeight);
    if o.startHeight <= to < o.startHeight + |stored| {
      NodeAnswers(o, node, chain, to - o.startHeight, 1);
    }
    hide FinalHeight, Serves, Linked, NamesPredecessors, CollisionFree;
  }

  /** Below the head: a stored tip that is not canonical is a fork at the first fetched block. */
  lemma DivergedBelowHead(o: Options, st: SyncState, node: Node, chain: seq<ChainBlock>)
    requires Recoverable(o, st.stored, node, chain) && 0 < |st.stored| < |chain|
    requires st.stored[|st.stored| - 1].id != chain[|st.stored| - 1].id
    requires FinalHeight(o, node.head.value) < Tip(o, st.stored)
    ensures var (next, r) := SyncStep(o, st, node);
            && next.stored == Kept(st.stored, FinalHeight(o, node.head.value), o.startHeight)
            && r.Done? && r.applied == 0 && !r.caughtUp && !r.stalled && r.rolledBack.Some?
  {
    hide ApplyRun, ForkRollback, Kept, FinalHeight, RollbackTarget;
    var n := |st.stored|;
    var count := Min(o.batchSize, |chain| - n);
    var blocks := chain[n..n + count];
    NodeAnswers(o, node, chain, n, count);
    assert blocks[0] == chain[n];
    ForkAtOnce(o, st.stored, chain, blocks);
    ForkUndone(o, st.stored, node, chain, o.startHeight + n);
    hide Recoverable, CanonicalChain, Serves;
  }

  /** The first block after a stored tip that is not canonical is a fork. */
  lemma ForkAtOnce(o: Options, stored: seq<ChainBlock>, chain: seq<ChainBlock>, blocks: seq<ChainBlock>)
    requires CanonicalChain(o, chain) && 0 < |stored| < |chain| && blocks != [] && blocks[0] == chain[|stored|]
    requires stored[|stored| - 1].id != chain[|stored| - 1].id
    ensures ApplyRun(o, stored, blocks) == (stored, Some(chain[|stored|]))
  {
    assert chain[|stored|].previous == chain[|stored| - 1].id;
  }

  /** At the head: another id there is a fork at the head. */
  lemma DivergedAtHead(o: Options, st: SyncState, node: Node, chain: seq<ChainBlock>)
    requires Recoverable(o, st.stored, node, chain) && 0 < |st.stored| == |chain|
    requires st.stored[|st.stored| - 1].id != chain[|st.stored| - 1].id
    ensures var (next, r) := SyncStep(o, st, node);
            && next.stored == Kept(st.stored, FinalHeight(o, node.head.value), o.startHeight)
            && r.Done? && r.applied == 0 && !r.caughtUp && !r.stalled && r.rolledBack.Some?
  {
    NodeAnswers(o, node, chain, 0, 0);
    assert chain[|chain| - 1].id != "";
    ForkUndone(o, st.stored, node, chain, o.startHeight + |chain| - 1);
    hide ForkRollback, Recoverable, Kept, FinalHeight, RollbackTarget, Serves;
  }

  /** Stored blocks that are not canonical are cut back to canonical ones in one step. */
  lemma DivergedStep(o: Options, st: SyncState, node: Node, chain: seq<ChainBlock>)
    requires Recoverable(o, st.stored, node, chain) && !(st.stored <= chain)
    ensures var (next, r) := SyncStep(o, st, node);
            && next.stored <= chain
            && r.Done? && r.applied == 0 && !r.caughtUp && !r.stalled && r.rolledBack.Some?
  {
    hide SyncStep, Serves, Kept, FinalHeight, ForkRollback;
    var n := |st.stored|;
    if st.stored[n - 1].id == chain[n - 1].id {
      CanonicalTip(o, st.stored, chain, n);
      assert false;
    } else {
      ForkUndone(o, st.stored, node, chain, o.startHeight + n);
      if n < |chain| {
        DivergedBelowHead(o, st, node, chain);
      } else {
        DivergedAtHead(o, st, node, chain);
      }
    }
  }

  /** From canonical blocks a run ends with the whole chain and rolls nothing back. */
  lemma {:induction false} CatchesUp(o: Options, st: SyncState, nodes: seq<Node>, node: Node, chain: seq<ChainBlock>)
    requires ValidOptions(o) && CanonicalChain(o, chain) && Serves(o, node, chain) && st.stored <= chain
    requires (forall n | n in nodes :: n == node) && |nodes| > |chain| - |st.stored|
    ensures var run := ToHead(o, st, nodes);
            && run.state.stored == chain && run.rollbacks == 0
            && run.result == Done(|chain| - |st.stored|, true, false, None)
    decreases |nodes|
  {
    hide SyncStep, CanonicalChain, Serves;
    CanonicalStep(o, st, node, chain);
    assert nodes[0] in nodes && forall n | n in nodes[1..] :: n in nodes;
    var next := SyncStep(o, st, node).0;
    if |next.stored| < |chain| {
      CatchesUp(o, next, nodes[1..], node, chain);
    }
  }

  /**
   * Convergence and termination: against a fixed consistent node, from any linked stored blocks no
   * taller than its chain and canonical up to the final height, a sync run of at most |chain| + 2
   * steps ends caught up with exactly the canonical chain, after at most one rollback, and with none
   * when the stored blocks were canonical.
   */
  lemma Converges(o: Options, st: SyncState, nodes: seq<Node>, node: Node, chain: seq<ChainBlock>)
    requires Recoverable(o, st.stored, node, chain)
    requires (forall n | n in nodes :: n == node) && |nodes| >= |chain| + 2
    ensures var run := ToHead(o, st, nodes);
            && run.state.stored == chain
            && run.result.Done? && run.result.caughtUp && !run.result.stalled
            && run.rollbacks == if st.stored <= chain then 0 else 1
  {
    hide SyncStep, CanonicalChain, Serves, Linked, NamesPredecessors, CollisionFree, FinalHeight;
    if st.stored <= chain {
      CatchesUp(o, st, nodes, node, chain);
    } else {
      DivergedStep(o, st, node, chain);
      assert nodes[0] in nodes && forall n | n in nodes[1..] :: n in nodes;
      CatchesUp(o, SyncStep(o, st, node).0, nodes[1..], node, chain);
    }
  }
}
