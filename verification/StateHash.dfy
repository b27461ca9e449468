/**
 * The state hash chain (`apps/indexer/src/hash.ts`, served for comparison between indexers): each
 * checkpoint hashes the previous state hash and the block's events.
 */
module StateHash {
  import opened Wrappers
  import opened Projections
  import opened Chain
  import opened Database

  /** The hash function has no collisions and never yields the empty string that stands for "no block yet". */
  ghost predicate CollisionFreeHash(cfg: Config) {
    && (forall p, v :: cfg.hash(p, v) != "")
    && (forall p, v, p', v' | cfg.hash(p, v) == cfg.hash(p', v') :: p == p' && v == v')
  }

  /** The state hash after the last block. */
  ghost function StateHashOf(cfg: Config, blocks: seq<ChainBlock>): string {
    var last := LastCheckpoint(AllCheckpoints(cfg, blocks));
    if last.Some? then last.value.stateHash else ""
  }

  lemma HashUnfold(cfg: Config, blocks: seq<ChainBlock>)
    ensures StateHashOf(cfg, blocks) ==
            if blocks == [] then "" else cfg.hash(StateHashOf(cfg, blocks[..|blocks| - 1]),
                                                  ViewsOf(blocks[|blocks| - 1]))
  {
    hide ViewsOf;
  }

  /** As many blocks, with the same events at each height. */
  ghost predicate SameEvents(a: seq<ChainBlock>, b: seq<ChainBlock>) {
    |a| == |b| && forall i | 0 <= i < |a| :: ViewsOf(a[i]) == ViewsOf(b[i])
  }

  /**
   * Two indexers have the same state hash exactly when they stored as many blocks and every block has the same
   * events; the ids of blocks without events are not covered.
   */
  lemma {:induction false} HashesCompareEvents(cfg: Config, a: seq<ChainBlock>, b: seq<ChainBlock>)
    requires CollisionFreeHash(cfg)
    ensures StateHashOf(cfg, a) == StateHashOf(cfg, b) <==> SameEvents(a, b)
    decreases |a|
  {
    HashUnfold(cfg, a);
    HashUnfold(cfg, b);
    hide StateHashOf, ViewsOf;
    if a != [] && b != [] {
      HashesCompareEvents(cfg, a[..|a| - 1], b[..|b| - 1]);
    }
  }
}
