/**
 * Stored cross-posts and what the queue offers for them (`apps/extension/src/shared/queue.ts`,
 * `StoredCrossPost` in `protocol.ts`).
 */
module Queue {
  import opened Wrappers
  import opened Reconcile

  const STALE_SUBMITTING_MS := 120_000

  datatype Adapter = Facebook | SidePanel | Generic

  datatype Proof = Proof(txId: string, recordedAt: int)

  /** A reconciliation record with what the extension keeps beside it. */
  datatype Stored = Stored(
    base: Record,
    adapter: Adapter,
    author: Option<string>,
    text: Option<string>,
    contentHash: Option<string>,
    expectedPostId: Option<string>,
    pendingTxId: Option<string>,
    proof: Option<Proof>,
    proofError: Option<string>,
    createdAt: int)

  datatype QueueAction = Confirm | RetryPublish | LookUp | MarkHostPosted | MarkHostFailed | RecordProof | Discard

  /** A host attempt whose Koinos post exists, whose host outcome is reported and that has no proof yet. */
  predicate NeedsProof(r: Stored) {
    && r.adapter == Facebook && r.base.hostStatus != NotRequired
    && r.base.koinosStatus == Done && r.base.postId.Some? && r.base.postId.value != ""
    && (r.base.hostStatus == Done || r.base.hostStatus == SideFailed)
    && r.proof.None?
  }

  /** Too long without an answer. */
  predicate IsOld(r: Stored, now: int) {
    now - r.base.updatedAt > STALE_SUBMITTING_MS
  }

  predicate IsStale(r: Stored, now: int) {
    r.base.state == Submitting && IsOld(r, now) && r.base.koinosStatus == Pending
  }

  /** The actions the queue offers, in order. */
  function Explain(r: Stored, now: int): seq<QueueAction> {
    var proof := if NeedsProof(r) then [RecordProof] else [];
    match r.base.state
    case Draft => [Confirm, Discard]
    case Submitting =>
      if r.base.koinosStatus == Done && r.base.hostStatus == Pending then [MarkHostPosted, MarkHostFailed]
      else if r.base.koinosStatus == SideFailed && r.base.hostStatus == Pending then
        [RetryPublish, MarkHostPosted, MarkHostFailed, Discard]
      else if IsOld(r, now) then [LookUp]
      else []
    case Succeeded => proof
    case Partial => if r.base.koinosStatus == Done then proof else [RetryPublish, Discard]
    case OutcomeUnknown => [LookUp]
    case AllFailed => [RetryPublish, Discard]
    case ReconcileRequired => [Discard]
  }

  function NeedsAttention(r: Stored, now: int): bool {
    match r.base.state
    case Draft => true
    case Submitting =>
      (r.base.koinosStatus == Done && r.base.hostStatus == Pending)
      || (r.base.koinosStatus == SideFailed && r.base.hostStatus == Pending)
      || IsOld(r, now)
    case Succeeded => false
    case Partial => if r.base.koinosStatus == Done then NeedsProof(r) else true
    case _ => true
  }

  /** Nothing is left to do: both sides are settled with the post on chain, and no proof is missing. */
  predicate IsFinished(r: Stored) {
    r.base.koinosStatus == Done && (HostDone(r.base) || r.base.hostStatus == SideFailed) && !NeedsProof(r)
  }

  /** Sent a moment ago; the answer is still due. */
  predicate IsFresh(r: Stored, now: int) {
    r.base.state == Submitting && r.base.koinosStatus == Pending && !IsOld(r, now)
  }

  /**
   * No dead ends: a sound record is offered no action exactly when it is finished or a fresh submission
   * (outside manual review, where discarding is offered).
   */
  lemma NoDeadEnds(r: Stored, now: int)
    requires Sound(r.base)
    ensures Explain(r, now) == [] <==> r.base.state != ReconcileRequired && (IsFinished(r) || IsFresh(r, now))
  {
  }

  /** Once the submission is old, an unfinished record asks for the user's attention. */
  lemma UnfinishedAsksForAttention(r: Stored, now: int)
    requires Sound(r.base)
    ensures !NeedsAttention(r, now) ==> r.base.state == Succeeded || IsFinished(r) || IsFresh(r, now)
  {
  }
}
