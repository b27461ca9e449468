/**
 * What the user can rely on in the queue: every offered action is accepted and when it can force a manual
 * review.
 */
module CrossPostQueue {
  import opened Wrappers
  import opened Reconcile
  import opened Queue
  import opened CrossPost
  import opened CrossPostRuns

  // -------------------------------------------------------------------------
  // Offered actions are accepted
  // -------------------------------------------------------------------------

  /** The call behind a queue action; marking the host posted comes with a link. */
  function CallFor(r: Stored, action: QueueAction, link: string): Call {
    match action
    case Confirm => ConfirmDraft(r.base.attemptId, None)
    case RetryPublish => RetryAttempt(r.base.attemptId)
    case LookUp => ReconcileAttempt(r.base.attemptId)
    case MarkHostPosted => MarkHost(r.base.attemptId, true, link)
    case MarkHostFailed => MarkHost(r.base.attemptId, false, link)
    case RecordProof => RecordProofOf(r.base.attemptId)
    case Discard => DiscardAttempt(r.base.attemptId)
  }

  /**
   * Every action the queue offers passes the orchestrator's gate, draft text included, when the account that owns
   * the record is unlocked, the link is a link to the host, and proofs can be recorded.
   */
  lemma OfferedActionsAreAccepted(cfg: Config, r: Stored, action: QueueAction, link: string, env: Env)
    requires RecordOk(cfg, r) && action in Explain(r, env.now)
    requires env.account.Some? && (r.author.Some? ==> r.author == env.account)
    requires action == MarkHostPosted ==> HostLinkOk(cfg, r, link)
    requires action == RecordProof ==> cfg.recordsProofs
    ensures !EffectOf(cfg, Some(r), CallFor(r, action, link), env).reply.Rejected?
  {
    match action
    case RetryPublish =>
      assert r.base.koinosStatus == SideFailed && r.base.state != Succeeded && r.base.state != ReconcileRequired;
      hide PublishEffect, LookupEvent, Lower, Explain, DeriveState;
      PublishIsAccepted(cfg, r.(base := Transition(r.base, Retry, env.now)), env);
    case Confirm =>
      hide PublishEffect;
      PublishIsAccepted(cfg, Prepared(cfg, r, env.account.value, None, env.now), env);
    case _ => hide Transition, Lower, LookupEvent;
  }

  lemma PublishIsAccepted(cfg: Config, r: Stored, env: Env)
    ensures !PublishEffect(cfg, r, env).reply.Rejected?
  {
    hide AfterPublication, NeedsProof, WithProof;
  }

  /**
   * In every run: a stored record is finished, was sent a moment ago, or is offered an action that will be accepted.
   */
  lemma QueueHasNoDeadEnds(cfg: Config, turns: seq<Turn>, n: nat, r: Stored, env: Env, link: string)
    requires WellFormedTurns(turns) && n <= |turns| && r in RecordsAt(cfg, turns, n)
    requires env.account.Some? && (r.author.Some? ==> r.author == env.account) && HostLinkOk(cfg, r, link)
             && cfg.recordsProofs
    ensures IsFinished(r) || IsFresh(r, env.now) || Explain(r, env.now) != []
    ensures forall action | action in Explain(r, env.now) ::
              !EffectOf(cfg, Some(r), CallFor(r, action, link), env).reply.Rejected?
  {
    RecordsAlwaysOk(cfg, turns, n);
    assert RecordOk(cfg, r) && Sound(r.base);
    NoDeadEnds(r, env.now);
    hide RecordOk, EffectOf, WellFormedTurns, RecordsAt, HostLinkOk, CallFor;
    forall action | action in Explain(r, env.now)
      ensures !EffectOf(cfg, Some(r), CallFor(r, action, link), env).reply.Rejected?
    {
      OfferedActionsAreAccepted(cfg, r, action, link, env);
    }
  }

  /**
   * No action the queue offers drives a record to manual review, whatever the chain, the node and the indexer
   * answer: lookups are offered only while no post id is recorded, host reports only while no link is.
   */
  lemma OfferedActionsForceNoReview(cfg: Config, r: Stored, action: QueueAction, link: string, env: Env, x: Stored)
    requires RecordOk(cfg, r) && action in Explain(r, env.now)
    requires x in EffectOf(cfg, Some(r), CallFor(r, action, link), env).stores
    ensures x.base.state == ReconcileRequired ==> r.base.state == ReconcileRequired
  {
    var call := CallFor(r, action, link);
    CallOk(cfg, Some(r), call, env);
    assert Sound(r.base);
    hide RecordOk, EffectOf, NeedsProof, Lower;
    assert !ForcesReview(r, call, env);
  }

  /**
   * The record may have changed since it was shown: an action that was offered for `shown` and reaches the record as
   * it is now forces a manual review exactly when a lookup finds something else than the post id recorded by now, or
   * the reported link is not the one recorded by now. Neither was there when the action was offered.
   */
  lemma OutdatedOffersForceReviewExactly(cfg: Config, shown: Stored, shownAt: int, r: Stored, action: QueueAction,
                                         link: string, env: Env, x: Stored)
    requires RecordOk(cfg, shown) && action in Explain(shown, shownAt)
    requires RecordOk(cfg, r) && r.base.attemptId == shown.base.attemptId
    requires x in EffectOf(cfg, Some(r), CallFor(shown, action, link), env).stores
    ensures x.base.state == ReconcileRequired <==>
            || r.base.state == ReconcileRequired
            || (action == LookUp && LookupClash(r, env.chain, env.indexer))
            || (action == MarkHostPosted && HostClash(r, true, link))
    ensures action == LookUp ==> shown.base.postId.None?
    ensures action == MarkHostPosted ==> shown.base.hostRef.None?
  {
    var call := CallFor(shown, action, link);
    CallOk(cfg, Some(r), call, env);
    assert Sound(shown.base);
    hide RecordOk, EffectOf, NeedsProof, Lower, LookupClash, HostClash;
  }
}
