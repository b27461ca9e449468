/**
 * Whole runs of the cross-post orchestrator, whatever the chain, the node and the indexer answer: stored
 * records stay sound, keyed and fit for use, recorded facts are never rewritten, and manual review has
 * exactly two causes.
 */
module CrossPostRuns {
  import opened Wrappers
  import opened Reconcile
  import opened Queue
  import opened CrossPost

  // -------------------------------------------------------------------------
  // Records
  // -------------------------------------------------------------------------

  /**
   * What every stored record satisfies: sound, keyed by its author, its draft text at hand until it is published,
   * and what it asks the indexer for complete or absent.
   */
  ghost predicate RecordOk(cfg: Config, r: Stored) {
    && Sound(r.base)
    && (r.base.koinosStatus != Done ==> r.text.Some? && r.text.value != "")
    && (r.base.state != Draft ==>
          r.author.Some? && r.base.idempotencyKey == cfg.keyOf(r.author.value, r.base.attemptId))
    && (r.adapter == Facebook <==> r.base.hostSite.Some?)
    && (r.expectedPostId.Some? <==> r.contentHash.Some?)
    && (r.base.state == Draft ==> r.expectedPostId.None?)
  }

  /**
   * A later base record: facts kept, still confirmed, and manual review exactly where it was or where `review` says
   * so.
   */
  ghost predicate LaterBase(base: Record, next: Record, review: bool) {
    && next.attemptId == base.attemptId && next.idempotencyKey == base.idempotencyKey && next.hostSite == base.hostSite
    && (base.postId.Some? ==> next.postId == base.postId)
    && (base.hostRef.Some? ==> next.hostRef == base.hostRef)
    && (base.state != Draft ==> next.state != Draft)
    && (next.state == ReconcileRequired <==> base.state == ReconcileRequired || review)
  }

  /** A later version of a record; the key of a draft may still change. */
  ghost predicate Later(r: Stored, next: Stored, review: bool) {
    && next.base.attemptId == r.base.attemptId
    && (r.base.postId.Some? ==> next.base.postId == r.base.postId)
    && (r.base.hostRef.Some? ==> next.base.hostRef == r.base.hostRef)
    && (r.base.state != Draft ==> next.base.state != Draft && next.base.idempotencyKey == r.base.idempotencyKey)
    && (next.base.state == ReconcileRequired <==> r.base.state == ReconcileRequired || review)
  }

  lemma LaterTransitive(a: Stored, b: Stored, c: Stored, review: bool)
    requires Later(a, b, review) && Later(b, c, false)
    ensures Later(a, c, review)
  {
  }

  lemma LaterBaseTransitive(a: Record, b: Record, c: Record, review: bool)
    requires LaterBase(a, b, false) && LaterBase(b, c, review)
    ensures LaterBase(a, c, review)
  {
  }

  /** An event keeps a base record sound and forces a manual review exactly when it contradicts it. */
  lemma EventOk(base: Record, event: Event, at: int)
    requires Sound(base)
    ensures Sound(Transition(base, event, at)) && LaterBase(base, Transition(base, event, at), Contradicts(base, event))
  {
    StepIsSound(base, event, at);
    hide Lower, DeriveState;
  }

  lemma AdoptionOk(base: Record, r: Stored, current: Record, review: bool)
    requires Sound(current) && LaterBase(base, current, review)
    ensures Sound(AdoptPendingTx(r, current)) && LaterBase(base, AdoptPendingTx(r, current), review)
  {
    hide Lower;
  }

  /** A record settled on a later base is fit for use. */
  lemma SettledOk(cfg: Config, r: Stored, known: Stored, current: Record, review: bool)
    requires RecordOk(cfg, r) && r.base.state != Draft
    requires known.adapter == r.adapter && known.author == r.author && known.text == r.text
    requires known.expectedPostId.Some? <==> known.contentHash.Some?
    requires Sound(current) && LaterBase(r.base, current, review)
    ensures RecordOk(cfg, Settled(known, current)) && Later(r, Settled(known, current), review)
  {
    hide Lower, DeriveState;
  }

  lemma ProofOk(cfg: Config, r: Stored, env: Env)
    requires RecordOk(cfg, r) && !env.proof.ProofStops? && NeedsProof(r)
    ensures RecordOk(cfg, WithProof(r, env)) && Later(r, WithProof(r, env), false)
  {
    hide Lower;
  }

  // -------------------------------------------------------------------------
  // Calls
  // -------------------------------------------------------------------------

  /** Every record a call stores is fit for use and a later version of the one it started from. */
  ghost predicate EffectOk(cfg: Config, r: Stored, e: Effect, review: bool) {
    forall x | x in e.stores :: RecordOk(cfg, x) && Later(r, x, review)
  }

  lemma ThenOk(cfg: Config, r: Stored, first: Stored, rest: Effect, review: bool)
    requires RecordOk(cfg, first) && Later(r, first, review) && EffectOk(cfg, first, rest, false)
    ensures EffectOk(cfg, r, Then(first, rest), review)
  {
    hide RecordOk;
  }

  lemma ProofEffectOk(cfg: Config, r: Stored, env: Env)
    requires RecordOk(cfg, r)
    ensures EffectOk(cfg, r, ProofEffect(cfg, r, env), false)
  {
    if NeedsProof(r) && cfg.recordsProofs && !env.proof.ProofStops? {
      ProofOk(cfg, r, env);
    }
    hide RecordOk, Later, WithProof;
  }

  lemma SettleAndProve(cfg: Config, r: Stored, known: Stored, current: Record, review: bool, env: Env)
    requires RecordOk(cfg, r) && r.base.state != Draft
    requires known.adapter == r.adapter && known.author == r.author && known.text == r.text
    requires known.expectedPostId.Some? <==> known.contentHash.Some?
    requires Sound(current) && LaterBase(r.base, current, review)
    ensures EffectOk(cfg, r, Then(Settled(known, current), ProofEffect(cfg, Settled(known, current), env)), review)
  {
    hide RecordOk, Later, LaterBase, ProofEffect, Settled, Sound;
    SettledOk(cfg, r, known, current, review);
    ProofEffectOk(cfg, Settled(known, current), env);
    ThenOk(cfg, r, Settled(known, current), ProofEffect(cfg, Settled(known, current), env), review);
  }

  /** A lookup of a record without a post id contradicts nothing. */
  lemma LookupOk(base: Record, known: Stored, current: Record, chain: ChainAnswer, indexer: IndexerAnswer, at: int)
    requires Sound(current) && LaterBase(base, current, false) && LookupEvent(chain, indexer).Some?
    ensures var event := LookupEvent(chain, indexer).value;
            var next := AdoptPendingTx(known, Transition(current, event, at));
            Sound(next) && LaterBase(base, next, Contradicts(current, event))
  {
    var event := LookupEvent(chain, indexer).value;
    EventOk(current, event, at);
    hide LaterBase, Sound, Transition, LookupEvent, Contradicts;
    LaterBaseTransitive(base, current, Transition(current, event, at), Contradicts(current, event));
    AdoptionOk(base, known, Transition(current, event, at), Contradicts(current, event));
  }

  /** A record without a post id contradicts no lookup. */
  lemma NothingToContradict(base: Record, chain: ChainAnswer, indexer: IndexerAnswer)
    requires base.postId.None? && LookupEvent(chain, indexer).Some?
    ensures !Contradicts(base, LookupEvent(chain, indexer).value)
  {
    hide Lower;
  }

  lemma FailedStillHasNoPost(base: Record, message: string, at: int)
    requires base.postId.None?
    ensures Transition(base, KoinosFailed(message), at).postId.None?
  {
    hide DeriveState;
  }

  /** The answer to a publication of a record without a post id. */
  lemma AnsweredOk(r: Stored, env: Env)
    requires Sound(r.base) && r.base.postId.None? && !env.publish.WorkerStops? && Answered(r, env).Some?
    ensures Sound(Answered(r, env).value) && LaterBase(r.base, Answered(r, env).value, false)
  {
    hide Transition, Sound, Lower, LookupEvent, LaterBase, ClassifySubmitError, WithAttempt, AdoptPendingTx;
    match env.publish {
      case Outcome(txId, postId, contentHash) => EventOk(r.base, KoinosSucceeded(txId, postId), env.now);
      case Failure(e) =>
        EventOk(r.base, KoinosFailed(e.message), env.now);
        EventOk(r.base, KoinosUnknown(Some(e.message)), env.now);
        if ClassifySubmitError(e) == IsDuplicate {
          var failed := Transition(r.base, KoinosFailed(e.message), env.now);
          FailedStillHasNoPost(r.base, e.message, env.now);
          NothingToContradict(failed, env.chainAfter, env.indexerAfter);
          LookupOk(r.base, WithAttempt(r, e), failed, env.chainAfter, env.indexerAfter, env.now);
        }
    }
  }

  lemma PublishEffectOk(cfg: Config, r: Stored, env: Env)
    requires RecordOk(cfg, r) && r.base.state != Draft && r.base.postId.None?
    ensures EffectOk(cfg, r, PublishEffect(cfg, r, env), false)
  {
    hide ProofEffect, Answered, LaterBase, Sound, Later, Settled, ClassifySubmitError;
    if AfterPublication(r, env).Some? {
      AnsweredOk(r, env);
      var known := match env.publish
        case Outcome(_, postId, contentHash) => r.(contentHash := Some(contentHash), expectedPostId := Some(postId))
        case Failure(e) => WithAttempt(r, e);
      SettleAndProve(cfg, r, known.(pendingTxId := NewPendingTx(env.publish)), Answered(r, env).value, false, env);
    }
  }

  lemma PreparedOk(cfg: Config, r: Stored, account: string, audience: Option<nat>, now: int)
    requires RecordOk(cfg, r) && r.base.state == Draft && (r.author.Some? ==> r.author.value == account)
    ensures var prepared := Prepared(cfg, r, account, audience, now);
            && RecordOk(cfg, prepared) && Later(r, prepared, false)
            && prepared.base.state != Draft && prepared.base.postId.None?
  {
    hide Lower;
  }

  /** Who acts for the attempt. */
  function Acting(r: Stored, env: Env): Option<string> {
    if r.author.Some? then r.author else env.account
  }

  lemma ConfirmOk(cfg: Config, r: Stored, audience: Option<nat>, env: Env)
    requires RecordOk(cfg, r)
    ensures EffectOk(cfg, r, ConfirmEffect(cfg, r, audience, env), false)
  {
    hide RecordOk, Later, PublishEffect, Prepared;
    if r.base.state == Draft && env.account.Some? && !(r.author.Some? && r.author != env.account) {
      var prepared := Prepared(cfg, r, env.account.value, audience, env.now);
      PreparedOk(cfg, r, env.account.value, audience, env.now);
      PublishEffectOk(cfg, prepared, env);
      ThenOk(cfg, r, prepared, PublishEffect(cfg, prepared, env), false);
    }
  }

  lemma ResendOk(cfg: Config, r: Stored, current: Record, env: Env)
    requires RecordOk(cfg, r) && r.base.state != Draft && Sound(current) && LaterBase(r.base, current, false)
    requires current.koinosStatus == Done ==> r.base.koinosStatus == Done
    ensures EffectOk(cfg, r, ResendEffect(cfg, r, current, env), false)
  {
    var prepared := r.(base := Transition(current, Retry, env.now));
    EventOk(current, Retry, env.now);
    RetryKeepsPost(current, env.now);
    LaterBaseTransitive(r.base, current, prepared.base, false);
    assert RecordOk(cfg, prepared) && Later(r, prepared, false);
    hide RecordOk, Later, LaterBase, PublishEffect, Transition;
    if RetryPlan(current).koinos && !(prepared.text.None? || prepared.text.value == "") {
      PublishEffectOk(cfg, prepared, env);
      ThenOk(cfg, r, prepared, PublishEffect(cfg, prepared, env), false);
    }
  }

  lemma RetryKeepsPost(base: Record, at: int)
    ensures Transition(base, Retry, at).postId == base.postId
    ensures Sound(base) ==> (Transition(base, Retry, at).koinosStatus == Done <==> base.koinosStatus == Done)
  {
    hide Lower;
  }

  lemma RetryOk(cfg: Config, r: Stored, env: Env)
    requires RecordOk(cfg, r)
    ensures EffectOk(cfg, r, RetryEffect(cfg, r, env), false)
  {
    assert r.base.state == Draft ==> RetryPublish !in Explain(r, env.now);
    assert LaterBase(r.base, r.base, false) && Sound(r.base);
    assert r.base.koinosStatus == SideUnknown ==> r.base.postId.None?;
    if r.base.state != Draft {
      hide Later, LaterBase, Sound, ResendEffect, ProofEffect, Transition, Settled, Explain, LookupEvent,
          AdoptPendingTx;
      if r.base.koinosStatus == SideUnknown && LookupEvent(env.chain, env.indexer).Some? {
        NothingToContradict(r.base, env.chain, env.indexer);
        LookupOk(r.base, r, r.base, env.chain, env.indexer, env.now);
        var current := Looked(r, r.base, env).value;
        hide RecordOk;
        if current.koinosStatus == Done || current.state == ReconcileRequired {
          SettledHere(cfg, r, current, env);
        } else {
          ResendOk(cfg, r, current, env);
        }
      } else if r.base.koinosStatus != SideUnknown {
        hide RecordOk;
        ResendOk(cfg, r, r.base, env);
      }
    }
  }

  lemma SettledHere(cfg: Config, r: Stored, current: Record, env: Env)
    requires RecordOk(cfg, r) && r.base.state != Draft && Sound(current) && LaterBase(r.base, current, false)
    ensures EffectOk(cfg, r, Then(Settled(r, current), ProofEffect(cfg, Settled(r, current), env)), false)
  {
    hide LaterBase, Sound, EffectOk, Settled, ProofEffect;
    SettleAndProve(cfg, r, r, current, false, env);
  }

  /** The lookup finds another post than the recorded one, or none. */
  ghost predicate LookupClash(r: Stored, chain: ChainAnswer, indexer: IndexerAnswer) {
    var found := LookupEvent(chain, indexer);
    && r.base.postId.Some? && found.Some?
    && (found.value.LookupFound? ==> Lower(found.value.postId) != r.base.postId.value)
  }

  /** The host report names another link than the recorded one. */
  ghost predicate HostClash(r: Stored, posted: bool, detail: string) {
    posted && r.base.hostRef.Some? && r.base.hostRef.value != detail
  }

  /** A confirmed record reads the same, or as unknown when its submission went stale. */
  lemma ReopenedOk(cfg: Config, r: Stored, account: string, now: int)
    requires RecordOk(cfg, r) && r.base.state != Draft
    ensures var reopened := Reopened(cfg, r, account, now);
            && Sound(reopened) && LaterBase(r.base, reopened.(idempotencyKey := r.base.idempotencyKey), false)
            && reopened.postId == r.base.postId
            && (r.base.idempotencyKey != "" ==> reopened.idempotencyKey == r.base.idempotencyKey)
            && (r.author.Some? && r.author.value == account ==> reopened.idempotencyKey == r.base.idempotencyKey)
  {
    EventOk(r.base, KoinosUnknown(Some("interrupted")), now);
    hide Lower, DeriveState;
  }

  /** What a lookup says about a record is a contradiction exactly when it clashes with the recorded post. */
  lemma ClashIsContradiction(r: Stored, current: Record, chain: ChainAnswer, indexer: IndexerAnswer)
    requires current.postId == r.base.postId && LookupEvent(chain, indexer).Some?
    ensures Contradicts(current, LookupEvent(chain, indexer).value) <==> LookupClash(r, chain, indexer)
  {
    hide Lower;
  }

  lemma ReconcileOk(cfg: Config, r: Stored, env: Env)
    requires RecordOk(cfg, r)
    ensures EffectOk(cfg, r, ReconcileEffect(cfg, r, env), LookupClash(r, env.chain, env.indexer))
  {
    if r.base.state != Draft {
      var account := r.author.value;
      var reopened := Reopened(cfg, r, account, env.now);
      ReopenedOk(cfg, r, account, env.now);
      hide Later, LaterBase, Sound, ProofEffect, Transition, Settled, Reopened, LookupEvent, AdoptPendingTx,
          LookupClash, Contradicts, EffectOk;
      if LookupEvent(env.chain, env.indexer).Some? {
        ClashIsContradiction(r, reopened, env.chain, env.indexer);
        LookupOk(r.base, r, reopened, env.chain, env.indexer, env.now);
        SettleAndProve(cfg, r, r.(author := Some(account)), Looked(r, reopened, env).value,
                       LookupClash(r, env.chain, env.indexer), env);
      }
      assert reopened.state != Draft ==> EffectOk(cfg, r, ReconcileEffect(cfg, r, env),
                                                  LookupClash(r, env.chain, env.indexer));
    }
  }

  lemma MarkHostOk(cfg: Config, r: Stored, posted: bool, detail: string, env: Env)
    requires RecordOk(cfg, r)
    ensures EffectOk(cfg, r, MarkHostEffect(cfg, r, posted, detail, env), HostClash(r, posted, detail))
  {
    var event := if posted then HostSucceeded(detail) else HostFailed(detail);
    var next := r.(base := Transition(r.base, event, env.now));
    if r.base.hostStatus != NotRequired && r.base.state != Draft {
      ReportedOk(cfg, r, posted, detail, env.now);
      hide RecordOk, Later, ProofEffect, Transition;
      ProofEffectOk(cfg, next, env);
      ThenOk(cfg, r, next, ProofEffect(cfg, next, env), HostClash(r, posted, detail));
    }
  }

  lemma ReportedOk(cfg: Config, r: Stored, posted: bool, detail: string, now: int)
    requires RecordOk(cfg, r) && r.base.hostStatus != NotRequired && r.base.state != Draft
    ensures var event := if posted then HostSucceeded(detail) else HostFailed(detail);
            var next := r.(base := Transition(r.base, event, now));
            RecordOk(cfg, next) && Later(r, next, HostClash(r, posted, detail))
  {
    EventOk(r.base, if posted then HostSucceeded(detail) else HostFailed(detail), now);
    hide Lower, DeriveState;
  }

  lemma DraftOk(cfg: Config, attemptId: string, adapter: Adapter, audience: nat, text: string, env: Env)
    requires text != ""
    ensures RecordOk(cfg, FreshDraft(cfg, attemptId, adapter, audience, text, env))
  {
  }

  // -------------------------------------------------------------------------
  // The stored list
  // -------------------------------------------------------------------------

  ghost predicate UniqueIds(records: seq<Stored>) {
    forall i, j | 0 <= i < j < |records| :: records[i].base.attemptId != records[j].base.attemptId
  }

  lemma {:induction false} WithoutMembers(records: seq<Stored>, drop: set<string>)
    requires UniqueIds(records)
    ensures UniqueIds(WithoutIds(records, drop))
    ensures forall x :: x in WithoutIds(records, drop) <==> x in records && x.base.attemptId !in drop
  {
    if records != [] {
      var init, last := records[..|records| - 1], records[|records| - 1];
      WithoutMembers(init, drop);
      assert records == init + [last];
      assert forall x | x in init :: x.base.attemptId != last.base.attemptId;
    }
  }

  lemma SavedMembers(records: seq<Stored>)
    requires UniqueIds(records)
    ensures UniqueIds(Saved(records)) && forall x | x in Saved(records) :: x in records
  {
    WithoutMembers(records, Ids(Excess(records)));
    hide WithoutIds, Excess, UniqueIds;
  }

  lemma {:induction false} FindNone(records: seq<Stored>, id: string)
    ensures Find(records, id) == |records| ==> forall x | x in records :: x.base.attemptId != id
  {
  }

  /** An update leaves the new record and the records of other attempts. */
  lemma UpdatedMembers(records: seq<Stored>, r: Stored)
    requires UniqueIds(records)
    ensures UniqueIds(Updated(records, r))
    ensures forall x | x in Updated(records, r) :: x == r || (x in records && x.base.attemptId != r.base.attemptId)
  {
    var i := Find(records, r.base.attemptId);
    FindNone(records, r.base.attemptId);
    var next := if i < |records| then records[i := r] else [r] + records;
    hide Find, Saved;
    assert UniqueIds(next);
    assert forall x | x in next :: x == r || (x in records && x.base.attemptId != r.base.attemptId);
    SavedMembers(next);
  }

  /** After its updates the file holds the last of them and the records of the other attempts. */
  lemma {:induction false} UpdatedAllMembers(records: seq<Stored>, stores: seq<Stored>, id: string)
    requires UniqueIds(records) && forall x | x in stores :: x.base.attemptId == id
    ensures UniqueIds(UpdatedAll(records, stores))
    ensures forall x | x in UpdatedAll(records, stores) ::
              if stores != [] && x.base.attemptId == id then x == stores[|stores| - 1] else x in records
  {
    hide Updated, UniqueIds;
    if stores != [] {
      var init, last := stores[..|stores| - 1], stores[|stores| - 1];
      assert last in stores && forall x | x in init :: x in stores;
      UpdatedAllMembers(records, init, id);
      UpdatedMembers(UpdatedAll(records, init), last);
    }
  }

  // -------------------------------------------------------------------------
  // Runs
  // -------------------------------------------------------------------------

  datatype Turn = Turn(call: Call, env: Env)

  /** Calls come with ids in lower case and drafts with a text, as the message schemas enforce. */
  predicate WellFormed(call: Call) {
    Lower(call.attemptId) == call.attemptId && (call.AddDraft? ==> call.text != "")
  }

  ghost predicate WellFormedTurns(turns: seq<Turn>) {
    forall i | 0 <= i < |turns| :: WellFormed(turns[i].call)
  }

  /** What turn n does to the file. */
  ghost function ResultAt(cfg: Config, turns: seq<Turn>, n: nat): Result
    requires n < |turns|
    decreases n, 1
  {
    CallStep(cfg, RecordsAt(cfg, turns, n), turns[n].call, turns[n].env)
  }

  ghost function RecordsAt(cfg: Config, turns: seq<Turn>, n: nat): seq<Stored>
    requires n <= |turns|
    decreases n, 0
  {
    if n == 0 then [] else ResultAt(cfg, turns, n - 1).records
  }

  /** The record of the attempt of turn n before the turn. */
  ghost function FoundAt(cfg: Config, turns: seq<Turn>, n: nat): Option<Stored>
    requires n < |turns|
  {
    RecordOf(RecordsAt(cfg, turns, n), turns[n].call.attemptId)
  }

  /** The call sends the record to manual review: a host report or a lookup that clashes with what is recorded. */
  ghost predicate ForcesReview(r: Stored, call: Call, env: Env) {
    match call
    case MarkHost(_, posted, detail) => HostClash(r, posted, detail)
    case ReconcileAttempt(_) => LookupClash(r, env.chain, env.indexer)
    case _ => false
  }

  lemma CallOk(cfg: Config, found: Option<Stored>, call: Call, env: Env)
    requires call.AddDraft? ==> WellFormed(call)
    requires found.Some? ==> found.value.base.attemptId == call.attemptId && RecordOk(cfg, found.value)
    ensures forall x | x in EffectOf(cfg, found, call, env).stores ::
              RecordOk(cfg, x) && x.base.attemptId == call.attemptId
              && (found.Some? ==> Later(found.value, x, ForcesReview(found.value, call, env)))
              && (found.None? ==> x.base.state == Draft)
  {
    if call.AddDraft? {
      DraftOk(cfg, call.attemptId, call.adapter, call.audience, call.text, env);
      hide RecordOk, Later;
    } else if found.Some? {
      hide RecordOk, ConfirmEffect, RetryEffect, ReconcileEffect, MarkHostEffect, ProofEffect, NeedsProof, HostClash,
          LookupClash;
      var r := found.value;
      match call {
        case ConfirmDraft(_, choice) => ConfirmOk(cfg, r, choice, env);
        case RetryAttempt(_) => RetryOk(cfg, r, env);
        case ReconcileAttempt(_) => ReconcileOk(cfg, r, env);
        case MarkHost(_, posted, detail) => MarkHostOk(cfg, r, posted, detail, env);
        case RecordProofOf(_) => ProofEffectOk(cfg, r, env);
        case _ =>
      }
    }
  }

  lemma FoundIs(records: seq<Stored>, x: Stored)
    requires UniqueIds(records) && x in records
    ensures RecordOf(records, x.base.attemptId) == Some(x)
  {
    FindNone(records, x.base.attemptId);
  }

  /** The file after a call, seen as a set: other attempts stay, this one's record is the last one stored. */
  lemma CallMembers(cfg: Config, records: seq<Stored>, call: Call, env: Env)
    requires UniqueIds(records)
    requires forall x | x in EffectOf(cfg, RecordOf(records, call.attemptId), call, env).stores ::
               x.base.attemptId == call.attemptId
    ensures var after, stores := CallStep(cfg, records, call, env).records,
                EffectOf(cfg, RecordOf(records, call.attemptId), call, env).stores;
            && UniqueIds(after)
            && forall x | x in after ::
                 if stores != [] && x.base.attemptId == call.attemptId then x == stores[|stores| - 1] else x in records
  {
    var found := RecordOf(records, call.attemptId);
    var stores := EffectOf(cfg, found, call, env).stores;
    if call.DiscardAttempt? {
      assert stores == [];
      WithoutMembers(records, {call.attemptId});
      hide EffectOf, Saved, WithoutIds, UniqueIds;
      SavedMembers(WithoutIds(records, {call.attemptId}));
    } else {
      hide EffectOf, Updated, UniqueIds;
      UpdatedAllMembers(records, stores, call.attemptId);
    }
  }

  /** One turn on a file of records that are fit for use. */
  lemma TurnOk(cfg: Config, records: seq<Stored>, turn: Turn)
    requires UniqueIds(records) && WellFormed(turn.call) && forall r | r in records :: RecordOk(cfg, r)
    ensures var found := RecordOf(records, turn.call.attemptId);
            var result, stores := CallStep(cfg, records, turn.call, turn.env),
                EffectOf(cfg, found, turn.call, turn.env).stores;
            && UniqueIds(result.records) && (forall x | x in result.records :: RecordOk(cfg, x))
            && forall x | x in result.records ::
                 if stores != [] && x.base.attemptId == turn.call.attemptId then
                   && x == stores[|stores| - 1]
                   && (found.Some? ==> Later(found.value, x, ForcesReview(found.value, turn.call, turn.env)))
                   && (found.None? ==> x.base.state == Draft)
                 else x in records
  {
    hide RecordOk, Later, EffectOf, CallStep, ForcesReview, WellFormed, UniqueIds;
    var found := RecordOf(records, turn.call.attemptId);
    CallOk(cfg, found, turn.call, turn.env);
    CallMembers(cfg, records, turn.call, turn.env);
  }

  lemma NoRecords()
    ensures UniqueIds([])
  {
  }

  /** In every run attempt ids are unique and every stored record is fit for use. */
  lemma {:induction false} RecordsAlwaysOk(cfg: Config, turns: seq<Turn>, n: nat)
    requires WellFormedTurns(turns) && n <= |turns|
    ensures UniqueIds(RecordsAt(cfg, turns, n))
    ensures forall r | r in RecordsAt(cfg, turns, n) :: RecordOk(cfg, r)
  {
    hide RecordOk, UniqueIds, CallStep, EffectOf, Later, ForcesReview, WellFormed;
    if n == 0 {
      NoRecords();
    } else {
      RecordsAlwaysOk(cfg, turns, n - 1);
      TurnOk(cfg, RecordsAt(cfg, turns, n - 1), turns[n - 1]);
    }
  }

  /**
   * Manual review has exactly two causes: a turn that changes a record leaves it there if and only if it already
   * was, the user reported another host link than the recorded one, or a lookup that was asked for a record with a
   * post id found none or another.
   */
  lemma ManualReviewExactly(cfg: Config, turns: seq<Turn>, n: nat, x: Stored)
    requires WellFormedTurns(turns) && n < |turns|
    requires x in RecordsAt(cfg, turns, n + 1) && x !in RecordsAt(cfg, turns, n)
    ensures var found := FoundAt(cfg, turns, n);
            x.base.state == ReconcileRequired <==>
            found.Some?
            && (found.value.base.state == ReconcileRequired
                || ForcesReview(found.value, turns[n].call, turns[n].env))
  {
    RecordsAlwaysOk(cfg, turns, n);
    hide RecordOk, UniqueIds, CallStep, ForcesReview, EffectOf, RecordOf, WellFormed;
    TurnOk(cfg, RecordsAt(cfg, turns, n), turns[n]);
  }

  /** A recorded post id, host link and, once confirmed, key stay until the attempt is discarded. */
  lemma FactsStay(cfg: Config, turns: seq<Turn>, n: nat, x: Stored)
    requires WellFormedTurns(turns) && n < |turns| && x in RecordsAt(cfg, turns, n + 1)
    ensures var found := RecordOf(RecordsAt(cfg, turns, n), x.base.attemptId);
            found.Some? ==>
              && (found.value.base.postId.Some? ==> x.base.postId == found.value.base.postId)
              && (found.value.base.hostRef.Some? ==> x.base.hostRef == found.value.base.hostRef)
              && (found.value.base.state != Draft ==>
                    x.base.state != Draft && x.base.idempotencyKey == found.value.base.idempotencyKey)
  {
    RecordsAlwaysOk(cfg, turns, n);
    var records := RecordsAt(cfg, turns, n);
    hide RecordOk, UniqueIds, CallStep, ForcesReview, EffectOf, RecordOf, WellFormed;
    TurnOk(cfg, records, turns[n]);
    if x in records {
      FoundIs(records, x);
    }
  }
}
