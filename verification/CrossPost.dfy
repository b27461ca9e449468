/**
 * The cross-post orchestrator (`apps/extension/src/background/crosspost.ts`) and the classification of
 * submission failures (`publish.ts`). Every mutation is serialised and stored before the next one runs;
 * the worker may stop at any await, and then what was stored last remains.
 */
module CrossPost {
  import opened Wrappers
  import opened Reconcile
  import opened Queue

  const MAX_RECORDS := 200

  // -------------------------------------------------------------------------
  // Failures of a submission
  // -------------------------------------------------------------------------

  datatype ErrorClass = OutcomeUnknownError | RevertedError | SponsorRefused | OtherError

  /** What identifies a transaction that was built and sent; the transaction id when it was known. */
  datatype Attempt = Attempt(postId: string, contentHash: string, transactionId: Option<string>)

  /**
   * A failure; the flags are the two tests on its message, `attempt` is there when it was raised by the submission
   * itself, and `alone` says that no sponsor had been given the operations before the node answered.
   */
  datatype SubmitError = SubmitError(
    cls: ErrorClass, message: string, saysDuplicate: bool, saysTransport: bool, attempt: Option<Attempt>, alone: bool)

  datatype Kind = IsUnknown | IsDuplicate | IsFailed

  function ClassifySubmitError(e: SubmitError): Kind {
    if e.cls == OutcomeUnknownError then IsUnknown
    else if e.cls == RevertedError then (if e.saysDuplicate then IsDuplicate else IsFailed)
    else if e.saysDuplicate then IsDuplicate
    else if e.cls == SponsorRefused then IsFailed
    else if e.attempt.Some? && e.saysTransport then IsUnknown
    else IsFailed
  }

  /** What the transaction of a publication carries. */
  datatype Build = Build(postId: string, contentHash: string)

  /**
   * What `publishKoinos` answers; `Outcome` means that a node took the transaction, not that a block holds it.
   * `WorkerStops` when the worker is gone before the answer is handled, with what it had handed over by then.
   */
  datatype PublishReply =
    | Outcome(txId: string, postId: string, contentHash: string)
    | Failure(error: SubmitError)
    | WorkerStops(handed: Option<Build>)

  /** The transaction handed to a node, if it got so far. */
  function HandedOver(reply: PublishReply): Option<Build> {
    match reply
    case Outcome(_, postId, contentHash) => Some(Build(postId, contentHash))
    case Failure(e) =>
      (match e.attempt
       case Some(a) => Some(Build(a.postId, a.contentHash))
       case None => None)
    case WorkerStops(handed) => handed
  }

  /**
   * Something handed over may still land. Only a revert excludes it, and only of the one copy the node was sent: a
   * sponsor that does not answer in time counts as one that refused, though it may have passed its copy on.
   */
  predicate MayLand(reply: PublishReply) {
    HandedOver(reply).Some?
    && !(reply.Failure? && reply.error.cls == RevertedError && reply.error.alone)
  }

  datatype ProofReply =
    | ProofRecorded(txId: string, koinosTxId: Option<string>)
    | ProofFailed(message: string)
    | ProofStops

  /** Everything a call depends on besides the stored records. */
  datatype Env = Env(
    now: int, account: Option<string>,
    chain: ChainAnswer, indexer: IndexerAnswer,
    publish: PublishReply,
    chainAfter: ChainAnswer, indexerAfter: IndexerAnswer,
    proof: ProofReply)

  /** The key derivation, the host link check and whether proofs can be recorded. */
  datatype Config = Config(
    keyOf: (string, string) -> string,
    validHostLink: (Option<string>, string) -> bool,
    recordsProofs: bool)

  datatype Problem =
    | UnknownAttempt | WrongState | Locked | OtherAccount | NoText | NoHostSide | BadHostLink | NothingToRecord
    | ProofsUnavailable | StillInFlight

  /** The record returned, the error thrown to the caller, or an await that never came back. */
  datatype Reply = Returned(record: Stored) | Rejected(problem: Problem) | Interrupted | Gone

  /**
   * What leaves and reaches the orchestrator for an attempt: a new draft, a publication under a key with what was
   * handed to a node, its acceptance or refusal (final when nothing of it can land), and a completed lookup with what
   * the attempt asked the indexer for.
   */
  datatype Signal =
    | Created
    | Sent(key: string, build: Option<Build>)
    | Accepted
    | Refused(final: bool)
    | LookedUp(key: string, wantedId: Option<string>, wantedHash: Option<string>, chain: ChainAnswer,
               indexer: IndexerAnswer)

  /** What a call stores, in order, its signals, in order, and how it ends. */
  datatype Effect = Effect(stores: seq<Stored>, signals: seq<Signal>, reply: Reply)

  // -------------------------------------------------------------------------
  // The stored list
  // -------------------------------------------------------------------------

  /** Position of the attempt; the length when there is none. */
  function Find(records: seq<Stored>, attemptId: string): (i: nat)
    ensures i <= |records|
    ensures i < |records| ==> records[i].base.attemptId == attemptId
    ensures forall k | 0 <= k < i :: records[k].base.attemptId != attemptId
  {
    if records == [] then 0
    else if records[0].base.attemptId == attemptId then 0
    else 1 + Find(records[1..], attemptId)
  }

  function FinishedOf(records: seq<Stored>): seq<Stored> {
    if records == [] then []
    else
      FinishedOf(records[..|records| - 1])
      + (if records[|records| - 1].base.state == Succeeded then [records[|records| - 1]] else [])
  }

  /** Behind every record that is not newer. */
  function InsertByTime(sorted: seq<Stored>, r: Stored): seq<Stored> {
    if sorted == [] || sorted[|sorted| - 1].base.updatedAt <= r.base.updatedAt then sorted + [r]
    else InsertByTime(sorted[..|sorted| - 1], r) + [sorted[|sorted| - 1]]
  }

  /** Stable, oldest first. */
  function ByTime(records: seq<Stored>): seq<Stored> {
    if records == [] then [] else InsertByTime(ByTime(records[..|records| - 1]), records[|records| - 1])
  }

  function Ids(records: seq<Stored>): set<string> {
    set r | r in records :: r.base.attemptId
  }

  function WithoutIds(records: seq<Stored>, drop: set<string>): seq<Stored> {
    if records == [] then []
    else
      WithoutIds(records[..|records| - 1], drop)
      + (if records[|records| - 1].base.attemptId in drop then [] else [records[|records| - 1]])
  }

  function Take(records: seq<Stored>, n: nat): seq<Stored> {
    if n <= |records| then records[..n] else records
  }

  /** The records a save drops: the oldest succeeded ones beyond the limit. */
  function Excess(records: seq<Stored>): seq<Stored> {
    if |records| > MAX_RECORDS then Take(ByTime(FinishedOf(records)), |records| - MAX_RECORDS) else []
  }

  function Saved(records: seq<Stored>): seq<Stored> {
    if |records| > MAX_RECORDS then WithoutIds(records, Ids(Excess(records))) else records
  }

  /** Replaces the record of the attempt or puts it first, and saves. */
  function Updated(records: seq<Stored>, r: Stored): seq<Stored> {
    var i := Find(records, r.base.attemptId);
    Saved(if i < |records| then records[i := r] else [r] + records)
  }

  // -------------------------------------------------------------------------
  // Steps of one record
  // -------------------------------------------------------------------------

  /** The lookup confirmed the post the attempt expected: its transaction id is the post's. */
  function AdoptPendingTx(r: Stored, current: Record): Record {
    if current.koinosStatus == Done && current.koinosTxId.None? && r.pendingTxId.Some? && r.expectedPostId.Some?
       && current.postId == r.expectedPostId
    then current.(koinosTxId := r.pendingTxId) else current
  }

  /** Once the Koinos side is ok, text and pending transaction are forgotten. */
  function Settled(r: Stored, current: Record): Stored {
    if current.koinosStatus == Done then r.(base := current, text := None, pendingTxId := None) else r.(base := current)
  }

  /** The record with what identifies a sent attempt. */
  function WithAttempt(r: Stored, e: SubmitError): Stored {
    if e.attempt.None? then r
    else
      var a := e.attempt.value;
      r.(contentHash := Some(a.contentHash), expectedPostId := Some(a.postId),
         pendingTxId := if ClassifySubmitError(e) == IsUnknown && a.transactionId.Some? then a.transactionId
             else r.pendingTxId)
  }

  /** The pending transaction id this publication leaves behind. */
  function NewPendingTx(reply: PublishReply): Option<string> {
    if reply.Failure? && reply.error.attempt.Some? && ClassifySubmitError(reply.error) == IsUnknown
    then reply.error.attempt.value.transactionId else None
  }

  /** The base record after a publication was answered; None when the lookup after a duplicate throws. */
  function Answered(r: Stored, env: Env): Option<Record>
    requires !env.publish.WorkerStops?
  {
    match env.publish
    case Outcome(txId, postId, _) => Some(Transition(r.base, KoinosSucceeded(txId, postId), env.now))
    case Failure(e) =>
      (match ClassifySubmitError(e)
       case IsUnknown => Some(Transition(r.base, KoinosUnknown(Some(e.message)), env.now))
       case IsFailed => Some(Transition(r.base, KoinosFailed(e.message), env.now))
       case IsDuplicate =>
         var failed, found := Transition(r.base, KoinosFailed(e.message), env.now),
             LookupEvent(env.chainAfter, env.indexerAfter);
         if found.None? then None
         else Some(AdoptPendingTx(WithAttempt(r, e), Transition(failed, found.value, env.now))))
  }

  /** The record a publication leaves; None when nothing more is stored. */
  function AfterPublication(r: Stored, env: Env): Option<Stored> {
    if env.publish.WorkerStops? then None
    else
      var current := Answered(r, env);
      if current.None? then None
      else
        var known := match env.publish
          case Outcome(_, postId, contentHash) => r.(contentHash := Some(contentHash), expectedPostId := Some(postId))
          case Failure(e) => WithAttempt(r, e);
        Some(Settled(known.(pendingTxId := NewPendingTx(env.publish)), current.value))
  }

  function WithProof(r: Stored, env: Env): Stored
    requires !env.proof.ProofStops?
  {
    match env.proof
    case ProofRecorded(txId, koinosTxId) =>
      r.(base := if r.base.koinosTxId.None? then r.base.(koinosTxId := koinosTxId) else r.base,
         proof := Some(Proof(txId, env.now)), proofError := None)
    case ProofFailed(message) => r.(proofError := Some(message))
  }

  /** A lookup of the record; None when it throws. */
  function Looked(r: Stored, current: Record, env: Env): Option<Record> {
    var found := LookupEvent(env.chain, env.indexer);
    if found.None? then None else Some(AdoptPendingTx(r, Transition(current, found.value, env.now)))
  }

  /** The record as `reconcile` reads it: a key, and unknown when the submission went stale. */
  function Reopened(cfg: Config, r: Stored, account: string, now: int): Record {
    var current := if r.base.idempotencyKey == ""
                  then r.base.(idempotencyKey := cfg.keyOf(account, r.base.attemptId)) else r.base;
    if IsStale(r, now) then Transition(current, KoinosUnknown(Some("interrupted")), now) else current
  }

  function HostLinkOk(cfg: Config, r: Stored, link: string): bool {
    0 < |link| <= 2048 && cfg.validHostLink(r.base.hostSite, link)
  }

  /** The signal of a lookup for `known`; none when it throws. */
  function LookupSignals(key: string, known: Stored, chain: ChainAnswer, indexer: IndexerAnswer): seq<Signal> {
    if LookupEvent(chain, indexer).None? then []
    else [LookedUp(key, known.expectedPostId, known.contentHash, chain, indexer)]
  }

  /** The signals of a publication. */
  function PublishSignals(r: Stored, env: Env): seq<Signal> {
    var key := r.base.idempotencyKey;
    [Sent(key, HandedOver(env.publish))]
    + match env.publish
      case WorkerStops(_) => []
      case Outcome(_, _, _) => [Accepted]
      case Failure(e) =>
        (match ClassifySubmitError(e)
         case IsUnknown => []
         case IsFailed => [Refused(!MayLand(env.publish))]
         case IsDuplicate =>
           [Refused(!MayLand(env.publish))] + LookupSignals(key, WithAttempt(r, e), env.chainAfter, env.indexerAfter))
  }

  // -------------------------------------------------------------------------
  // Calls, on the record of their attempt
  // -------------------------------------------------------------------------

  function Then(first: Stored, rest: Effect): Effect {
    Effect([first] + rest.stores, rest.signals, rest.reply)
  }

  /** The effect after these signals. */
  function Behind(signals: seq<Signal>, rest: Effect): Effect {
    Effect(rest.stores, signals + rest.signals, rest.reply)
  }

  function Reject(problem: Problem): Effect {
    Effect([], [], Rejected(problem))
  }

  function ProofEffect(cfg: Config, r: Stored, env: Env): (e: Effect)
    ensures e.signals == []
  {
    if !NeedsProof(r) || !cfg.recordsProofs then Effect([], [], Returned(r))
    else if env.proof.ProofStops? then Effect([], [], Interrupted)
    else Effect([WithProof(r, env)], [], Returned(WithProof(r, env)))
  }

  function PublishEffect(cfg: Config, r: Stored, env: Env): Effect {
    var next := AfterPublication(r, env);
    Behind(PublishSignals(r, env),
           if next.None? then Effect([], [], Interrupted) else Then(next.value, ProofEffect(cfg, next.value, env)))
  }

  function FreshDraft(cfg: Config, attemptId: string, adapter: Adapter, audience: nat, text: string, env: Env): Stored {
    var key := if env.account.Some? then cfg.keyOf(env.account.value, attemptId) else "";
    var base := NewRecord(key, attemptId, if adapter == Facebook then "facebook" else "", audience, env.now);
    Stored(base, adapter, env.account, Some(text), None, None, None, None, None, env.now)
  }

  /** The confirmed draft as it is stored before anything is sent. */
  function Prepared(cfg: Config, r: Stored, account: string, audience: Option<nat>, now: int): Stored {
    var base := r.base.(audience := if audience.Some? then audience.value else r.base.audience,
                        idempotencyKey := cfg.keyOf(account, r.base.attemptId));
    r.(author := Some(account), base := Transition(base, Retry, now))
  }

  function ConfirmEffect(cfg: Config, r: Stored, audience: Option<nat>, env: Env): Effect {
    if r.base.state != Draft then Reject(WrongState)
    else if env.account.None? then Reject(Locked)
    else if r.author.Some? && r.author != env.account then Reject(OtherAccount)
    else
      var prepared := Prepared(cfg, r, env.account.value, audience, env.now);
      Then(prepared, PublishEffect(cfg, prepared, env))
  }

  /** What a retry does once the outcome is known. */
  function ResendEffect(cfg: Config, r: Stored, current: Record, env: Env): Effect {
    var prepared := r.(base := Transition(current, Retry, env.now));
    Then(prepared,
         if !RetryPlan(current).koinos then Effect([], [], Returned(prepared))
         else if prepared.text.None? || prepared.text.value == "" then Reject(NoText)
         else PublishEffect(cfg, prepared, env))
  }

  function RetryEffect(cfg: Config, r: Stored, env: Env): Effect {
    if RetryPublish !in Explain(r, env.now) && r.base.state != OutcomeUnknown then Reject(WrongState)
    else if env.account.None? then Reject(Locked)
    else if r.author.Some? && r.author != env.account then Reject(OtherAccount)
    else if r.base.koinosStatus == SideUnknown then
      var current := Looked(r, r.base, env);
      Behind(LookupSignals(r.base.idempotencyKey, r, env.chain, env.indexer),
             if current.None? then Effect([], [], Interrupted)
             else if current.value.koinosStatus == Done || current.value.state == ReconcileRequired then
               Then(Settled(r, current.value), ProofEffect(cfg, Settled(r, current.value), env))
             else ResendEffect(cfg, r, current.value, env))
    else ResendEffect(cfg, r, r.base, env)
  }

  function ReconcileEffect(cfg: Config, r: Stored, env: Env): Effect {
    var account := if r.author.Some? then r.author else env.account;
    if account.None? then Reject(Locked)
    else
      var reopened := Reopened(cfg, r, account.value, env.now);
      if reopened.state == Draft then Effect([], [], Returned(r))
      else
        var current := Looked(r, reopened, env);
        Behind(LookupSignals(reopened.idempotencyKey, r, env.chain, env.indexer),
               if current.None? then Effect([], [], Interrupted)
               else
                 var next := Settled(r.(author := account), current.value);
                 Then(next, ProofEffect(cfg, next, env)))
  }

  /** A report about the host side: posted under a link, or failed. */
  function MarkHostEffect(cfg: Config, r: Stored, posted: bool, detail: string, env: Env): Effect {
    if r.base.hostStatus == NotRequired then Reject(NoHostSide)
    else if r.base.state == Draft then Reject(WrongState)
    else if posted && !HostLinkOk(cfg, r, detail) then Reject(BadHostLink)
    else
      var next := r.(base := Transition(r.base, if posted then HostSucceeded(detail) else HostFailed(detail), env.now));
      Then(next, ProofEffect(cfg, next, env))
  }

  function RecordProofEffect(cfg: Config, r: Stored, env: Env): Effect {
    if !NeedsProof(r) then Reject(NothingToRecord)
    else if !cfg.recordsProofs then Reject(ProofsUnavailable)
    else ProofEffect(cfg, r, env)
  }

  // -------------------------------------------------------------------------
  // Calls, on the stored list
  // -------------------------------------------------------------------------

  datatype Call =
    | AddDraft(attemptId: string, adapter: Adapter, audience: nat, text: string)
    | ConfirmDraft(attemptId: string, choice: Option<nat>)
    | RetryAttempt(attemptId: string)
    | ReconcileAttempt(attemptId: string)
    | MarkHost(attemptId: string, posted: bool, detail: string)
    | RecordProofOf(attemptId: string)
    | DiscardAttempt(attemptId: string)

  datatype Result = Result(records: seq<Stored>, signals: seq<Signal>, reply: Reply)

  function UpdatedAll(records: seq<Stored>, stores: seq<Stored>): seq<Stored> {
    if stores == [] then records else Updated(UpdatedAll(records, stores[..|stores| - 1]), stores[|stores| - 1])
  }

  /** What the call stores and signals; a discard does neither. */
  function EffectOf(cfg: Config, found: Option<Stored>, call: Call, env: Env): Effect {
    if call.AddDraft? then
      if found.Some? then Effect([], [], Returned(found.value))
      else
        var r := FreshDraft(cfg, call.attemptId, call.adapter, call.audience, call.text, env);
        Effect([r], [Created], Returned(r))
    else if call.DiscardAttempt? then
      if found.None? then Effect([], [], Gone)
      else if IsFresh(found.value, env.now) then Reject(StillInFlight)
      else Effect([], [], Gone)
    else if found.None? then Reject(UnknownAttempt)
    else
      match call
      case ConfirmDraft(_, choice) => ConfirmEffect(cfg, found.value, choice, env)
      case RetryAttempt(_) => RetryEffect(cfg, found.value, env)
      case ReconcileAttempt(_) => ReconcileEffect(cfg, found.value, env)
      case MarkHost(_, posted, detail) => MarkHostEffect(cfg, found.value, posted, detail, env)
      case RecordProofOf(_) => RecordProofEffect(cfg, found.value, env)
  }

  function RecordOf(records: seq<Stored>, attemptId: string): Option<Stored> {
    var i := Find(records, attemptId);
    if i < |records| then Some(records[i]) else None
  }

  function CallStep(cfg: Config, records: seq<Stored>, call: Call, env: Env): Result {
    var found := RecordOf(records, call.attemptId);
    var effect := EffectOf(cfg, found, call, env);
    Result(if call.DiscardAttempt? && found.Some? && effect.reply == Gone
        then Saved(WithoutIds(records, {call.attemptId}))
           else UpdatedAll(records, effect.stores),
           effect.signals, effect.reply)
  }

  lemma UpdatedThen(records: seq<Stored>, first: Stored, rest: seq<Stored>)
    ensures UpdatedAll(Updated(records, first), rest) == UpdatedAll(records, [first] + rest)
  {
    hide Updated;
    if rest == [] {
      assert [first] + rest == [first];
      assert [first][..0] == [];
    } else {
      UpdatedThen(records, first, rest[..|rest| - 1]);
      assert ([first] + rest)[..|rest|] == [first] + rest[..|rest| - 1];
    }
  }

  // -------------------------------------------------------------------------
  // The orchestrator
  // -------------------------------------------------------------------------

  lemma WithoutIdsSnoc(records: seq<Stored>, i: nat, drop: set<string>)
    requires i < |records|
    ensures WithoutIds(records[..i + 1], drop) ==
            WithoutIds(records[..i], drop) + (if records[i].base.attemptId in drop then [] else [records[i]])
  {
    assert records[..i + 1][..i] == records[..i];
  }

  lemma FinishedSnoc(records: seq<Stored>, i: nat)
    requires i < |records|
    ensures FinishedOf(records[..i + 1]) ==
            FinishedOf(records[..i]) + (if records[i].base.state == Succeeded then [records[i]] else [])
  {
    assert records[..i + 1][..i] == records[..i];
  }

  class CrossPostOrchestrator {
    const cfg: Config
    /** The stored file. */
    var records: seq<Stored>
    /** Everything sent, answered and looked up so far. */
    ghost var log: seq<Signal>

    constructor (cfg: Config)
      ensures this.cfg == cfg && records == [] && log == []
    {
      this.cfg := cfg;
      records := [];
      log := [];
    }

    /** Hands the record to `publishKoinos`; saving it was the last thing that happened to the file. */
    method Send(r: Stored, env: Env, ghost before: seq<Stored>) returns (reply: PublishReply)
      requires records == Updated(before, r)
      modifies this`log
      ensures reply == env.publish && log == old(log) + [Sent(r.base.idempotencyKey, HandedOver(reply))]
    {
      reply := env.publish;
      log := log + [Sent(r.base.idempotencyKey, HandedOver(reply))];
    }

    /** Looks the outcome of `current` up, for what `known` asks the indexer. */
    method LookUp(current: Record, known: Stored, chain: ChainAnswer, indexer: IndexerAnswer, now: int)
      returns (looked: Option<Record>)
      modifies this`log
      ensures var found := LookupEvent(chain, indexer);
              looked == if found.Some? then Some(Transition(current, found.value, now)) else None
      ensures log == old(log) + LookupSignals(current.idempotencyKey, known, chain, indexer)
    {
      hide Transition;
      looked := ResolveOutcome(current, chain, indexer, now);
      if looked.Some? {
        log := log + [LookedUp(current.idempotencyKey, known.expectedPostId, known.contentHash, chain, indexer)];
      }
    }

    method FindIndex(attemptId: string) returns (i: nat)
      ensures i == Find(records, attemptId)
    {
      i := 0;
      while i < |records| && records[i].base.attemptId != attemptId
        invariant 0 <= i <= |records|
        invariant forall k | 0 <= k < i :: records[k].base.attemptId != attemptId
      {
        i := i + 1;
      }
    }

    method Filter(drop: set<string>) returns (kept: seq<Stored>)
      ensures kept == WithoutIds(records, drop)
    {
      kept := [];
      for i := 0 to |records|
        invariant kept == WithoutIds(records[..i], drop)
      {
        WithoutIdsSnoc(records, i, drop);
        if records[i].base.attemptId !in drop {
          kept := kept + [records[i]];
        }
      }
      assert records[..|records|] == records;
    }

    method Finished() returns (finished: seq<Stored>)
      ensures finished == FinishedOf(records)
    {
      finished := [];
      for i := 0 to |records|
        invariant finished == FinishedOf(records[..i])
      {
        FinishedSnoc(records, i);
        if records[i].base.state == Succeeded {
          finished := finished + [records[i]];
        }
      }
      assert records[..|records|] == records;
    }

    /** Drops the oldest finished records beyond the limit, and stores. */
    method Save()
      modifies this`records
      ensures records == Saved(old(records))
    {
      if |records| > MAX_RECORDS {
        var finished := Finished();
        var drop := Ids(Take(ByTime(finished), |records| - MAX_RECORDS));
        records := Filter(drop);
      }
    }

    method Update(r: Stored)
      modifies this`records
      ensures records == Updated(old(records), r)
    {
      hide Saved;
      var i := FindIndex(r.base.attemptId);
      if i < |records| {
        records := records[i := r];
      } else {
        records := [r] + records;
      }
      Save();
    }

    method MaybeProof(r: Stored, env: Env) returns (reply: Reply)
      modifies this`records
      ensures var e := ProofEffect(cfg, r, env); records == UpdatedAll(old(records), e.stores) && reply == e.reply
    {
      hide Updated;
      if !NeedsProof(r) || !cfg.recordsProofs {
        return Returned(r);
      }
      if env.proof.ProofStops? {
        return Interrupted;
      }
      var next := WithProof(r, env);
      Update(next);
      UpdatedThen(old(records), next, []);
      return Returned(next);
    }

    /** Stores a record and records the proof it may now need. */
    method UpdateAndProve(r: Stored, env: Env) returns (reply: Reply)
      modifies this`records
      ensures var e := Then(r, ProofEffect(cfg, r, env));
              records == UpdatedAll(old(records), e.stores) && reply == e.reply
    {
      hide Updated, ProofEffect, UpdatedAll;
      Update(r);
      reply := MaybeProof(r, env);
      UpdatedThen(old(records), r, ProofEffect(cfg, r, env).stores);
    }

    /** Sends the record that was just stored, and handles the answer. */
    method Publish(r: Stored, env: Env, ghost before: seq<Stored>) returns (reply: Reply)
      requires records == Updated(before, r)
      modifies this`records, this`log
      ensures var e := PublishEffect(cfg, r, env);
              records == UpdatedAll(old(records), e.stores) && log == old(log) + e.signals && reply == e.reply
    {
      hide Updated, ProofEffect, Transition, LookupSignals;
      var answer := Send(r, env, before);
      if answer.WorkerStops? {
        return Interrupted;
      }
      var current := r.base;
      var known := r;
      match answer {
        case Outcome(txId, postId, contentHash) =>
          log := log + [Accepted];
          current := Transition(current, KoinosSucceeded(txId, postId), env.now);
          known := r.(contentHash := Some(contentHash), expectedPostId := Some(postId));
        case Failure(e) =>
          known := WithAttempt(r, e);
          match ClassifySubmitError(e) {
            case IsUnknown => current := Transition(current, KoinosUnknown(Some(e.message)), env.now);
            case IsFailed =>
              log := log + [Refused(!MayLand(answer))];
              current := Transition(current, KoinosFailed(e.message), env.now);
            case IsDuplicate =>
              log := log + [Refused(!MayLand(answer))];
              KeyIsKept(current, KoinosFailed(e.message), env.now);
              current := Transition(current, KoinosFailed(e.message), env.now);
              var looked := LookUp(current, known, env.chainAfter, env.indexerAfter, env.now);
              if looked.None? {
                return Interrupted;
              }
              current := AdoptPendingTx(known, looked.value);
          }
      }
      reply := UpdateAndProve(Settled(known.(pendingTxId := NewPendingTx(env.publish)), current), env);
    }

    /** A new draft, from a host page or the side panel; nothing when the attempt id is taken. */
    method Draft(attemptId: string, adapter: Adapter, audience: nat, text: string, env: Env) returns (reply: Reply)
      modifies this`records, this`log
      ensures var s := CallStep(cfg, old(records), AddDraft(attemptId, adapter, audience, text), env);
              records == s.records && log == old(log) + s.signals && reply == s.reply
    {
      hide Updated, FreshDraft;
      var i := FindIndex(attemptId);
      if i < |records| {
        return Returned(records[i]);
      }
      var r := FreshDraft(cfg, attemptId, adapter, audience, text, env);
      Update(r);
      log := log + [Created];
      UpdatedThen(old(records), r, []);
      return Returned(r);
    }

    /** Publishes a draft: stored as submitting, then sent. */
    method Confirm(attemptId: string, audience: Option<nat>, env: Env) returns (reply: Reply)
      modifies this`records, this`log
      ensures var s := CallStep(cfg, old(records), ConfirmDraft(attemptId, audience), env);
              records == s.records && log == old(log) + s.signals && reply == s.reply
    {
      hide Updated, PublishEffect, Prepared;
      var i := FindIndex(attemptId);
      if i == |records| {
        return Rejected(UnknownAttempt);
      }
      var r := records[i];
      if r.base.state != State.Draft {
        return Rejected(WrongState);
      }
      if env.account.None? {
        return Rejected(Locked);
      }
      if r.author.Some? && r.author != env.account {
        return Rejected(OtherAccount);
      }
      var prepared := Prepared(cfg, r, env.account.value, audience, env.now);
      Update(prepared);
      reply := Publish(prepared, env, old(records));
      UpdatedThen(old(records), prepared, PublishEffect(cfg, prepared, env).stores);
    }

    /** Sends the Koinos side again, behind a lookup when its outcome is unknown. */
    method Retry(attemptId: string, env: Env) returns (reply: Reply)
      modifies this`records, this`log
      ensures var s := CallStep(cfg, old(records), RetryAttempt(attemptId), env);
              records == s.records && log == old(log) + s.signals && reply == s.reply
    {
      hide Updated, UpdatedAll, ResendEffect, ProofEffect, Transition, Explain, LookupEvent, Settled, AdoptPendingTx;
      NothingStored(records);
      var i := FindIndex(attemptId);
      if i == |records| {
        return Rejected(UnknownAttempt);
      }
      var r := records[i];
      if RetryPublish !in Explain(r, env.now) && r.base.state != OutcomeUnknown {
        return Rejected(WrongState);
      }
      if env.account.None? {
        return Rejected(Locked);
      }
      if r.author.Some? && r.author != env.account {
        return Rejected(OtherAccount);
      }
      var current := r.base;
      if current.koinosStatus == SideUnknown {
        var looked := LookUp(current, r, env.chain, env.indexer, env.now);
        if looked.None? {
          return Interrupted;
        }
        current := AdoptPendingTx(r, looked.value);
        if current.koinosStatus == Done || current.state == ReconcileRequired {
          reply := UpdateAndProve(Settled(r, current), env);
          return;
        }
      }
      reply := Resend(r, current, env);
    }

    method Resend(r: Stored, current: Record, env: Env) returns (reply: Reply)
      modifies this`records, this`log
      ensures var e := ResendEffect(cfg, r, current, env);
              records == UpdatedAll(old(records), e.stores) && log == old(log) + e.signals && reply == e.reply
    {
      hide Updated, PublishEffect, Transition;
      var plan := RetryPlan(current);
      var prepared := r.(base := Transition(current, Event.Retry, env.now));
      Update(prepared);
      if !plan.koinos {
        UpdatedThen(old(records), prepared, []);
        return Returned(prepared);
      }
      if prepared.text.None? || prepared.text.value == "" {
        UpdatedThen(old(records), prepared, []);
        return Rejected(NoText);
      }
      reply := Publish(prepared, env, old(records));
      UpdatedThen(old(records), prepared, PublishEffect(cfg, prepared, env).stores);
    }

    /** Chain (then indexer) lookup only; never publishes. */
    method Reconcile(attemptId: string, env: Env) returns (reply: Reply)
      modifies this`records, this`log
      ensures var s := CallStep(cfg, old(records), ReconcileAttempt(attemptId), env);
              records == s.records && log == old(log) + s.signals && reply == s.reply
    {
      hide Updated, UpdatedAll, ProofEffect, Transition, LookupEvent, Settled, AdoptPendingTx;
      NothingStored(records);
      var i := FindIndex(attemptId);
      if i == |records| {
        return Rejected(UnknownAttempt);
      }
      var r := records[i];
      var account := if r.author.Some? then r.author else env.account;
      if account.None? {
        return Rejected(Locked);
      }
      var current := Reopened(cfg, r, account.value, env.now);
      if current.state == State.Draft {
        return Returned(r);
      }
      var looked := LookUp(current, r, env.chain, env.indexer, env.now);
      if looked.None? {
        return Interrupted;
      }
      current := AdoptPendingTx(r, looked.value);
      reply := UpdateAndProve(Settled(r.(author := account), current), env);
    }

    method ReportHost(attemptId: string, posted: bool, detail: string, env: Env) returns (reply: Reply)
      modifies this`records, this`log
      ensures var s := CallStep(cfg, old(records), MarkHost(attemptId, posted, detail), env);
              records == s.records && log == old(log) + s.signals && reply == s.reply
    {
      hide Updated, UpdatedAll, ProofEffect, Transition;
      NothingStored(records);
      var i := FindIndex(attemptId);
      if i == |records| {
        return Rejected(UnknownAttempt);
      }
      var r := records[i];
      if r.base.hostStatus == NotRequired {
        return Rejected(NoHostSide);
      }
      if r.base.state == State.Draft {
        return Rejected(WrongState);
      }
      var event := HostFailed(detail);
      if posted {
        if !HostLinkOk(cfg, r, detail) {
          return Rejected(BadHostLink);
        }
        event := HostSucceeded(detail);
      }
      reply := UpdateAndProve(r.(base := Transition(r.base, event, env.now)), env);
    }

    method Prove(attemptId: string, env: Env) returns (reply: Reply)
      modifies this`records, this`log
      ensures var s := CallStep(cfg, old(records), RecordProofOf(attemptId), env);
              records == s.records && log == old(log) + s.signals && reply == s.reply
    {
      hide ProofEffect, UpdatedAll;
      NothingStored(records);
      var i := FindIndex(attemptId);
      if i == |records| {
        return Rejected(UnknownAttempt);
      }
      if !NeedsProof(records[i]) {
        return Rejected(NothingToRecord);
      }
      if !cfg.recordsProofs {
        return Rejected(ProofsUnavailable);
      }
      reply := MaybeProof(records[i], env);
    }

    method Discard(attemptId: string, env: Env) returns (reply: Reply)
      modifies this`records, this`log
      ensures var s := CallStep(cfg, old(records), DiscardAttempt(attemptId), env);
              records == s.records && log == old(log) + s.signals && reply == s.reply
    {
      hide Saved, UpdatedAll;
      NothingStored(records);
      var i := FindIndex(attemptId);
      if i == |records| {
        return Gone;
      }
      var r := records[i];
      if r.base.state == Submitting && r.base.koinosStatus == Pending
         && env.now - r.base.updatedAt <= STALE_SUBMITTING_MS {
        return Rejected(StillInFlight);
      }
      records := Filter({attemptId});
      Save();
      return Gone;
    }
  }

  lemma NothingStored(records: seq<Stored>)
    ensures UpdatedAll(records, []) == records
  {
  }

  lemma KeyIsKept(r: Record, event: Event, at: int)
    ensures Transition(r, event, at).idempotencyKey == r.idempotencyKey
  {
    hide Lower, DeriveState;
  }
}
