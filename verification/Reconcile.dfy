/**
 * Cross-post reconciliation (`packages/sdk/src/reconcile.ts`): the record of one attempt, the pure
 * transition function, the retry plan, and the Reconciler that looks an outcome up before anything
 * is sent again.
 */
module Reconcile {
  import opened Wrappers

  /** `OutcomeUnknown` and `AllFailed` are the states "unknown" and "failed". */
  datatype State = Draft | Submitting | Succeeded | Partial | OutcomeUnknown | AllFailed | ReconcileRequired

  /** Progress of one side: "pending", "ok", "failed", "unknown", "not_required". */
  datatype Side = Pending | Done | SideFailed | SideUnknown | NotRequired

  datatype Record = Record(
    idempotencyKey: string,
    attemptId: string,
    hostSite: Option<string>,
    audience: nat,
    state: State,
    hostStatus: Side,
    koinosStatus: Side,
    hostRef: Option<string>,
    koinosTxId: Option<string>,
    postId: Option<string>,
    lastError: Option<string>,
    updatedAt: int)

  datatype Event =
    | Retry
    | HostSucceeded(hostRef: string)
    | HostFailed(error: string)
    | KoinosSucceeded(txId: string, postId: string)
    | KoinosFailed(error: string)
    | KoinosUnknown(message: Option<string>)
    | LookupFound(postId: string, foundTxId: Option<string>)
    | LookupMissing

  const LOOKUP_REQUIRED := "lookup required before retry"
  const SAFE_TO_RETRY := "not found on chain; safe to retry"
  const CONFLICT := "conflicting facts"

  /** A hex id in lower case. */
  function Lower(s: string): (r: string)
    ensures |r| == |s|
  {
    seq(|s|, i requires 0 <= i < |s| => if 'A' <= s[i] <= 'Z' then (s[i] as int + 32) as char else s[i])
  }

  /** A fresh draft; an empty host site stands for none. */
  function NewRecord(key: string, attemptId: string, hostSite: string, audience: nat, now: int): Record {
    Record(Lower(key), Lower(attemptId), if hostSite == "" then None else Some(hostSite), audience, Draft,
           if hostSite == "" then NotRequired else Pending, Pending, None, None, None, None, now)
  }

  predicate HostDone(r: Record) {
    r.hostStatus == Done || r.hostStatus == NotRequired
  }

  function DeriveState(r: Record): State {
    if r.koinosStatus == SideUnknown then OutcomeUnknown
    else if HostDone(r) && r.koinosStatus == Done then Succeeded
    else if (HostDone(r) && r.koinosStatus == SideFailed) || (r.koinosStatus == Done && r.hostStatus == SideFailed)
            then Partial
    else if r.hostStatus == SideFailed && r.koinosStatus == SideFailed then AllFailed
    else Submitting
  }

  function Conflict(r: Record, at: int): Record {
    r.(state := ReconcileRequired, lastError := Some(CONFLICT), updatedAt := at)
  }

  function Finish(r: Record, at: int): Record {
    r.(state := DeriveState(r), updatedAt := at)
  }

  /** A failed side is tried again. */
  function Reset(side: Side): Side {
    if side == SideFailed then Pending else side
  }

  function Transition(r: Record, event: Event, at: int): Record {
    if r.state == ReconcileRequired then r
    else
      match event
      case Retry =>
        if r.state == Succeeded then r
        else if r.state == OutcomeUnknown then r.(lastError := Some(LOOKUP_REQUIRED), updatedAt := at)
        else
          r.(lastError := None, hostStatus := Reset(r.hostStatus), koinosStatus := Reset(r.koinosStatus),
             state := Submitting, updatedAt := at)
      case HostSucceeded(hostRef) =>
        if r.hostStatus == NotRequired then Conflict(r, at)
        else if r.hostRef.Some? && r.hostRef.value != hostRef then Conflict(r, at)
        else Finish(r.(hostStatus := Done, hostRef := Some(hostRef)), at)
      case HostFailed(error) =>
        if r.hostStatus == NotRequired then Conflict(r, at)
        else if r.hostStatus == Done then r
        else Finish(r.(hostStatus := SideFailed, lastError := Some(error)), at)
      case KoinosSucceeded(txId, postId) =>
        if r.postId.Some? && r.postId.value != Lower(postId) then Conflict(r, at)
        else Finish(r.(koinosStatus := Done, postId := Some(Lower(postId)), koinosTxId := Some(txId),
                       lastError := None), at)
      case LookupFound(postId, txId) =>
        if r.postId.Some? && r.postId.value != Lower(postId) then Conflict(r, at)
        else
          Finish(r.(koinosStatus := Done, postId := Some(Lower(postId)),
                    koinosTxId := if txId.Some? then txId else r.koinosTxId), at)
      case KoinosFailed(error) =>
        if r.koinosStatus == Done then r
        else Finish(r.(koinosStatus := SideFailed, lastError := Some(error)), at)
      case KoinosUnknown(message) =>
        if r.koinosStatus == Done then r
        else Finish(r.(koinosStatus := SideUnknown, lastError := if message.Some? then message else r.lastError), at)
      case LookupMissing =>
        if r.koinosStatus == Done then Conflict(r, at)
        else if r.koinosStatus == SideUnknown then
          Finish(r.(koinosStatus := SideFailed, lastError := Some(SAFE_TO_RETRY)), at)
        else r.(updatedAt := at)
  }

  datatype Plan = Plan(koinos: bool, host: bool)

  /** Which sides a retry publishes. */
  function RetryPlan(r: Record): Plan {
    Plan(r.postId.None? && r.koinosStatus != Done && r.koinosStatus != SideUnknown,
         r.hostStatus != NotRequired && r.hostStatus != Done)
  }

  // -------------------------------------------------------------------------
  // Runs of the machine
  // -------------------------------------------------------------------------

  datatype Timed = Timed(event: Event, at: int)

  ghost function RecordAt(start: Record, events: seq<Timed>, n: nat): Record
    requires n <= |events|
  {
    if n == 0 then start else Transition(RecordAt(start, events, n - 1), events[n - 1].event, events[n - 1].at)
  }

  /** What every record that grew from a draft satisfies. */
  ghost predicate Sound(r: Record) {
    && (r.koinosStatus == Done <==> r.postId.Some?)
    && (r.hostStatus == Done <==> r.hostRef.Some?)
    && (r.hostStatus == NotRequired <==> r.hostSite.None?)
    && r.koinosStatus != NotRequired && r.hostStatus != SideUnknown
    && (r.state == Draft ==> r.koinosStatus == Pending && (r.hostStatus == Pending || r.hostStatus == NotRequired))
    && (r.state != Draft && r.state != ReconcileRequired ==> r.state == DeriveState(r))
    && (r.koinosTxId.Some? ==> r.postId.Some?)
  }

  /** Facts that are never rewritten, and states that are never left. */
  ghost predicate Grows(r: Record, next: Record) {
    && (r.postId.Some? ==> next.postId == r.postId)
    && (r.hostRef.Some? ==> next.hostRef == r.hostRef)
    && next.idempotencyKey == r.idempotencyKey && next.attemptId == r.attemptId && next.hostSite == r.hostSite
    && (r.state == ReconcileRequired ==> next == r)
    && (r.state == Succeeded ==> next.state == Succeeded || next.state == ReconcileRequired)
    && (next.state == Draft ==> r.state == Draft)
  }

  /** The event contradicts what the record holds. */
  ghost predicate Contradicts(r: Record, event: Event) {
    match event
    case HostSucceeded(hostRef) => r.hostSite.None? || (r.hostRef.Some? && r.hostRef.value != hostRef)
    case HostFailed(_) => r.hostSite.None?
    case KoinosSucceeded(_, postId) => r.postId.Some? && r.postId.value != Lower(postId)
    case LookupFound(postId, _) => r.postId.Some? && r.postId.value != Lower(postId)
    case LookupMissing => r.postId.Some?
    case _ => false
  }

  lemma NewRecordSound(key: string, attemptId: string, hostSite: string, audience: nat, now: int)
    ensures Sound(NewRecord(key, attemptId, hostSite, audience, now))
  {
  }

  /** Each step keeps the record sound, rewrites no fact, and asks for manual review exactly on a contradiction. */
  lemma StepIsSound(r: Record, event: Event, at: int)
    requires Sound(r)
    ensures var next := Transition(r, event, at);
            && Sound(next) && Grows(r, next)
            && (next.state == ReconcileRequired <==> r.state == ReconcileRequired || Contradicts(r, event))
  {
    hide Lower;
  }

  lemma GrowsTransitive(a: Record, b: Record, c: Record)
    requires Grows(a, b) && Grows(b, c)
    ensures Grows(a, c)
  {
  }

  /**
   * The machine invariant over every event sequence from a fresh record: a post id is recorded exactly when
   * the Koinos side is ok and a host ref exactly when the host side is, both are written once, the state is
   * the one its sides derive outside draft and manual review, manual review is never left, and success only for it.
   */
  lemma {:induction false} MachineInvariant(start: Record, events: seq<Timed>, m: nat, n: nat)
    requires m <= n <= |events| && Sound(start)
    ensures Sound(RecordAt(start, events, m)) && Sound(RecordAt(start, events, n))
    ensures Grows(RecordAt(start, events, m), RecordAt(start, events, n))
    decreases n
  {
    hide Transition, Sound, Grows;
    if n == 0 {
      GrowsReflexive(start);
    } else if m < n {
      MachineInvariant(start, events, m, n - 1);
      StepIsSound(RecordAt(start, events, n - 1), events[n - 1].event, events[n - 1].at);
      GrowsTransitive(RecordAt(start, events, m), RecordAt(start, events, n - 1), RecordAt(start, events, n));
    } else {
      MachineInvariant(start, events, m - 1, n - 1);
      StepIsSound(RecordAt(start, events, n - 1), events[n - 1].event, events[n - 1].at);
      GrowsReflexive(RecordAt(start, events, n));
    }
  }

  lemma GrowsReflexive(r: Record)
    ensures Grows(r, r)
  {
  }

  /** In a sound record a retry publishes on Koinos exactly when no post id is known and the outcome is not unknown. */
  lemma RetryNeverRepublishes(r: Record)
    requires Sound(r)
    ensures RetryPlan(r).koinos <==> r.koinosStatus == Pending || r.koinosStatus == SideFailed
    ensures r.postId.Some? ==> !RetryPlan(r).koinos
    ensures RetryPlan(r).host ==> r.hostRef.None?
  {
  }

  // -------------------------------------------------------------------------
  // Lookups
  // -------------------------------------------------------------------------

  /** What the chain answers for (author, key); a found id is not empty. */
  datatype ChainAnswer = ChainThrows | NotFound | Found(postId: string)

  /** What the optional indexer answers. */
  datatype IndexerAnswer = NotConfigured | IndexerThrows | NoHit | Hit(postId: string, txId: Option<string>)

  /** The event a lookup amounts to; None when it throws. The chain is asked first and is authoritative. */
  function LookupEvent(chain: ChainAnswer, indexer: IndexerAnswer): Option<Event> {
    match chain
    case ChainThrows => None
    case Found(postId) =>
      (match indexer
       case IndexerThrows => None
       case Hit(hitId, txId) => Some(LookupFound(postId, if Lower(hitId) == Lower(postId) then txId else None))
       case _ => Some(LookupFound(postId, None)))
    case NotFound =>
      (match indexer
       case IndexerThrows => None
       case Hit(hitId, txId) => Some(LookupFound(hitId, txId))
       case _ => Some(LookupMissing))
  }

  /** The outcome of `publishKoinos` as `Reconciler.retry` sees it; the flags are its two tests on the message. */
  datatype PublishAnswer =
    | Published(txId: string, postId: string)
    | Threw(message: string, duplicate: bool, transport: bool)

  datatype HostAnswer = HostPublished(hostRef: string) | HostThrew(message: string)

  /** `Reconciler.lookup`. */
  method ResolveOutcome(record: Record, chain: ChainAnswer, indexer: IndexerAnswer, at: int) returns (r: Option<Record>)
    ensures r == (var e := LookupEvent(chain, indexer); if e.Some? then Some(Transition(record, e.value, at)) else None)
  {
    if chain.ChainThrows? {
      return None;
    }
    if chain.Found? {
      var txId := None;
      if !indexer.NotConfigured? {
        if indexer.IndexerThrows? {
          return None;
        }
        if indexer.Hit? && Lower(indexer.postId) == Lower(chain.postId) {
          txId := indexer.txId;
        }
      }
      return Some(Transition(record, LookupFound(chain.postId, txId), at));
    }
    if !indexer.NotConfigured? {
      if indexer.IndexerThrows? {
        return None;
      }
      if indexer.Hit? {
        return Some(Transition(record, LookupFound(indexer.postId, indexer.txId), at));
      }
    }
    return Some(Transition(record, LookupMissing, at));
  }

  /**
   * The answers one `Reconciler.retry` may get: a lookup before publishing, the publications, a lookup after a
   * duplicate.
   */
  datatype Answers = Answers(
    chain: ChainAnswer, indexer: IndexerAnswer,
    publish: PublishAnswer,
    chainAfter: ChainAnswer, indexerAfter: IndexerAnswer,
    host: HostAnswer)

  function IsOver(r: Record): bool {
    r.state == ReconcileRequired || r.state == Succeeded
  }

  function AfterPublish(r: Record, a: Answers, at: int): Option<Record> {
    match a.publish
    case Published(txId, postId) => Some(Transition(r, KoinosSucceeded(txId, postId), at))
    case Threw(message, duplicate, transport) =>
      if duplicate then
        var e := LookupEvent(a.chainAfter, a.indexerAfter);
        if e.None? then None else Some(Transition(Transition(r, KoinosFailed(message), at), e.value, at))
      else if transport then Some(Transition(r, KoinosUnknown(Some(message)), at))
      else Some(Transition(r, KoinosFailed(message), at))
  }

  function AfterHost(r: Record, a: Answers, at: int): Record {
    match a.host
    case HostPublished(hostRef) => Transition(r, HostSucceeded(hostRef), at)
    case HostThrew(message) => Transition(r, HostFailed(message), at)
  }

  /** The record a retry starts to publish from: resolved first when its outcome was unknown. */
  function Resolved(r: Record, a: Answers, at: int): Option<Record> {
    if IsOver(r) || r.koinosStatus != SideUnknown then Some(r)
    else
      var e := LookupEvent(a.chain, a.indexer);
      if e.None? then None else Some(Transition(r, e.value, at))
  }

  /** `Reconciler.retry`; None when it throws. */
  function RetryResult(r: Record, a: Answers, at: int): Option<Record> {
    var resolved := Resolved(r, a, at);
    if resolved.None? || IsOver(resolved.value) then resolved
    else
      var plan, started := RetryPlan(resolved.value), Transition(resolved.value, Retry, at);
      var koinos := if plan.koinos then AfterPublish(started, a, at) else Some(started);
      if koinos.None? || !plan.host then koinos else Some(AfterHost(koinos.value, a, at))
  }

  method RetryRecord(record: Record, a: Answers, at: int) returns (r: Option<Record>)
    ensures r == RetryResult(record, a, at)
  {
    hide Transition;
    var current := record;
    if IsOver(current) {
      return Some(current);
    }
    if current.koinosStatus == SideUnknown {
      var looked := ResolveOutcome(current, a.chain, a.indexer, at);
      if looked.None? {
        return None;
      }
      current := looked.value;
    }
    if IsOver(current) {
      return Some(current);
    }
    var plan := RetryPlan(current);
    current := Transition(current, Retry, at);
    if plan.koinos {
      match a.publish
      case Published(txId, postId) =>
        current := Transition(current, KoinosSucceeded(txId, postId), at);
      case Threw(message, duplicate, transport) =>
        if duplicate {
          current := Transition(current, KoinosFailed(message), at);
          var looked := ResolveOutcome(current, a.chainAfter, a.indexerAfter, at);
          if looked.None? {
            return None;
          }
          current := looked.value;
        } else if transport {
          current := Transition(current, KoinosUnknown(Some(message)), at);
        } else {
          current := Transition(current, KoinosFailed(message), at);
        }
    }
    if plan.host {
      current := AfterHost(current, a, at);
    }
    return Some(current);
  }

  /**
   * `Reconciler.retry` never publishes twice: it keeps every recorded fact, calls `publishKoinos` only when no
   * post id is known, and for an unknown outcome only after a lookup that found nothing.
   */
  lemma RetryIsSafe(r: Record, a: Answers, at: int)
    requires Sound(r)
    ensures RetryResult(r, a, at).Some? ==> Sound(RetryResult(r, a, at).value) && Grows(r, RetryResult(r, a, at).value)
    ensures var resolved := Resolved(r, a, at);
            resolved.Some? && !IsOver(resolved.value) && RetryPlan(resolved.value).koinos ==>
              r.postId.None? && (r.koinosStatus == SideUnknown ==>
                LookupEvent(a.chain, a.indexer) == Some(LookupMissing))
  {
    hide Transition, Grows, AfterPublish, AfterHost, Contradicts, LookupEvent;
    var resolved := Resolved(r, a, at);
    GrowsReflexive(r);
    OnlyMissingIsResent(r, a, at);
    if resolved.Some? {
      if resolved.value != r {
        StepIsSound(r, LookupEvent(a.chain, a.indexer).value, at);
      }
      if !IsOver(resolved.value) {
        PublishIsSafe(resolved.value, a, at);
        if RetryResult(r, a, at).Some? {
          GrowsTransitive(r, resolved.value, RetryResult(r, a, at).value);
        }
      }
    }
  }

  lemma OnlyMissingIsResent(r: Record, a: Answers, at: int)
    requires Sound(r)
    ensures var resolved := Resolved(r, a, at);
            resolved.Some? && !IsOver(resolved.value) && RetryPlan(resolved.value).koinos ==>
              r.postId.None? && (r.koinosStatus == SideUnknown ==>
                LookupEvent(a.chain, a.indexer) == Some(LookupMissing))
  {
    hide Lower;
  }

  /** The publishing part of a retry. */
  lemma PublishIsSafe(r: Record, a: Answers, at: int)
    requires Sound(r) && !IsOver(r)
    ensures var plan, started := RetryPlan(r), Transition(r, Retry, at);
            var koinos := if plan.koinos then AfterPublish(started, a, at) else Some(started);
            koinos.Some? ==>
              && Sound(koinos.value) && Grows(r, koinos.value)
              && Sound(AfterHost(koinos.value, a, at)) && Grows(r, AfterHost(koinos.value, a, at))
  {
    hide Transition, Sound, Grows, Contradicts, LookupEvent;
    var plan, started := RetryPlan(r), Transition(r, Retry, at);
    StepIsSound(r, Retry, at);
    var koinos := if plan.koinos then AfterPublish(started, a, at) else Some(started);
    if koinos.Some? {
      if plan.koinos {
        AfterPublishIsSafe(started, a, at);
        GrowsTransitive(r, started, koinos.value);
      }
      match a.host {
        case HostPublished(hostRef) => StepIsSound(koinos.value, HostSucceeded(hostRef), at);
        case HostThrew(message) => StepIsSound(koinos.value, HostFailed(message), at);
      }
      GrowsTransitive(r, koinos.value, AfterHost(koinos.value, a, at));
    }
  }

  lemma AfterPublishIsSafe(r: Record, a: Answers, at: int)
    requires Sound(r)
    ensures AfterPublish(r, a, at).Some? ==>
              Sound(AfterPublish(r, a, at).value) && Grows(r, AfterPublish(r, a, at).value)
  {
    hide Transition, Sound, Grows, Contradicts, LookupEvent;
    match a.publish
    case Published(txId, postId) => StepIsSound(r, KoinosSucceeded(txId, postId), at);
    case Threw(message, duplicate, transport) =>
      StepIsSound(r, KoinosFailed(message), at);
      StepIsSound(r, KoinosUnknown(Some(message)), at);
      var e, failed := LookupEvent(a.chainAfter, a.indexerAfter), Transition(r, KoinosFailed(message), at);
      if e.Some? {
        StepIsSound(failed, e.value, at);
        GrowsTransitive(r, failed, Transition(failed, e.value, at));
      }
  }
}
