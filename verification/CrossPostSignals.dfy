/**
 * What the orchestrator sends and looks up over whole runs: nothing is sent unless the signal before it
 * clears the way, and an attempt that a node accepted is not sent again.
 */
module CrossPostSignals {
  import opened Wrappers
  import opened Reconcile
  import opened Queue
  import opened CrossPost
  import opened CrossPostRuns

  /** The signals of an attempt in the first n turns. */
  ghost function LogOf(cfg: Config, turns: seq<Turn>, n: nat, id: string): seq<Signal>
    requires n <= |turns|
  {
    if n == 0 then []
    else
      LogOf(cfg, turns, n - 1, id)
      + (if turns[n - 1].call.attemptId == id then ResultAt(cfg, turns, n - 1).signals else [])
  }

  ghost predicate IsAnswer(s: Signal) {
    s.Accepted? || s.Refused?
  }

  /** Nothing may be under way any more: a new draft, a refusal, or a lookup that found nothing. */
  ghost predicate Clears(s: Signal) {
    s.Created? || s.Refused? || (s.LookedUp? && LookupEvent(s.chain, s.indexer) == Some(LookupMissing))
  }

  /** Directly before a publication stands a signal that clears the way, directly before an answer its publication. */
  ghost predicate MayStand(log: seq<Signal>, k: nat)
    requires k < |log|
  {
    && (log[k].Sent? ==> 0 < k && Clears(log[k - 1]))
    && (IsAnswer(log[k]) ==> 0 < k && log[k - 1].Sent?)
  }

  ghost predicate Orderly(log: seq<Signal>) {
    forall k | 0 <= k < |log| :: MayStand(log, k)
  }

  /** Accepted, and no new draft since. */
  ghost predicate IsOut(log: seq<Signal>) {
    exists i :: 0 <= i < |log| && log[i].Accepted? && forall j | i < j < |log| :: !log[j].Created?
  }

  /** An accepted attempt is sent again only as a new draft. */
  ghost predicate AcceptedOnce(log: seq<Signal>) {
    forall i, k | 0 <= i < k < |log| && log[i].Accepted? && log[k].Sent? :: exists j :: i < j < k && log[j].Created?
  }

  /** The record may be sent without a lookup of its own. */
  ghost predicate Ready(r: Stored) {
    r.base.state == Draft || (r.base.koinosStatus == SideFailed && r.base.state != ReconcileRequired)
  }

  // -------------------------------------------------------------------------
  // One call
  // -------------------------------------------------------------------------

  /** What a call has stored last; the record it started from when nothing. */
  ghost function Last(r: Stored, stores: seq<Stored>): Stored {
    if stores == [] then r else stores[|stores| - 1]
  }

  /** A publication, its answer, a lookup. */
  ghost predicate IsPublication(signals: seq<Signal>) {
    && 0 < |signals| <= 3 && signals[0].Sent?
    && (|signals| > 1 ==> IsAnswer(signals[1]))
    && (|signals| > 2 ==> signals[2].LookedUp?)
  }

  lemma ProofKeeps(cfg: Config, r: Stored, env: Env)
    ensures var x := Last(r, ProofEffect(cfg, r, env).stores);
            x.base.koinosStatus == r.base.koinosStatus && x.base.state == r.base.state && x.base.postId == r.base.postId
  {
  }

  lemma LastOfThen(r: Stored, first: Stored, rest: Effect)
    ensures Last(r, Then(first, rest).stores) == Last(first, rest.stores)
  {
  }

  /** A publication whose last signal does not clear the way leaves a record that is not sent again directly. */
  lemma AnswerDecides(r: Stored, env: Env)
    requires Sound(r.base) && r.base.koinosStatus == Pending && AfterPublication(r, env).Some?
    requires r.base.state == Submitting || r.base.state == ReconcileRequired
    ensures var next, signals := AfterPublication(r, env).value, PublishSignals(r, env);
            && (Ready(next) ==> Clears(signals[|signals| - 1]))
            && (Accepted in signals && r.base.state != ReconcileRequired ==> next.base.postId.Some?)
  {
    hide Lower;
    if env.publish.Failure? && ClassifySubmitError(env.publish.error) == IsDuplicate {
      DuplicateDecides(r, env);
      hide Transition, LookupEvent;
    } else {
      hide LookupEvent;
    }
  }

  lemma DuplicateDecides(r: Stored, env: Env)
    requires Sound(r.base) && r.base.koinosStatus == Pending && AfterPublication(r, env).Some?
    requires r.base.state == Submitting || r.base.state == ReconcileRequired
    requires env.publish.Failure? && ClassifySubmitError(env.publish.error) == IsDuplicate
    ensures var next, signals := AfterPublication(r, env).value, PublishSignals(r, env);
            (Ready(next) ==> Clears(signals[|signals| - 1])) && Accepted !in signals
  {
    EventIsLookup(env.chainAfter, env.indexerAfter);
    hide Lower, LookupEvent, WithAttempt;
  }

  lemma PublicationOk(cfg: Config, r: Stored, env: Env)
    requires Sound(r.base) && r.base.koinosStatus == Pending && r.base.state == Submitting
    ensures var e := PublishEffect(cfg, r, env);
            && e.signals == PublishSignals(r, env) && IsPublication(e.signals)
            && (Ready(Last(r, e.stores)) ==> Clears(e.signals[|e.signals| - 1]))
            && (Accepted in e.signals ==> Last(r, e.stores).base.postId.Some?)
  {
    var signals := PublishSignals(r, env);
    assert IsPublication(signals);
    assert signals + [] == signals;
    var next := AfterPublication(r, env);
    if next.Some? {
      AnswerDecides(r, env);
      ProofKeeps(cfg, next.value, env);
      hide ProofEffect, AfterPublication, PublishSignals, Sound;
      LastOfThen(r, next.value, ProofEffect(cfg, next.value, env));
    } else {
      hide LookupEvent;
      assert Accepted !in signals;
    }
  }

  /** What the signals of one call say about the record before and after it. */
  ghost predicate SignalsOk(found: Option<Stored>, signals: seq<Signal>, stores: seq<Stored>) {
    && (forall k | 0 < k < |signals| :: MayStand(signals, k))
    && (forall i, k | 0 <= i < k < |signals| && signals[i].Accepted? :: !signals[k].Sent?)
    && (signals != [] ==> !IsAnswer(signals[0]) && stores != [])
    && (signals != [] && signals[0].Sent? ==> found.Some? && Ready(found.value))
    && ((exists s :: s in signals && s.Sent?) ==> found.Some? && found.value.base.postId.None?)
    && (Accepted in signals ==> stores != [] && stores[|stores| - 1].base.postId.Some?)
    && (stores != [] && Ready(stores[|stores| - 1]) ==>
          if signals == [] then found.Some? && Ready(found.value) else Clears(signals[|signals| - 1]))
    && (Created in signals ==> signals == [Created] && found.None?)
    && (found.None? && stores != [] ==> signals == [Created])
  }

  /** A publication that may start here. */
  lemma PublicationSignals(found: Option<Stored>, signals: seq<Signal>, stores: seq<Stored>)
    requires found.Some? && Ready(found.value) && found.value.base.postId.None?
    requires IsPublication(signals) && stores != []
    requires Ready(stores[|stores| - 1]) ==> Clears(signals[|signals| - 1])
    requires Accepted in signals ==> stores[|stores| - 1].base.postId.Some?
    ensures SignalsOk(found, signals, stores)
  {
    hide Ready, Clears;
  }

  /** A publication behind a lookup that found nothing. */
  lemma LookupThenPublication(found: Option<Stored>, looked: Signal, signals: seq<Signal>, stores: seq<Stored>)
    requires found.Some? && found.value.base.postId.None? && looked.LookedUp? && Clears(looked)
    requires IsPublication(signals) && stores != []
    requires Ready(stores[|stores| - 1]) ==> Clears(signals[|signals| - 1])
    requires Accepted in signals ==> stores[|stores| - 1].base.postId.Some?
    ensures SignalsOk(found, [looked] + signals, stores)
  {
    hide Ready, Clears;
  }

  lemma ConfirmSignals(cfg: Config, r: Stored, audience: Option<nat>, env: Env)
    requires Sound(r.base)
    ensures SignalsOk(Some(r), ConfirmEffect(cfg, r, audience, env).signals,
                      ConfirmEffect(cfg, r, audience, env).stores)
  {
    if r.base.state == Draft && env.account.Some? && !(r.author.Some? && r.author != env.account) {
      var prepared := Prepared(cfg, r, env.account.value, audience, env.now);
      assert Sound(prepared.base) && prepared.base.koinosStatus == Pending && prepared.base.state == Submitting;
      assert Ready(r) && r.base.postId.None?;
      PublicationOk(cfg, prepared, env);
      hide Transition, PublishEffect, Sound, Ready, Clears, SignalsOk, Prepared, IsPublication;
      var e := PublishEffect(cfg, prepared, env);
      LastOfThen(r, prepared, e);
      PublicationSignals(Some(r), e.signals, Then(prepared, e).stores);
    }
  }

  /** A retry of the Koinos side: a publication, or a record that is not sent again directly. */
  lemma ResendSignals(cfg: Config, r: Stored, current: Record, env: Env)
    requires Sound(current) && current.state != Draft && current.state != Succeeded && current.state != OutcomeUnknown
    requires current.state != ReconcileRequired
    ensures var e := ResendEffect(cfg, r, current, env);
            && e.stores != []
            && (e.signals == [] || IsPublication(e.signals))
            && (Ready(e.stores[|e.stores| - 1]) ==> e.signals != [] && Clears(e.signals[|e.signals| - 1]))
            && (Accepted in e.signals ==> e.stores[|e.stores| - 1].base.postId.Some?)
            && (e.signals != [] ==> current.postId.None?)
  {
    var prepared := r.(base := Transition(current, Retry, env.now));
    StepIsSound(current, Retry, env.now);
    assert prepared.base.state == Submitting && prepared.base.koinosStatus != SideFailed;
    if RetryPlan(current).koinos && !(r.text.None? || r.text.value == "") {
      assert prepared.base.koinosStatus == Pending;
      PublicationOk(cfg, prepared, env);
      hide Transition, PublishEffect, Sound, Ready, Clears, IsPublication;
      LastOfThen(prepared, prepared, PublishEffect(cfg, prepared, env));
    } else {
      hide Transition, PublishEffect, Sound;
    }
  }

  lemma ReadyWithoutPost(r: Stored)
    requires Sound(r.base) && Ready(r)
    ensures r.base.postId.None?
  {
  }

  /** A completed lookup of an unknown outcome: resolved, or cleared. */
  lemma LookedSound(r: Stored, env: Env)
    requires Sound(r.base) && r.base.koinosStatus == SideUnknown && r.base.state == OutcomeUnknown
    requires LookupEvent(env.chain, env.indexer).Some?
    ensures var current := Looked(r, r.base, env).value;
            && Sound(current) && current.state != Draft && current.koinosStatus != SideUnknown
            && (current.koinosStatus == Done || current.state == ReconcileRequired
                || (LookupEvent(env.chain, env.indexer) == Some(LookupMissing)
                    && current.state != OutcomeUnknown && current.state != Succeeded))
  {
    StepIsSound(r.base, LookupEvent(env.chain, env.indexer).value, env.now);
    hide Lower, LookupEvent;
    assert LookupOrMissing(LookupEvent(env.chain, env.indexer).value) by {
      EventIsLookup(env.chain, env.indexer);
    }
  }

  ghost predicate LookupOrMissing(event: Event) {
    event.LookupFound? || event.LookupMissing?
  }

  lemma EventIsLookup(chain: ChainAnswer, indexer: IndexerAnswer)
    requires LookupEvent(chain, indexer).Some?
    ensures LookupOrMissing(LookupEvent(chain, indexer).value)
  {
    hide Lower;
  }

  /** A lookup, and then a settled record. */
  lemma SettledSignals(cfg: Config, r: Stored, looked: Signal, next: Stored, env: Env)
    requires looked.LookedUp? && (Ready(next) ==> Clears(looked))
    ensures var e := Then(next, ProofEffect(cfg, next, env)); SignalsOk(Some(r), [looked] + e.signals, e.stores)
  {
    ProofKeeps(cfg, next, env);
    hide ProofEffect;
    LastOfThen(r, next, ProofEffect(cfg, next, env));
    assert [looked] + [] == [looked];
  }

  lemma NoSignals(r: Stored, stores: seq<Stored>)
    requires stores == [] || (Ready(stores[|stores| - 1]) ==> Ready(r))
    ensures SignalsOk(Some(r), [], stores)
  {
  }

  /** Without a pending outcome a retry is gated on a failed side. */
  lemma RetryGate(r: Stored, env: Env)
    requires Sound(r.base) && (RetryPublish in Explain(r, env.now) || r.base.state == OutcomeUnknown)
    ensures r.base.state != ReconcileRequired && r.base.state != Draft && r.base.state != Succeeded
    ensures r.base.koinosStatus == if r.base.state == OutcomeUnknown then SideUnknown else SideFailed
  {
    hide NeedsProof;
  }

  lemma RetrySignals(cfg: Config, r: Stored, env: Env)
    requires Sound(r.base)
    ensures SignalsOk(Some(r), RetryEffect(cfg, r, env).signals, RetryEffect(cfg, r, env).stores)
  {
    var e := RetryEffect(cfg, r, env);
    hide Transition, LookupEvent, DeriveState, ResendEffect, ProofEffect, Explain, Settled, AdoptPendingTx, Clears,
        Sound, SignalsOk, IsPublication, Ready;
    if (RetryPublish in Explain(r, env.now) || r.base.state == OutcomeUnknown) && env.account.Some?
       && !(r.author.Some? && r.author != env.account) {
      RetryGate(r, env);
      if r.base.koinosStatus == SideUnknown {
        if LookupEvent(env.chain, env.indexer).Some? {
          LookedSound(r, env);
          RetryAfterLookup(cfg, r, env);
        } else {
          assert e.signals == [];
          NoSignals(r, []);
        }
      } else {
        FailedIsReady(r);
        ResendSignals(cfg, r, r.base, env);
        ReadyWithoutPost(r);
        if e.signals != [] {
          PublicationSignals(Some(r), e.signals, e.stores);
        } else {
          NoSignals(r, e.stores);
        }
      }
    } else {
      NoSignals(r, []);
    }
  }

  lemma FailedIsReady(r: Stored)
    requires Sound(r.base) && r.base.koinosStatus == SideFailed && r.base.state != ReconcileRequired
    ensures Ready(r) && r.base.state != OutcomeUnknown
  {
  }

  lemma UnknownHasNoPost(r: Stored)
    requires Sound(r.base) && r.base.koinosStatus == SideUnknown
    ensures r.base.postId.None?
  {
  }

  /** The retry of an unknown outcome, from its lookup on. */
  lemma RetryAfterLookup(cfg: Config, r: Stored, env: Env)
    requires Sound(r.base) && r.base.koinosStatus == SideUnknown && r.base.state == OutcomeUnknown
    requires LookupEvent(env.chain, env.indexer).Some?
    ensures var current := Looked(r, r.base, env).value;
            var rest := if current.koinosStatus == Done || current.state == ReconcileRequired
            then Then(Settled(r, current), ProofEffect(cfg, Settled(r, current), env))
            else ResendEffect(cfg, r, current, env);
            var looked := LookupSignals(r.base.idempotencyKey, r, env.chain, env.indexer);
            SignalsOk(Some(r), looked + rest.signals, rest.stores)
  {
    var current := Looked(r, r.base, env).value;
    var looked := LookedUp(r.base.idempotencyKey, r.expectedPostId, r.contentHash, env.chain, env.indexer);
    LookedSound(r, env);
    UnknownHasNoPost(r);
    assert Clears(looked) <==> LookupEvent(env.chain, env.indexer) == Some(LookupMissing);
    hide LookupEvent, Transition, ResendEffect, ProofEffect, Sound, SignalsOk, IsPublication, Clears, DeriveState,
        Looked, AdoptPendingTx;
    if current.koinosStatus == Done || current.state == ReconcileRequired {
      assert !Ready(Settled(r, current));
      SettledSignals(cfg, r, looked, Settled(r, current), env);
    } else {
      ResendSignals(cfg, r, current, env);
      var e := ResendEffect(cfg, r, current, env);
      if e.signals == [] {
        assert [looked] + [] == [looked];
        OneLookup(r, looked, e.stores);
      } else {
        LookupThenPublication(Some(r), looked, e.signals, e.stores);
      }
    }
  }

  lemma OneLookup(r: Stored, looked: Signal, stores: seq<Stored>)
    requires looked.LookedUp? && stores != [] && (Ready(stores[|stores| - 1]) ==> Clears(looked))
    ensures SignalsOk(Some(r), [looked], stores)
  {
  }

  /** A lookup that leaves a record ready to be sent found nothing. */
  lemma ReopenedLookup(cfg: Config, r: Stored, account: string, env: Env)
    requires Sound(r.base) && r.base.state != Draft && LookupEvent(env.chain, env.indexer).Some?
    ensures var current := Looked(r, Reopened(cfg, r, account, env.now), env).value;
            Ready(Settled(r.(author := Some(account)), current)) ==>
              LookupEvent(env.chain, env.indexer) == Some(LookupMissing)
  {
    var event := LookupEvent(env.chain, env.indexer).value;
    EventIsLookup(env.chain, env.indexer);
    hide Lower, LookupEvent;
  }

  lemma ReconcileSignals(cfg: Config, r: Stored, env: Env)
    requires Sound(r.base)
    ensures SignalsOk(Some(r), ReconcileEffect(cfg, r, env).signals, ReconcileEffect(cfg, r, env).stores)
  {
    var account := Acting(r, env);
    NoSignals(r, []);
    if account.Some? {
      var reopened := Reopened(cfg, r, account.value, env.now);
      assert r.base.state == Draft ==> reopened.state == Draft;
      if reopened.state != Draft && LookupEvent(env.chain, env.indexer).Some? {
        ReopenedLookup(cfg, r, account.value, env);
        hide Transition, LookupEvent, DeriveState, ProofEffect, Settled, AdoptPendingTx, Sound, SignalsOk, Ready,
            Reopened;
        var next := Settled(r.(author := account), Looked(r, reopened, env).value);
        var looked := LookedUp(reopened.idempotencyKey, r.expectedPostId, r.contentHash, env.chain, env.indexer);
        SettledSignals(cfg, r, looked, next, env);
      }
    }
  }

  /** A host report leaves the Koinos side alone. */
  lemma MarkHostSignals(cfg: Config, r: Stored, posted: bool, detail: string, env: Env)
    requires Sound(r.base)
    ensures SignalsOk(Some(r), MarkHostEffect(cfg, r, posted, detail, env).signals,
                      MarkHostEffect(cfg, r, posted, detail, env).stores)
  {
    var next := r.(base := Transition(r.base, if posted then HostSucceeded(detail) else HostFailed(detail), env.now));
    assert r.base.state != Draft && Ready(next) ==> Ready(r) by {
      hide DeriveState;
    }
    ProofKeeps(cfg, next, env);
    hide ProofEffect, Transition, SignalsOk, Ready;
    LastOfThen(r, next, ProofEffect(cfg, next, env));
    NoSignals(r, []);
    if r.base.state != Draft {
      NoSignals(r, Then(next, ProofEffect(cfg, next, env)).stores);
    }
  }

  lemma ProofSignals(cfg: Config, r: Stored, env: Env)
    ensures SignalsOk(Some(r), [], ProofEffect(cfg, r, env).stores)
  {
    ProofKeeps(cfg, r, env);
    hide ProofEffect;
    NoSignals(r, ProofEffect(cfg, r, env).stores);
  }

  /** The signals of every call: publications start from a ready record or right after a lookup that found nothing. */
  lemma CallSignals(cfg: Config, found: Option<Stored>, call: Call, env: Env)
    requires found.Some? ==> Sound(found.value.base)
    ensures SignalsOk(found, EffectOf(cfg, found, call, env).signals, EffectOf(cfg, found, call, env).stores)
  {
    if found.Some? {
      var r := found.value;
      hide Sound, ConfirmEffect, RetryEffect, ReconcileEffect, MarkHostEffect, ProofEffect, NeedsProof, SignalsOk;
      NoSignals(r, []);
      match call {
        case ConfirmDraft(_, choice) => ConfirmSignals(cfg, r, choice, env);
        case RetryAttempt(_) => RetrySignals(cfg, r, env);
        case ReconcileAttempt(_) => ReconcileSignals(cfg, r, env);
        case MarkHost(_, posted, detail) => MarkHostSignals(cfg, r, posted, detail, env);
        case RecordProofOf(_) => ProofSignals(cfg, r, env);
        case _ =>
      }
    }
  }

  // -------------------------------------------------------------------------
  // Runs
  // -------------------------------------------------------------------------

  lemma JoinOrderly(log: seq<Signal>, more: seq<Signal>)
    requires Orderly(log)
    requires forall k | 0 < k < |more| :: MayStand(more, k)
    requires more != [] ==> !IsAnswer(more[0])
    requires more != [] && more[0].Sent? ==> log != [] && Clears(log[|log| - 1])
    ensures Orderly(log + more)
  {
    hide Clears, IsAnswer;
    var all := log + more;
    forall k | 0 <= k < |all|
      ensures MayStand(all, k)
    {
      if k < |log| {
        assert MayStand(log, k) && all[k] == log[k] && (0 < k ==> all[k - 1] == log[k - 1]);
      } else if k > |log| {
        assert MayStand(more, k - |log|) && all[k] == more[k - |log|] && all[k - 1] == more[k - |log| - 1];
      } else {
        assert all[k] == more[0] && (0 < k ==> all[k - 1] == log[k - 1]);
      }
    }
  }

  lemma JoinAccepted(log: seq<Signal>, more: seq<Signal>)
    requires AcceptedOnce(log)
    requires forall i, k | 0 <= i < k < |more| && more[i].Accepted? :: !more[k].Sent?
    requires (exists s :: s in more && s.Sent?) ==> !IsOut(log)
    ensures AcceptedOnce(log + more)
  {
    var all := log + more;
    forall i, k | 0 <= i < k < |all| && all[i].Accepted? && all[k].Sent?
      ensures exists j :: i < j < k && all[j].Created?
    {
      if k < |log| {
        var j :| i < j < k && log[j].Created?;
        assert all[j].Created?;
      } else if i < |log| {
        assert more[k - |log|] in more && log[i].Accepted?;
        var j :| i < j < |log| && log[j].Created?;
        assert all[j].Created?;
      } else {
        assert false;
      }
    }
  }

  /** What is out after more signals: accepted among them, or before and no new draft since. */
  lemma JoinOut(log: seq<Signal>, more: seq<Signal>)
    ensures IsOut(log + more) ==> Accepted in more || (IsOut(log) && Created !in more)
  {
    var all := log + more;
    if IsOut(all) && Accepted !in more {
      assert forall k | 0 <= k < |more| :: more[k] != Accepted;
      var i :| 0 <= i < |all| && all[i].Accepted? && forall j | i < j < |all| :: !all[j].Created?;
      if i >= |log| {
        assert false;
      }
      assert log[i].Accepted?;
      forall j | i < j < |log|
        ensures !log[j].Created?
      {
        assert all[j] == log[j];
      }
      forall j | 0 <= j < |more|
        ensures !more[j].Created?
      {
        assert all[|log| + j] == more[j];
      }
    }
  }

  /** How the record of an attempt and its signals belong together. */
  ghost predicate InStep(records: seq<Stored>, id: string, log: seq<Signal>) {
    forall r | r in records && r.base.attemptId == id ::
      && (Ready(r) ==> log != [] && Clears(log[|log| - 1]))
      && (IsOut(log) ==> r.base.postId.Some?)
  }

  /** One call of the attempt itself: its signals. */
  lemma OwnTurn(found: Option<Stored>, records: seq<Stored>, id: string, log: seq<Signal>, signals: seq<Signal>,
                stores: seq<Stored>)
    requires Orderly(log) && AcceptedOnce(log) && InStep(records, id, log) && SignalsOk(found, signals, stores)
    requires found.Some? ==> found.value in records && found.value.base.attemptId == id
    ensures Orderly(log + signals) && AcceptedOnce(log + signals)
  {
    hide Orderly, AcceptedOnce, Ready, Clears, IsOut, IsAnswer;
    JoinOrderly(log, signals);
    JoinAccepted(log, signals);
  }

  /** One call of the attempt itself: the record it leaves. */
  lemma OwnRecord(found: Option<Stored>, records: seq<Stored>, id: string, log: seq<Signal>, signals: seq<Signal>,
                  stores: seq<Stored>, x: Stored)
    requires InStep(records, id, log) && SignalsOk(found, signals, stores) && x.base.attemptId == id
    requires found.Some? ==> found.value in records && found.value.base.attemptId == id
    requires if stores == [] then x in records
             else x == stores[|stores| - 1]
                  && (found.Some? && found.value.base.postId.Some? ==> x.base.postId.Some?)
    ensures Ready(x) ==> log + signals != [] && Clears((log + signals)[|log + signals| - 1])
    ensures IsOut(log + signals) ==> x.base.postId.Some?
  {
    hide Ready, Clears, IsOut, IsAnswer;
    JoinOut(log, signals);
    if signals == [] {
      assert log + signals == log;
    } else {
      assert (log + signals)[|log + signals| - 1] == signals[|signals| - 1];
      assert signals == [Created] ==> Created in signals;
    }
  }

  /** One turn, seen from attempt `id`. */
  lemma TurnSignals(cfg: Config, records: seq<Stored>, turn: Turn, id: string, log: seq<Signal>)
    requires UniqueIds(records) && WellFormed(turn.call) && forall r | r in records :: RecordOk(cfg, r)
    requires Orderly(log) && AcceptedOnce(log) && InStep(records, id, log)
    ensures var result := CallStep(cfg, records, turn.call, turn.env);
            var more := if turn.call.attemptId == id then result.signals else [];
            Orderly(log + more) && AcceptedOnce(log + more) && InStep(result.records, id, log + more)
  {
    var found := RecordOf(records, turn.call.attemptId);
    var result, e := CallStep(cfg, records, turn.call, turn.env), EffectOf(cfg, found, turn.call, turn.env);
    assert result.signals == e.signals;
    assert forall r | r in records :: Sound(r.base);
    hide EffectOf, CallStep, Orderly, AcceptedOnce, RecordOk, Sound, ForcesReview, WellFormed, UniqueIds, Ready, Clears,
        IsOut, SignalsOk;
    TurnOk(cfg, records, turn);
    if turn.call.attemptId != id {
      assert log + [] == log;
    } else {
      CallSignals(cfg, found, turn.call, turn.env);
      forall x | x in result.records && x.base.attemptId == id
        ensures Ready(x) ==> log + e.signals != [] && Clears((log + e.signals)[|log + e.signals| - 1])
        ensures IsOut(log + e.signals) ==> x.base.postId.Some?
      {
        OwnRecord(found, records, id, log, e.signals, e.stores, x);
      }
      OwnTurn(found, records, id, log, e.signals, e.stores);
    }
  }

  lemma EmptyLog(id: string)
    ensures Orderly([]) && AcceptedOnce([]) && InStep([], id, [])
  {
  }

  lemma {:induction false} RunSignals(cfg: Config, turns: seq<Turn>, n: nat, id: string)
    requires WellFormedTurns(turns) && n <= |turns|
    ensures var log := LogOf(cfg, turns, n, id);
            Orderly(log) && AcceptedOnce(log) && InStep(RecordsAt(cfg, turns, n), id, log)
  {
    hide Orderly, AcceptedOnce, InStep, RecordOk, UniqueIds, CallStep, WellFormed;
    if n == 0 {
      EmptyLog(id);
    } else {
      RunSignals(cfg, turns, n - 1, id);
      RecordsAlwaysOk(cfg, turns, n - 1);
      TurnSignals(cfg, RecordsAt(cfg, turns, n - 1), turns[n - 1], id, LogOf(cfg, turns, n - 1, id));
    }
  }

  /**
   * An unknown outcome is never sent again blindly. In every run, directly before a publication stands a new draft, a
   * refusal, or a lookup that found nothing; the answer to a publication directly follows it, so after one
   * that was not answered the next signal is a lookup or a new draft.
   */
  lemma UnknownIsNeverResentBlindly(cfg: Config, turns: seq<Turn>, n: nat, id: string, k: nat)
    requires WellFormedTurns(turns) && n <= |turns| && k < |LogOf(cfg, turns, n, id)|
    ensures var log := LogOf(cfg, turns, n, id);
            && (log[k].Sent? ==>
                  0 < k
                  && (log[k - 1].Created? || log[k - 1].Refused?
                      || (log[k - 1].LookedUp?
                          && LookupEvent(log[k - 1].chain, log[k - 1].indexer) == Some(LookupMissing))))
            && (log[k].Accepted? || log[k].Refused? ==> 0 < k && log[k - 1].Sent?)
            && (log[k].Sent? && k + 1 < |log| && !(log[k + 1].Accepted? || log[k + 1].Refused?) ==>
                  log[k + 1].LookedUp? || log[k + 1].Created?)
  {
    hide LogOf, LookupEvent, InStep, AcceptedOnce, WellFormedTurns;
    RunSignals(cfg, turns, n, id);
    var log := LogOf(cfg, turns, n, id);
    assert MayStand(log, k) && (k + 1 < |log| ==> MayStand(log, k + 1));
  }

  // -------------------------------------------------------------------------
  // Refusals that leave something open
  // -------------------------------------------------------------------------

  /** A retry of the record publishes without a lookup of its own. */
  ghost predicate SendsAtOnce(cfg: Config, r: Stored, env: Env) {
    var signals := RetryEffect(cfg, r, env).signals;
    signals != [] && signals[0].Sent?
  }

  ghost predicate LooksNothingUp(signals: seq<Signal>) {
    forall s | s in signals :: !s.LookedUp?
  }

  /**
   * A refusal is not always final. A publication that may still land is sent again with no lookup in between exactly if
   * it failed while it was submitted, was classified as failed, and was not the only copy and reverted. All that a
   * sponsor did not answer in time is among that.
   */
  lemma ResentWhileOpenExactly(cfg: Config, r: Stored, env: Env, later: Env)
    requires Sound(r.base) && r.base.state == Submitting && r.base.koinosStatus == Pending
    requires r.text.Some? && r.text.value != "" && r.author.Some? && later.account == r.author
    requires AfterPublication(r, env).Some?
    ensures && MayLand(env.publish) && LooksNothingUp(PublishSignals(r, env))
            && SendsAtOnce(cfg, AfterPublication(r, env).value, later) <==>
            && env.publish.Failure? && env.publish.error.attempt.Some?
            && ClassifySubmitError(env.publish.error) == IsFailed
            && !(env.publish.error.cls == RevertedError && env.publish.error.alone)
  {
    var next := AfterPublication(r, env).value;
    if env.publish.Failure? && ClassifySubmitError(env.publish.error) == IsDuplicate {
      DuplicateLooksUp(r, env);
    } else {
      AfterPlainAnswer(r, env);
      hide AfterPublication, PublishEffect, ClassifySubmitError, Transition, MayLand;
      if env.publish.Failure? && ClassifySubmitError(env.publish.error) == IsFailed {
        FailedIsSent(cfg, next, later);
      } else {
        NotFailedIsNotSent(cfg, next, later);
      }
    }
  }

  lemma DuplicateLooksUp(r: Stored, env: Env)
    requires env.publish.Failure? && ClassifySubmitError(env.publish.error) == IsDuplicate
    requires AfterPublication(r, env).Some?
    ensures !LooksNothingUp(PublishSignals(r, env))
  {
    var signals := PublishSignals(r, env);
    assert LookupEvent(env.chainAfter, env.indexerAfter).Some?;
    hide LookupEvent, ClassifySubmitError, Transition, WithAttempt;
    assert |signals| == 3 && signals[2].LookedUp? && signals[2] in signals;
  }

  /** The Koinos side after an answer that is not a duplicate: done, unknown, or failed. */
  lemma AfterPlainAnswer(r: Stored, env: Env)
    requires Sound(r.base) && r.base.state == Submitting && r.base.koinosStatus == Pending
    requires AfterPublication(r, env).Some?
    requires !(env.publish.Failure? && ClassifySubmitError(env.publish.error) == IsDuplicate)
    ensures var next := AfterPublication(r, env).value;
            && Sound(next.base) && next.author == r.author && next.base.state != Draft
            && LooksNothingUp(PublishSignals(r, env))
            && (if env.publish.Failure? && ClassifySubmitError(env.publish.error) == IsFailed then
                  next.base.koinosStatus == SideFailed && next.text == r.text && next.base.state != ReconcileRequired
                else next.base.koinosStatus == Done || next.base.koinosStatus == SideUnknown)
  {
    hide Lower, LookupEvent;
  }

  lemma FailedIsSent(cfg: Config, r: Stored, env: Env)
    requires Sound(r.base) && r.base.koinosStatus == SideFailed && r.base.state != ReconcileRequired
    requires r.base.state != Draft && r.text.Some? && r.text.value != "" && r.author.Some? && env.account == r.author
    ensures SendsAtOnce(cfg, r, env)
  {
    FailedIsOffered(r, env);
    var prepared := r.(base := Transition(r.base, Retry, env.now));
    assert RetryPlan(r.base).koinos;
    hide Transition, Explain, AfterPublication, ProofEffect, LookupEvent, ClassifySubmitError;
    assert PublishEffect(cfg, prepared, env).signals == PublishSignals(prepared, env) + PublishRest(cfg, prepared, env);
  }

  ghost function PublishRest(cfg: Config, r: Stored, env: Env): seq<Signal> {
    var next := AfterPublication(r, env);
    if next.None? then [] else ProofEffect(cfg, next.value, env).signals
  }

  lemma FailedIsOffered(r: Stored, env: Env)
    requires Sound(r.base) && r.base.koinosStatus == SideFailed && r.base.state != ReconcileRequired
    requires r.base.state != Draft
    ensures RetryPublish in Explain(r, env.now)
  {
    hide NeedsProof;
  }

  lemma NotFailedIsNotSent(cfg: Config, r: Stored, env: Env)
    requires Sound(r.base) && r.base.state != Draft
    requires r.base.koinosStatus == Done || r.base.koinosStatus == SideUnknown
    ensures !SendsAtOnce(cfg, r, env)
  {
    hide Transition, LookupEvent, ResendEffect, ProofEffect, Settled, AdoptPendingTx;
    if RetryPublish in Explain(r, env.now) || r.base.state == OutcomeUnknown {
      RetryGate(r, env);
    }
  }

  /** Between an accepted publication of an attempt and the next publication stands a new draft under its id. */
  lemma AcceptedIsNeverResent(cfg: Config, turns: seq<Turn>, n: nat, id: string, i: nat, k: nat)
    requires WellFormedTurns(turns) && n <= |turns| && i < k < |LogOf(cfg, turns, n, id)|
    requires LogOf(cfg, turns, n, id)[i].Accepted? && LogOf(cfg, turns, n, id)[k].Sent?
    ensures exists j :: i < j < k && LogOf(cfg, turns, n, id)[j].Created?
  {
    hide LogOf, InStep, Orderly, WellFormedTurns;
    RunSignals(cfg, turns, n, id);
  }
}
