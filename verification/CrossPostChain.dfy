/**
 * The orchestrator and the chain together. An accepted publication is only handed over: it may land later,
 * never, or after an earlier one under the same key. Recorded post ids are always ids that were handed over
 * under the record's key; exactly when they must be the chain's is stated for every run.
 */
module CrossPostChain {
  import opened Wrappers
  import opened Reconcile
  import opened Queue
  import opened CrossPost
  import opened CrossPostRuns
  import opened CrossPostSignals

  // -------------------------------------------------------------------------
  // The chain
  // -------------------------------------------------------------------------

  /** A transaction handed to a node under an idempotency key. */
  datatype Flight = Flight(key: string, build: Build)

  /** The post of each key, and what may still land. */
  datatype World = World(posts: map<string, Build>, open: set<Flight>)

  /** Posts stay, a key gets at most one, and only what is under way lands; anything under way may be dropped. */
  ghost predicate Evolves(before: World, after: World, sent: set<Flight>) {
    && (forall k | k in before.posts :: k in after.posts && after.posts[k] == before.posts[k])
    && (forall k | k in after.posts && k !in before.posts :: Flight(k, after.posts[k]) in before.open + sent)
    && after.open <= before.open + sent
  }

  /** What a publication hands over. */
  function FlightsOf(s: Signal): set<Flight> {
    if s.Sent? && s.build.Some? then {Flight(s.key, s.build.value)} else {}
  }

  function SentBy(signals: seq<Signal>): set<Flight> {
    set s, f | s in signals && f in FlightsOf(s) :: f
  }

  /** Of that, what may still land: nothing of a publication that was finally refused. */
  function LandableBy(signals: seq<Signal>): set<Flight> {
    if Refused(true) in signals then {} else SentBy(signals)
  }

  /** An indexer hit is some post of the author that carries the id or the hash that was asked for. */
  ghost predicate IsHit(posts: map<string, Build>, s: Signal, postId: string)
    requires s.LookedUp?
  {
    exists k ::
      && k in posts && posts[k].postId == postId
      && (s.wantedId == Some(posts[k].postId) || s.wantedHash == Some(posts[k].contentHash))
  }

  /** A lookup tells the truth about some moment of the call. */
  ghost predicate TrueSignal(s: Signal, before: World, after: World) {
    s.LookedUp? ==>
      && (s.chain.Found? ==> s.key in after.posts && after.posts[s.key].postId == s.chain.postId)
      && (s.chain.NotFound? ==> s.key !in before.posts)
      && (s.indexer.Hit? ==> IsHit(after.posts, s, s.indexer.postId))
  }

  /**
   * One turn of the chain beside one call. The contract refuses a key that has a post, so a node accepts a publication
   * only against a state in which its key has none.
   */
  ghost predicate TrueTurn(signals: seq<Signal>, before: World, after: World) {
    && Evolves(before, after, LandableBy(signals))
    && (forall s | s in signals :: TrueSignal(s, before, after))
    && (Accepted in signals ==> forall s | s in signals && s.Sent? :: s.key !in before.posts)
  }

  /** `worlds[i]` is the chain before turn i. */
  ghost predicate ValidWorlds(cfg: Config, turns: seq<Turn>, worlds: seq<World>) {
    && WellFormedTurns(turns) && |worlds| == |turns| + 1
    && forall i | 0 <= i < |turns| :: TrueTurn(ResultAt(cfg, turns, i).signals, worlds[i], worlds[i + 1])
  }

  /** What was under way at the start or was handed over in the first n turns and may land. */
  ghost function UnderWay(cfg: Config, turns: seq<Turn>, start: World, n: nat): set<Flight>
    requires n <= |turns|
  {
    if n == 0 then start.open else UnderWay(cfg, turns, start, n - 1) + LandableBy(ResultAt(cfg, turns, n - 1).signals)
  }

  /** The same, with what was finally refused. */
  ghost function HandedTo(cfg: Config, turns: seq<Turn>, start: World, n: nat): set<Flight>
    requires n <= |turns|
  {
    if n == 0 then start.open else HandedTo(cfg, turns, start, n - 1) + SentBy(ResultAt(cfg, turns, n - 1).signals)
  }

  function Landed(posts: map<string, Build>): set<Flight> {
    set k | k in posts :: Flight(k, posts[k])
  }

  ghost function Known(cfg: Config, turns: seq<Turn>, start: World, n: nat): set<Flight>
    requires n <= |turns|
  {
    Landed(start.posts) + HandedTo(cfg, turns, start, n)
  }

  /** Transactions built for different keys carry different post ids and content hashes. */
  ghost predicate Distinct(flights: set<Flight>) {
    forall f, g | f in flights && g in flights ::
      f.build.postId == g.build.postId || f.build.contentHash == g.build.contentHash ==> f.key == g.key
  }

  lemma TurnAdds(before: World, after: World, sent: set<Flight>, known: set<Flight>)
    requires Evolves(before, after, sent) && Landed(before.posts) + before.open <= known
    ensures Landed(after.posts) + after.open <= known + sent
  {
    forall f | f in Landed(after.posts)
      ensures f in known + sent
    {
      var k :| k in after.posts && f == Flight(k, after.posts[k]);
      if k in before.posts {
        assert Flight(k, before.posts[k]) in Landed(before.posts);
      }
    }
  }

  /** All on the chain or under way was there at the start or was handed over in the run and not finally refused. */
  lemma {:induction false} ChainIsUnderWay(cfg: Config, turns: seq<Turn>, worlds: seq<World>, n: nat)
    requires ValidWorlds(cfg, turns, worlds) && n <= |turns|
    ensures Landed(worlds[n].posts) + worlds[n].open <= Landed(worlds[0].posts) + UnderWay(cfg, turns, worlds[0], n)
  {
    hide ResultAt, LandableBy, Landed, Evolves;
    if n != 0 {
      ChainIsUnderWay(cfg, turns, worlds, n - 1);
      assert TrueTurn(ResultAt(cfg, turns, n - 1).signals, worlds[n - 1], worlds[n]);
      TurnAdds(worlds[n - 1], worlds[n], LandableBy(ResultAt(cfg, turns, n - 1).signals),
               Landed(worlds[0].posts) + UnderWay(cfg, turns, worlds[0], n - 1));
    }
  }

  lemma {:induction false} UnderWayIsHandedTo(cfg: Config, turns: seq<Turn>, start: World, n: nat)
    requires n <= |turns|
    ensures UnderWay(cfg, turns, start, n) <= HandedTo(cfg, turns, start, n)
  {
    hide ResultAt, SentBy;
    if n != 0 {
      UnderWayIsHandedTo(cfg, turns, start, n - 1);
    }
  }

  /** Everything on the chain or under way was there at the start or was handed over in the run. */
  lemma ChainIsKnown(cfg: Config, turns: seq<Turn>, worlds: seq<World>, n: nat)
    requires ValidWorlds(cfg, turns, worlds) && n <= |turns|
    ensures Landed(worlds[n].posts) + worlds[n].open <= Known(cfg, turns, worlds[0], n)
  {
    ChainIsUnderWay(cfg, turns, worlds, n);
    UnderWayIsHandedTo(cfg, turns, worlds[0], n);
    hide ValidWorlds, Landed, UnderWay, HandedTo;
  }

  // -------------------------------------------------------------------------
  // What a call records, and why
  // -------------------------------------------------------------------------

  /** The id and hash are those of the record, or of what was handed over under the key. */
  ghost predicate Wanted(r: Stored, signals: seq<Signal>, key: string, id: Option<string>, hash: Option<string>) {
    || (id == r.expectedPostId && hash == r.contentHash)
    || (id.Some? && hash.Some? && Sent(key, Some(Build(id.value, hash.value))) in signals)
  }

  /** The post id a lookup found. */
  function FoundId(s: Signal): Option<string> {
    if !s.LookedUp? then None
    else
      match LookupEvent(s.chain, s.indexer)
      case Some(LookupFound(postId, _)) => Some(Lower(postId))
      case _ => None
  }

  /** The signal names the post id: handed over with it, or found. */
  function NamedId(s: Signal): Option<string> {
    if s.Sent? && s.build.Some? then Some(Lower(s.build.value.postId)) else FoundId(s)
  }

  ghost predicate PostFrom(r: Stored, signals: seq<Signal>, x: Stored) {
    x.base.postId == r.base.postId || exists s :: s in signals && NamedId(s).Some? && NamedId(s) == x.base.postId
  }

  /** All publications and lookups are under the key. */
  ghost predicate UnderKey(signals: seq<Signal>, key: string) {
    forall s | s in signals && (s.Sent? || s.LookedUp?) :: s.key == key
  }

  ghost predicate NoTraffic(signals: seq<Signal>) {
    forall s | s in signals :: !s.Sent? && !s.LookedUp?
  }

  /** What the record holds comes from the record before the call or from a signal under its key. */
  ghost predicate Explained(r: Stored, signals: seq<Signal>, x: Stored) {
    && Wanted(r, signals, x.base.idempotencyKey, x.expectedPostId, x.contentHash)
    && PostFrom(r, signals, x)
    && UnderKey(signals, x.base.idempotencyKey)
    && (r.base.state != Draft ==> x.base.idempotencyKey == r.base.idempotencyKey)
    && (x.base.state == Draft ==> NoTraffic(signals))
  }

  /** So does what a lookup asks the indexer for. */
  ghost predicate AsksFor(r: Stored, signals: seq<Signal>) {
    forall s | s in signals && s.LookedUp? :: Wanted(r, signals, s.key, s.wantedId, s.wantedHash)
  }

  ghost predicate Justified(r: Stored, e: Effect) {
    && (forall x | x in e.stores :: Explained(r, e.signals, x))
    && AsksFor(r, e.signals)
    && (r.base.state != Draft ==> UnderKey(e.signals, r.base.idempotencyKey))
  }

  lemma ProofJustified(cfg: Config, r: Stored, env: Env)
    ensures Justified(r, ProofEffect(cfg, r, env))
  {
  }

  /** Signals, a first record, and what follows from it. */
  lemma ThenJustified(r: Stored, before: seq<Signal>, first: Stored, rest: Effect)
    requires Justified(first, rest) && first.base.state != Draft
    requires first.expectedPostId == r.expectedPostId && first.contentHash == r.contentHash
    requires PostFrom(r, before, first) && UnderKey(before, first.base.idempotencyKey) && AsksFor(r, before)
    requires r.base.state != Draft ==> first.base.idempotencyKey == r.base.idempotencyKey
    requires forall x | x in rest.stores :: x.base.state != Draft
    ensures Justified(r, Behind(before, Then(first, rest)))
  {
    hide NamedId;
    var e := Behind(before, Then(first, rest));
    assert forall s :: s in e.signals <==> s in before || s in rest.signals;
    forall x | x in e.stores
      ensures Explained(r, e.signals, x)
    {
      if x != first {
        assert x in rest.stores;
        StillExplained(r, before, first, rest.signals, x);
      } else {
        assert PostFrom(r, e.signals, first);
      }
    }
  }

  lemma StillExplained(r: Stored, before: seq<Signal>, first: Stored, signals: seq<Signal>, x: Stored)
    requires Explained(first, signals, x) && first.base.state != Draft && x.base.state != Draft
    requires first.expectedPostId == r.expectedPostId && first.contentHash == r.contentHash
    requires PostFrom(r, before, first) && UnderKey(before, first.base.idempotencyKey)
    requires r.base.state != Draft ==> first.base.idempotencyKey == r.base.idempotencyKey
    ensures Explained(r, before + signals, x)
  {
    hide NamedId;
    assert forall s :: s in before + signals <==> s in before || s in signals;
  }

  /** The Koinos post id after an event: unchanged, accepted or found. */
  lemma PostAfter(base: Record, event: Event, at: int)
    ensures var next := Transition(base, event, at).postId;
            next == base.postId
            || (event.KoinosSucceeded? && next == Some(Lower(event.postId)))
            || (event.LookupFound? && next == Some(Lower(event.postId)))
  {
    hide Lower, DeriveState;
  }

  lemma AdoptionKeepsPost(r: Stored, current: Record)
    ensures AdoptPendingTx(r, current) == current.(koinosTxId := AdoptPendingTx(r, current).koinosTxId)
  {
  }

  /** The post id after a lookup is the old one or the one the lookup names. */
  lemma PostAfterLookup(base: Record, key: string, known: Stored, chain: ChainAnswer, indexer: IndexerAnswer, at: int)
    requires LookupEvent(chain, indexer).Some?
    ensures var signals := LookupSignals(key, known, chain, indexer);
            var next := Transition(base, LookupEvent(chain, indexer).value, at);
            && |signals| == 1 && signals[0].LookedUp?
            && (next.postId == base.postId || (NamedId(signals[0]).Some? && NamedId(signals[0]) == next.postId))
  {
    EventIsLookup(chain, indexer);
    PostAfter(base, LookupEvent(chain, indexer).value, at);
    hide Transition, Lower, LookupEvent;
  }

  /** The record after a publication. */
  lemma PublishedExplained(r: Stored, env: Env)
    requires AfterPublication(r, env).Some? && r.base.state != Draft
    ensures Explained(r, PublishSignals(r, env), AfterPublication(r, env).value)
    ensures AfterPublication(r, env).value.base.state != Draft
  {
    var signals, next := PublishSignals(r, env), AfterPublication(r, env).value;
    assert signals[0] == Sent(r.base.idempotencyKey, HandedOver(env.publish)) && signals[0] in signals;
    PublishedPost(r, env);
    assert UnderKey(signals, r.base.idempotencyKey) by {
      hide Lower, LookupEvent, WithAttempt;
    }
    PublishedKey(r, env);
    hide Answered, Lower, PublishSignals, LookupEvent, ClassifySubmitError, Sound;
  }

  lemma PublishedKey(r: Stored, env: Env)
    requires !env.publish.WorkerStops? && Answered(r, env).Some? && r.base.state != Draft
    ensures Answered(r, env).value.idempotencyKey == r.base.idempotencyKey && Answered(r, env).value.state != Draft
  {
    hide Transition, ClassifySubmitError, LookupEvent, WithAttempt;
    match env.publish {
      case Outcome(txId, postId, _) => Undrafted(r.base, KoinosSucceeded(txId, postId), env.now);
      case Failure(e) =>
        Undrafted(r.base, KoinosUnknown(Some(e.message)), env.now);
        Undrafted(r.base, KoinosFailed(e.message), env.now);
        if LookupEvent(env.chainAfter, env.indexerAfter).Some? {
          Undrafted(Transition(r.base, KoinosFailed(e.message), env.now),
                    LookupEvent(env.chainAfter, env.indexerAfter).value, env.now);
        }
    }
  }

  lemma Undrafted(base: Record, event: Event, at: int)
    requires base.state != Draft
    ensures var next := Transition(base, event, at); next.state != Draft && next.idempotencyKey == base.idempotencyKey
  {
    hide Lower;
  }

  lemma PublishedPost(r: Stored, env: Env)
    requires !env.publish.WorkerStops? && Answered(r, env).Some?
    ensures var signals, current := PublishSignals(r, env), Answered(r, env).value;
            current.postId == r.base.postId
            || exists s :: s in signals && NamedId(s).Some? && NamedId(s) == current.postId
  {
    var signals := PublishSignals(r, env);
    hide Transition, Lower, LookupEvent, ClassifySubmitError, WithAttempt;
    match env.publish {
      case Outcome(txId, postId, contentHash) =>
        PostAfter(r.base, KoinosSucceeded(txId, postId), env.now);
        assert signals[0] in signals;
      case Failure(e) =>
        PostAfter(r.base, KoinosFailed(e.message), env.now);
        PostAfter(r.base, KoinosUnknown(Some(e.message)), env.now);
        if ClassifySubmitError(e) == IsDuplicate {
          var failed := Transition(r.base, KoinosFailed(e.message), env.now);
          PostAfterLookup(failed, r.base.idempotencyKey, WithAttempt(r, e), env.chainAfter, env.indexerAfter, env.now);
          assert signals[2] in signals;
        }
    }
  }

  lemma PublicationJustified(cfg: Config, r: Stored, env: Env)
    requires r.base.state != Draft
    ensures Justified(r, PublishEffect(cfg, r, env))
    ensures forall x | x in PublishEffect(cfg, r, env).stores :: x.base.state != Draft
  {
    var signals, e := PublishSignals(r, env), PublishEffect(cfg, r, env);
    assert signals + [] == signals;
    PublicationAsks(r, env);
    if AfterPublication(r, env).Some? {
      PublishedExplained(r, env);
      var next := AfterPublication(r, env).value;
      forall x | x in e.stores
        ensures Explained(r, signals, x) && x.base.state != Draft
      {
        ProofExplained(cfg, r, signals, next, env, x);
      }
    }
    hide Explained, AsksFor, UnderKey, PublishSignals, AfterPublication, ProofEffect;
  }

  lemma PublicationAsks(r: Stored, env: Env)
    ensures AsksFor(r, PublishSignals(r, env)) && UnderKey(PublishSignals(r, env), r.base.idempotencyKey)
  {
    hide Lower, LookupEvent, ClassifySubmitError;
  }

  /** Recording a proof changes nothing that needs an explanation. */
  lemma ProofExplained(cfg: Config, r: Stored, signals: seq<Signal>, next: Stored, env: Env, x: Stored)
    requires Explained(r, signals, next) && (x == next || x in ProofEffect(cfg, next, env).stores)
    ensures Explained(r, signals, x) && x.base.state == next.base.state
  {
    hide NamedId, NoTraffic, UnderKey;
  }

  lemma ConfirmJustified(cfg: Config, r: Stored, audience: Option<nat>, env: Env)
    requires RecordOk(cfg, r)
    ensures Justified(r, ConfirmEffect(cfg, r, audience, env))
  {
    if r.base.state == Draft && env.account.Some? && !(r.author.Some? && r.author != env.account) {
      var prepared := Prepared(cfg, r, env.account.value, audience, env.now);
      assert prepared.base.state != Draft && prepared.base.postId == r.base.postId;
      hide RecordOk, PublishEffect, Prepared, Justified;
      PublicationJustified(cfg, prepared, env);
      var e := PublishEffect(cfg, prepared, env);
      ThenJustified(r, [], prepared, e);
      assert [] + e.signals == e.signals;
    }
  }

  /** A retry of the Koinos side, behind what was looked up before. */
  lemma ResendJustified(cfg: Config, r: Stored, before: seq<Signal>, current: Record, env: Env)
    requires r.base.state != Draft && current.state != Draft && current.idempotencyKey == r.base.idempotencyKey
    requires PostFrom(r, before, r.(base := current)) && UnderKey(before, r.base.idempotencyKey) && AsksFor(r, before)
    ensures Justified(r, Behind(before, ResendEffect(cfg, r, current, env)))
  {
    var prepared := r.(base := Transition(current, Retry, env.now));
    RetryKeepsPost(current, env.now);
    assert prepared.base.state != Draft && prepared.base.idempotencyKey == current.idempotencyKey;
    hide PublishEffect, Justified, Transition, UnderKey, AsksFor;
    var rest := if !RetryPlan(current).koinos then Effect([], [], Returned(prepared))
    else if prepared.text.None? || prepared.text.value == "" then Reject(NoText)
    else PublishEffect(cfg, prepared, env);
    PublicationJustified(cfg, prepared, env);
    NothingJustified(prepared, rest);
    ThenJustified(r, before, prepared, rest);
  }

  lemma NothingJustified(r: Stored, e: Effect)
    ensures e.stores == [] && e.signals == [] ==> Justified(r, e)
  {
  }

  /** A completed lookup of the record, settled. */
  lemma SettledJustified(cfg: Config, r: Stored, before: seq<Signal>, known: Stored, current: Record, env: Env)
    requires r.base.state != Draft && current.state != Draft && current.idempotencyKey == r.base.idempotencyKey
    requires known.expectedPostId == r.expectedPostId && known.contentHash == r.contentHash
    requires PostFrom(r, before, r.(base := current)) && UnderKey(before, r.base.idempotencyKey) && AsksFor(r, before)
    ensures var next := Settled(known, current); Justified(r, Behind(before, Then(next, ProofEffect(cfg, next, env))))
  {
    var next := Settled(known, current);
    ProofJustified(cfg, next, env);
    ProofStates(cfg, next, env);
    hide Justified, UnderKey, AsksFor, ProofEffect;
    ThenJustified(r, before, next, ProofEffect(cfg, next, env));
  }

  lemma ProofStates(cfg: Config, r: Stored, env: Env)
    ensures forall x | x in ProofEffect(cfg, r, env).stores :: x.base.state == r.base.state
  {
  }

  /** What one lookup of the record does to it. */
  lemma LookedJustified(r: Stored, start: Record, env: Env)
    requires r.base.state != Draft && start.state != Draft && start.idempotencyKey == r.base.idempotencyKey
    requires start.postId == r.base.postId && LookupEvent(env.chain, env.indexer).Some?
    ensures var before := LookupSignals(r.base.idempotencyKey, r, env.chain, env.indexer);
            var current := Looked(r, start, env).value;
            && current.state != Draft && current.idempotencyKey == r.base.idempotencyKey
            && PostFrom(r, before, r.(base := current)) && UnderKey(before, r.base.idempotencyKey) && AsksFor(r, before)
  {
    var before := LookupSignals(r.base.idempotencyKey, r, env.chain, env.indexer);
    var event := LookupEvent(env.chain, env.indexer).value;
    PostAfterLookup(start, r.base.idempotencyKey, r, env.chain, env.indexer, env.now);
    AdoptionKeepsPost(r, Transition(start, event, env.now));
    KeyIsKept(start, event, env.now);
    assert Transition(start, event, env.now).state != Draft by {
      hide Lower, LookupEvent;
    }
    assert before[0] in before;
    hide Transition, LookupEvent, AdoptPendingTx, NamedId;
  }

  lemma RetryJustified(cfg: Config, r: Stored, env: Env)
    requires RecordOk(cfg, r)
    ensures Justified(r, RetryEffect(cfg, r, env))
  {
    assert r.base.state == Draft ==> RetryPublish !in Explain(r, env.now);
    var before := LookupSignals(r.base.idempotencyKey, r, env.chain, env.indexer);
    hide RecordOk, Explain, Justified, ResendEffect, ProofEffect, Settled;
    NothingJustified(r, RetryEffect(cfg, r, env));
    if r.base.state != Draft {
      hide LookupEvent, Transition, AdoptPendingTx, PostFrom, UnderKey, AsksFor;
      if r.base.koinosStatus != SideUnknown {
        NothingBefore(r);
        ResendJustified(cfg, r, [], r.base, env);
        assert Behind([], ResendEffect(cfg, r, r.base, env)) == ResendEffect(cfg, r, r.base, env);
      } else if LookupEvent(env.chain, env.indexer).Some? {
        LookedJustified(r, r.base, env);
        var current := Looked(r, r.base, env).value;
        SettledJustified(cfg, r, before, r, current, env);
        ResendJustified(cfg, r, before, current, env);
      } else {
        assert before + [] == [];
      }
    }
  }

  lemma NothingBefore(r: Stored)
    ensures PostFrom(r, [], r) && UnderKey([], r.base.idempotencyKey) && AsksFor(r, [])
  {
  }

  lemma ReconcileJustified(cfg: Config, r: Stored, env: Env)
    requires RecordOk(cfg, r)
    ensures Justified(r, ReconcileEffect(cfg, r, env))
  {
    NothingJustified(r, ReconcileEffect(cfg, r, env));
    if r.base.state != Draft {
      var account := r.author.value;
      var reopened := Reopened(cfg, r, account, env.now);
      ReopenedOk(cfg, r, account, env.now);
      assert reopened.state != Draft && reopened.idempotencyKey == r.base.idempotencyKey;
      var before := LookupSignals(r.base.idempotencyKey, r, env.chain, env.indexer);
      hide RecordOk, Justified, ProofEffect, Settled, LookupEvent, Transition, AdoptPendingTx, PostFrom, UnderKey,
          AsksFor, Reopened, LaterBase, Sound;
      if LookupEvent(env.chain, env.indexer).Some? {
        LookedJustified(r, reopened, env);
        SettledJustified(cfg, r, before, r.(author := Some(account)), Looked(r, reopened, env).value, env);
      } else {
        assert before + [] == [];
      }
    }
  }

  lemma MarkHostJustified(cfg: Config, r: Stored, posted: bool, detail: string, env: Env)
    ensures Justified(r, MarkHostEffect(cfg, r, posted, detail, env))
  {
    NothingJustified(r, MarkHostEffect(cfg, r, posted, detail, env));
    if r.base.state != Draft {
      var event := if posted then HostSucceeded(detail) else HostFailed(detail);
      var next := r.(base := Transition(r.base, event, env.now));
      PostAfter(r.base, event, env.now);
      KeyIsKept(r.base, event, env.now);
      assert next.base.state != Draft by {
        hide Lower;
      }
      ProofJustified(cfg, next, env);
      ProofStates(cfg, next, env);
      NothingBefore(r);
      hide Transition, Justified, ProofEffect, AsksFor;
      ThenJustified(r, [], next, ProofEffect(cfg, next, env));
    }
  }

  /** Every record a call stores is explained by the record before it and the signals of the call. */
  lemma CallJustified(cfg: Config, r: Stored, call: Call, env: Env)
    requires RecordOk(cfg, r)
    ensures Justified(r, EffectOf(cfg, Some(r), call, env))
  {
    hide RecordOk, Justified, ConfirmEffect, RetryEffect, ReconcileEffect, MarkHostEffect, ProofEffect, NeedsProof;
    NothingJustified(r, EffectOf(cfg, Some(r), call, env));
    match call {
      case ConfirmDraft(_, choice) => ConfirmJustified(cfg, r, choice, env);
      case RetryAttempt(_) => RetryJustified(cfg, r, env);
      case ReconcileAttempt(_) => ReconcileJustified(cfg, r, env);
      case MarkHost(_, posted, detail) => MarkHostJustified(cfg, r, posted, detail, env);
      case RecordProofOf(_) => ProofJustified(cfg, r, env);
      case _ =>
    }
  }
}
