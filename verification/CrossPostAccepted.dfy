/**
 * Accepted is not landed. Exactly when an accepted post id must be the chain's, for the chain as it is at
 * the call and for what a client has seen of it; and what a lookup of an accepted record leads to.
 */
module CrossPostAccepted {
  import opened Wrappers
  import opened Reconcile
  import opened Queue
  import opened CrossPost
  import opened CrossPostRuns
  import opened CrossPostSignals
  import opened CrossPostChain
  import opened CrossPostLanding

  /** No other id is the key's post or may still become it. */
  ghost predicate Unrivalled(world: World, key: string, postId: string) {
    RightAbout(world, key, postId) && OnlyOne(world.open, key, postId)
  }

  // -------------------------------------------------------------------------
  // The call
  // -------------------------------------------------------------------------

  ghost predicate IsMiss(s: Signal) {
    s.LookedUp? && LookupEvent(s.chain, s.indexer) == Some(LookupMissing)
  }

  /** Signals that end with an accepted publication: nothing else was sent, and a lookup before it found nothing. */
  ghost predicate IsAcceptance(signals: seq<Signal>, key: string, build: Build) {
    || signals == [Sent(key, Some(build)), Accepted]
    || (|signals| == 3 && IsMiss(signals[0]) && signals[1..] == [Sent(key, Some(build)), Accepted])
  }

  /** What an accepted publication sends, and the record it leaves. */
  ghost predicate Accepts(r: Stored, env: Env, e: Effect, key: string) {
    && env.publish.Outcome?
    && IsAcceptance(e.signals, key, Build(env.publish.postId, env.publish.contentHash))
    && Last(r, e.stores).base.postId == Some(Lower(env.publish.postId))
  }

  lemma PublicationAccepted(cfg: Config, r: Stored, env: Env)
    requires Sound(r.base) && r.base.postId.None? && r.base.state != ReconcileRequired
    requires Accepted in PublishEffect(cfg, r, env).signals
    ensures Accepts(r, env, PublishEffect(cfg, r, env), r.base.idempotencyKey)
    ensures |PublishEffect(cfg, r, env).signals| == 2
  {
    var e := PublishEffect(cfg, r, env);
    assert e.signals == PublishSignals(r, env);
    hide LookupEvent, ClassifySubmitError, Lower, DeriveState;
    assert env.publish.Outcome?;
    var next := AfterPublication(r, env).value;
    assert next.base.postId == Some(Lower(env.publish.postId));
    hide AfterPublication, ProofEffect, PublishSignals;
    ProofKeeps(cfg, next, env);
    LastOfThen(r, next, ProofEffect(cfg, next, env));
    assert PublishSignals(r, env) == [Sent(r.base.idempotencyKey, HandedOver(env.publish)), Accepted] by {
      OutcomeSignals(r, env);
    }
  }

  lemma OutcomeSignals(r: Stored, env: Env)
    requires env.publish.Outcome?
    ensures PublishSignals(r, env) == [Sent(r.base.idempotencyKey, HandedOver(env.publish)), Accepted]
  {
  }

  lemma ResendAccepted(cfg: Config, r: Stored, current: Record, env: Env)
    requires Sound(current) && current.state != ReconcileRequired && current.state != Draft
    requires current.koinosStatus != SideUnknown
    requires Accepted in ResendEffect(cfg, r, current, env).signals
    ensures Accepts(r, env, ResendEffect(cfg, r, current, env), current.idempotencyKey)
    ensures |ResendEffect(cfg, r, current, env).signals| == 2
  {
    var prepared := r.(base := Transition(current, Retry, env.now));
    StepIsSound(current, Retry, env.now);
    RetryKeepsPost(current, env.now);
    KeyIsKept(current, Retry, env.now);
    assert prepared.base.postId.None?;
    hide Transition, PublishEffect, Sound, LookupEvent, IsAcceptance;
    PublicationAccepted(cfg, prepared, env);
    LastOfThen(r, prepared, PublishEffect(cfg, prepared, env));
  }

  /** An accepted publication of any call. */
  lemma CallAccepted(cfg: Config, r: Stored, call: Call, env: Env)
    requires RecordOk(cfg, r) && Accepted in EffectOf(cfg, Some(r), call, env).signals
    ensures exists key :: Accepts(r, env, EffectOf(cfg, Some(r), call, env), key)
  {
    var e := EffectOf(cfg, Some(r), call, env);
    assert Sound(r.base);
    hide RecordOk, ConfirmEffect, RetryEffect, ReconcileEffect, MarkHostEffect, ProofEffect, NeedsProof, Accepts, Sound;
    match call {
      case ConfirmDraft(_, choice) => ConfirmAccepted(cfg, r, choice, env);
      case RetryAttempt(_) => RetryAccepted(cfg, r, env);
      case ReconcileAttempt(_) => LookupsSendNothing(cfg, r, env);
      case MarkHost(_, posted, detail) => HostSendsNothing(cfg, r, posted, detail, env);
      case _ =>
    }
  }

  lemma LookupsSendNothing(cfg: Config, r: Stored, env: Env)
    ensures forall s | s in ReconcileEffect(cfg, r, env).signals :: s.LookedUp?
  {
    hide Transition, LookupEvent, Reopened, Settled, AdoptPendingTx;
  }

  lemma ConfirmAccepted(cfg: Config, r: Stored, audience: Option<nat>, env: Env)
    requires Sound(r.base) && Accepted in ConfirmEffect(cfg, r, audience, env).signals
    ensures exists key :: Accepts(r, env, ConfirmEffect(cfg, r, audience, env), key)
  {
    var prepared := Prepared(cfg, r, env.account.value, audience, env.now);
    assert Sound(prepared.base) && prepared.base.postId.None? && prepared.base.state != ReconcileRequired;
    hide PublishEffect, Prepared, Sound, IsAcceptance;
    PublicationAccepted(cfg, prepared, env);
    LastOfThen(r, prepared, PublishEffect(cfg, prepared, env));
    assert Accepts(r, env, ConfirmEffect(cfg, r, audience, env), prepared.base.idempotencyKey);
  }

  lemma RetryAccepted(cfg: Config, r: Stored, env: Env)
    requires Sound(r.base) && Accepted in RetryEffect(cfg, r, env).signals
    ensures exists key :: Accepts(r, env, RetryEffect(cfg, r, env), key)
  {
    hide Explain, Transition, LookupEvent, ResendEffect, ProofEffect, Settled, AdoptPendingTx, Sound, Accepts;
    RetryGate(r, env);
    if r.base.koinosStatus != SideUnknown {
      ResendAccepted(cfg, r, r.base, env);
      assert Accepts(r, env, RetryEffect(cfg, r, env), r.base.idempotencyKey);
    } else {
      var before := LookupSignals(r.base.idempotencyKey, r, env.chain, env.indexer);
      assert LookupEvent(env.chain, env.indexer).Some?;
      LookedSound(r, env);
      var current := Looked(r, r.base, env).value;
      assert !(current.koinosStatus == Done || current.state == ReconcileRequired);
      ResendAccepted(cfg, r, current, env);
      BehindAMiss(r, env, before, ResendEffect(cfg, r, current, env), current.idempotencyKey);
      assert Accepts(r, env, RetryEffect(cfg, r, env), current.idempotencyKey);
    }
  }

  lemma BehindAMiss(r: Stored, env: Env, before: seq<Signal>, e: Effect, key: string)
    requires |before| == 1 && IsMiss(before[0]) && Accepts(r, env, e, key) && |e.signals| == 2
    ensures Accepts(r, env, Behind(before, e), key)
  {
    assert (before + e.signals)[1..] == e.signals;
  }

  /** Turn n hands `build` over under `key` and the node accepts it. */
  ghost predicate AcceptedAt(cfg: Config, turns: seq<Turn>, n: nat, key: string, build: Build)
    requires n < |turns|
  {
    IsAcceptance(ResultAt(cfg, turns, n).signals, key, build)
  }

  /** Every turn in which a node accepts a publication is of this form, and leaves the accepted id on the record. */
  lemma EveryAcceptance(cfg: Config, turns: seq<Turn>, n: nat)
    requires WellFormedTurns(turns) && n < |turns| && Accepted in ResultAt(cfg, turns, n).signals
    ensures exists key, build :: AcceptedAt(cfg, turns, n, key, build)
  {
    RecordsAlwaysOk(cfg, turns, n);
    var found, call, env := FoundAt(cfg, turns, n), turns[n].call, turns[n].env;
    assert ResultAt(cfg, turns, n).signals == EffectOf(cfg, found, call, env).signals;
    assert found.Some? ==> RecordOk(cfg, found.value);
    hide RecordOk, RecordsAt, EffectOf, IsAcceptance, SignalsOk, ResultAt, UniqueIds, Sound;
    NothingFoundNothingSent(cfg, call, env);
    CallAccepted(cfg, found.value, call, env);
    var key :| Accepts(found.value, env, EffectOf(cfg, found, call, env), key);
    assert AcceptedAt(cfg, turns, n, key, Build(env.publish.postId, env.publish.contentHash));
  }

  lemma NothingFoundNothingSent(cfg: Config, call: Call, env: Env)
    ensures forall s | s in EffectOf(cfg, None, call, env).signals :: s.Created?
  {
  }

  /** The record after an accepted publication holds its id, under the key it was sent with. */
  lemma AcceptedIsRecorded(cfg: Config, turns: seq<Turn>, n: nat, key: string, build: Build, x: Stored)
    requires WellFormedTurns(turns) && n < |turns| && AcceptedAt(cfg, turns, n, key, build)
    requires x in RecordsAt(cfg, turns, n + 1) && x.base.attemptId == turns[n].call.attemptId
    ensures x.base.postId == Some(Lower(build.postId)) && x.base.idempotencyKey == key && x.author.Some?
    ensures key == cfg.keyOf(x.author.value, x.base.attemptId)
  {
    hide EffectOf, ResultAt, RecordsAt, UniqueIds, Accepts, IsAcceptance, RecordOk, WellFormedTurns;
    var found, call, env := FoundAt(cfg, turns, n), turns[n].call, turns[n].env;
    AcceptingRecord(cfg, turns, n, key, build);
    AcceptedMembers(cfg, turns, n, x);
    AcceptedEffect(cfg, found.value, call, env, key, build);
    RecordsAlwaysOk(cfg, turns, n + 1);
    KeyOfRecord(cfg, x);
  }

  lemma KeyOfRecord(cfg: Config, x: Stored)
    requires RecordOk(cfg, x) && x.base.state != Draft
    ensures x.author.Some? && x.base.idempotencyKey == cfg.keyOf(x.author.value, x.base.attemptId)
  {
  }

  /** A turn with an accepted publication starts from a record of its attempt. */
  lemma AcceptingRecord(cfg: Config, turns: seq<Turn>, n: nat, key: string, build: Build)
    requires WellFormedTurns(turns) && n < |turns| && AcceptedAt(cfg, turns, n, key, build)
    ensures var found, call, env := FoundAt(cfg, turns, n), turns[n].call, turns[n].env;
            found.Some? && RecordOk(cfg, found.value)
            && IsAcceptance(EffectOf(cfg, found, call, env).signals, key, build)
  {
    RecordsAlwaysOk(cfg, turns, n);
    var found, call, env := FoundAt(cfg, turns, n), turns[n].call, turns[n].env;
    assert ResultAt(cfg, turns, n).signals == EffectOf(cfg, found, call, env).signals;
    hide EffectOf, RecordOk, RecordsAt, UniqueIds, IsAcceptance;
    AcceptanceSends(EffectOf(cfg, found, call, env).signals, key, build);
    NothingFoundNothingSent(cfg, call, env);
  }

  /** The record a call with an accepted publication stores last. */
  lemma AcceptedEffect(cfg: Config, r: Stored, call: Call, env: Env, key: string, build: Build)
    requires RecordOk(cfg, r) && IsAcceptance(EffectOf(cfg, Some(r), call, env).signals, key, build)
    ensures var stores := EffectOf(cfg, Some(r), call, env).stores;
            && stores != []
            && var x := stores[|stores| - 1];
               x.base.postId == Some(Lower(build.postId)) && x.base.idempotencyKey == key && x.base.state != Draft
  {
    var e := EffectOf(cfg, Some(r), call, env);
    assert Sound(r.base);
    hide EffectOf, SignalsOk, Sound, Justified, RecordOk;
    AcceptanceSends(e.signals, key, build);
    CallAccepted(cfg, r, call, env);
    var key' :| Accepts(r, env, e, key');
    SameAcceptance(e.signals, key, build, key', Build(env.publish.postId, env.publish.contentHash));
    CallSignals(cfg, Some(r), call, env);
    SentStores(Some(r), e.signals, e.stores);
    CallJustified(cfg, r, call, env);
    JustifiedKey(r, e, Sent(key, Some(build)), e.stores[|e.stores| - 1]);
  }

  lemma SentStores(found: Option<Stored>, signals: seq<Signal>, stores: seq<Stored>)
    requires SignalsOk(found, signals, stores) && signals != []
    ensures stores != []
  {
  }

  lemma AcceptanceSends(signals: seq<Signal>, key: string, build: Build)
    requires IsAcceptance(signals, key, build)
    ensures Sent(key, Some(build)) in signals && Accepted in signals
    ensures SentBy(signals) == {Flight(key, build)}
    ensures forall s | s in signals && s.LookedUp? :: IsMiss(s)
  {
    hide LookupEvent;
    var s := Sent(key, Some(build));
    assert signals[|signals| - 2] == s && signals[|signals| - 1] == Accepted;
    assert forall t | t in signals :: t == s || t == Accepted || (t.LookedUp? && IsMiss(t)) by {
      if |signals| == 3 {
        assert signals == [signals[0]] + signals[1..];
      }
    }
    assert Flight(key, build) in FlightsOf(s);
    assert Flight(key, build) in SentBy(signals);
  }

  lemma SameAcceptance(signals: seq<Signal>, key: string, build: Build, key': string, build': Build)
    requires IsAcceptance(signals, key, build) && IsAcceptance(signals, key', build')
    ensures key == key' && build == build'
  {
    hide LookupEvent;
    assert signals[|signals| - 2] == Sent(key, Some(build));
    assert signals[|signals| - 2] == Sent(key', Some(build'));
  }

  /** The record of the attempt after a turn is the last one stored. */
  lemma AcceptedMembers(cfg: Config, turns: seq<Turn>, n: nat, x: Stored)
    requires WellFormedTurns(turns) && n < |turns|
    requires x in RecordsAt(cfg, turns, n + 1) && x.base.attemptId == turns[n].call.attemptId
    ensures var stores := EffectOf(cfg, FoundAt(cfg, turns, n), turns[n].call, turns[n].env).stores;
            stores != [] ==> x == stores[|stores| - 1]
  {
    hide RecordOk, EffectOf, UniqueIds, CallStep, Later, ForcesReview, WellFormed;
    RecordsAlwaysOk(cfg, turns, n);
    TurnOk(cfg, RecordsAt(cfg, turns, n), turns[n]);
  }

  // -------------------------------------------------------------------------
  // Exactly when the accepted id must be the chain's
  // -------------------------------------------------------------------------

  lemma UnrivalledStays(before: World, after: World, sent: set<Flight>, key: string, postId: string)
    requires Evolves(before, after, sent) && Unrivalled(before, key, postId) && OnlyOne(sent, key, postId)
    ensures Unrivalled(after, key, postId)
  {
    hide Lower;
    if key in after.posts && key !in before.posts {
      assert Flight(key, after.posts[key]) in before.open + sent;
    }
  }

  /** The chain with one more post, and nothing under way. */
  function Landing(world: World, f: Flight): World {
    World(world.posts[f.key := f.build], {})
  }

  /** Beside an accepted publication anything that was under way may land instead. */
  lemma RivalMayLand(signals: seq<Signal>, before: World, key: string, build: Build, f: Flight)
    requires IsAcceptance(signals, key, build) && f in before.open && f.key == key && key !in before.posts
    requires forall s | s in signals :: s.LookedUp? ==> s.key !in before.posts
    ensures TrueTurn(signals, before, Landing(before, f))
  {
    AcceptanceSends(signals, key, build);
    var after := Landing(before, f);
    forall s | s in signals
      ensures TrueSignal(s, before, after)
    {
      if s.LookedUp? {
        MissSaysNothing(s);
      }
    }
    AcceptanceKeys(signals, key, build);
    hide IsAcceptance, TrueSignal, SentBy, IsMiss;
  }

  lemma AcceptanceKeys(signals: seq<Signal>, key: string, build: Build)
    requires IsAcceptance(signals, key, build)
    ensures forall s | s in signals && s.Sent? :: s.key == key
  {
    hide LookupEvent;
    if |signals| == 3 {
      assert signals == [signals[0]] + signals[1..];
    }
  }

  lemma MissSaysNothing(s: Signal)
    requires IsMiss(s)
    ensures s.chain.NotFound? && !s.indexer.Hit?
  {
    hide Lower;
  }

  /**
   * An accepted id must be the key's post, whatever the chain does next, if and only if no other id is under way under
   * the key.
   */
  lemma AcceptedIdExactly(cfg: Config, turns: seq<Turn>, worlds: seq<World>, n: nat, key: string, build: Build)
    requires ValidWorlds(cfg, turns, worlds) && n < |turns| && AcceptedAt(cfg, turns, n, key, build)
    ensures var signals := ResultAt(cfg, turns, n).signals;
            (forall after | TrueTurn(signals, worlds[n], after) :: RightAbout(after, key, Lower(build.postId))) <==>
            OnlyOne(worlds[n].open, key, Lower(build.postId))
  {
    var signals, before, postId := ResultAt(cfg, turns, n).signals, worlds[n], Lower(build.postId);
    assert TrueTurn(signals, before, worlds[n + 1]);
    hide ResultAt, ValidWorlds, IsAcceptance, Lower, Evolves, TrueSignal;
    AcceptanceSends(signals, key, build);
    if OnlyOne(before.open, key, postId) {
      forall after | TrueTurn(signals, before, after)
        ensures RightAbout(after, key, postId)
      {
        UnrivalledStays(before, after, LandableBy(signals), key, postId);
      }
    } else {
      var f :| f in before.open && f.key == key && Lower(f.build.postId) != postId;
      LookupsMissed(signals, before, worlds[n + 1], key, build);
      RivalMayLand(signals, before, key, build, f);
      assert !RightAbout(Landing(before, f), key, postId);
    }
  }

  lemma LookupsMissed(signals: seq<Signal>, before: World, after: World, key: string, build: Build)
    requires TrueTurn(signals, before, after) && IsAcceptance(signals, key, build)
    ensures forall s | s in signals && s.LookedUp? :: s.key !in before.posts
  {
    AcceptanceSends(signals, key, build);
    forall s | s in signals && s.LookedUp?
      ensures s.key !in before.posts
    {
      MissSaysNothing(s);
      assert TrueSignal(s, before, after);
    }
  }

  // -------------------------------------------------------------------------
  // For the rest of the run
  // -------------------------------------------------------------------------

  /** Keys of different attempts differ (they are hashes of author and attempt id). */
  ghost predicate KeysDiffer(cfg: Config) {
    forall a, b, i, j :: cfg.keyOf(a, i) == cfg.keyOf(b, j) ==> i == j
  }

  /** From turn n + 1 to m the attempt's record is there and holds a post id. */
  ghost predicate Kept(cfg: Config, turns: seq<Turn>, n: nat, m: nat, id: string)
    requires m <= |turns|
  {
    forall i | n < i <= m ::
      RecordOf(RecordsAt(cfg, turns, i), id).Some? && RecordOf(RecordsAt(cfg, turns, i), id).value.base.postId.Some?
  }

  /** What a turn sends goes out under the key of its own attempt, which has no post id yet. */
  lemma SentUnderOwnKey(cfg: Config, turns: seq<Turn>, n: nat, s: Signal)
    requires WellFormedTurns(turns) && n < |turns| && s in ResultAt(cfg, turns, n).signals && s.Sent?
    ensures FoundAt(cfg, turns, n).Some? && FoundAt(cfg, turns, n).value.base.postId.None?
    ensures exists author :: s.key == cfg.keyOf(author, turns[n].call.attemptId)
  {
    RecordsAlwaysOk(cfg, turns, n);
    var found, call, env := FoundAt(cfg, turns, n), turns[n].call, turns[n].env;
    var e := EffectOf(cfg, found, call, env);
    assert ResultAt(cfg, turns, n).signals == e.signals;
    assert found.Some? ==> RecordOk(cfg, found.value) && Sound(found.value.base);
    assert WellFormed(call);
    hide EffectOf, ResultAt, RecordsAt, UniqueIds, Sound, Later, ForcesReview, Justified, WellFormedTurns, WellFormed;
    CallSignals(cfg, found, call, env);
    SentNeedsRecord(found, e.signals, e.stores, s);
    CallJustified(cfg, found.value, call, env);
    CallOk(cfg, found, call, env);
    var x := e.stores[|e.stores| - 1];
    assert x in e.stores && RecordOk(cfg, x);
    JustifiedKey(found.value, e, s, x);
    assert s.key == cfg.keyOf(x.author.value, call.attemptId);
  }

  lemma SentNeedsRecord(found: Option<Stored>, signals: seq<Signal>, stores: seq<Stored>, s: Signal)
    requires SignalsOk(found, signals, stores) && s in signals && s.Sent?
    ensures stores != [] && found.Some? && found.value.base.postId.None?
  {
    hide Ready, Clears, MayStand;
  }

  /** While the attempt keeps its post id nothing is sent under its key. */
  lemma NothingMoreIsSent(cfg: Config, turns: seq<Turn>, n: nat, id: string, author: string)
    requires WellFormedTurns(turns) && n < |turns| && KeysDiffer(cfg)
    requires var r := RecordOf(RecordsAt(cfg, turns, n), id); r.Some? && r.value.base.postId.Some?
    ensures forall f | f in SentBy(ResultAt(cfg, turns, n).signals) :: f.key != cfg.keyOf(author, id)
  {
    hide ResultAt, RecordsAt, RecordOf, WellFormedTurns;
    forall f | f in SentBy(ResultAt(cfg, turns, n).signals)
      ensures f.key != cfg.keyOf(author, id)
    {
      var s :| s in ResultAt(cfg, turns, n).signals && f in FlightsOf(s);
      SentUnderOwnKey(cfg, turns, n, s);
      assert turns[n].call.attemptId != id;
    }
  }

  lemma {:induction false} UnrivalledToTheEnd(cfg: Config, turns: seq<Turn>, worlds: seq<World>, n: nat, m: nat,
                                              id: string, author: string, postId: string)
    requires ValidWorlds(cfg, turns, worlds) && KeysDiffer(cfg) && n < m <= |turns| && Kept(cfg, turns, n, m, id)
    requires Unrivalled(worlds[n + 1], cfg.keyOf(author, id), postId)
    ensures Unrivalled(worlds[m], cfg.keyOf(author, id), postId)
  {
    hide ResultAt, RecordsAt, RecordOf, KeysDiffer, Unrivalled, OnlyOne, WellFormedTurns, Evolves;
    if n + 1 < m {
      UnrivalledToTheEnd(cfg, turns, worlds, n, m - 1, id, author, postId);
      NothingMoreIsSent(cfg, turns, m - 1, id, author);
      assert TrueTurn(ResultAt(cfg, turns, m - 1).signals, worlds[m - 1], worlds[m]);
      NoneIsOne(LandableBy(ResultAt(cfg, turns, m - 1).signals), cfg.keyOf(author, id), postId);
      UnrivalledStays(worlds[m - 1], worlds[m], LandableBy(ResultAt(cfg, turns, m - 1).signals), cfg.keyOf(author, id),
                      postId);
    }
  }

  lemma NoneIsOne(flights: set<Flight>, key: string, postId: string)
    requires forall f | f in flights :: f.key != key
    ensures OnlyOne(flights, key, postId)
  {
  }

  /** Over a run the attempt's post id stays what it was after turn n. */
  lemma {:induction false} PostIdStays(cfg: Config, turns: seq<Turn>, n: nat, m: nat, id: string)
    requires WellFormedTurns(turns) && n < m <= |turns| && Kept(cfg, turns, n, m, id)
    ensures RecordOf(RecordsAt(cfg, turns, m), id).value.base.postId ==
            RecordOf(RecordsAt(cfg, turns, n + 1), id).value.base.postId
  {
    hide ResultAt, RecordsAt, WellFormedTurns;
    if n + 1 < m {
      PostIdStays(cfg, turns, n, m - 1, id);
      FactsStay(cfg, turns, m - 1, RecordOf(RecordsAt(cfg, turns, m), id).value);
    }
  }

  /**
   * An accepted id with no rival under way is right for the rest of the run: as long as the record is kept, its post
   * id is the one that was accepted and the chain has no other post for its key.
   */
  lemma AcceptedIdStaysRight(cfg: Config, turns: seq<Turn>, worlds: seq<World>, n: nat, m: nat, key: string,
                             build: Build)
    requires ValidWorlds(cfg, turns, worlds) && KeysDiffer(cfg) && n < m <= |turns|
    requires AcceptedAt(cfg, turns, n, key, build) && OnlyOne(worlds[n].open, key, Lower(build.postId))
    requires Kept(cfg, turns, n, m, turns[n].call.attemptId)
    ensures RecordOf(RecordsAt(cfg, turns, m), turns[n].call.attemptId).value.base.postId == Some(Lower(build.postId))
    ensures RightAbout(worlds[m], key, Lower(build.postId))
  {
    var id, signals := turns[n].call.attemptId, ResultAt(cfg, turns, n).signals;
    ValidIsWellFormed(cfg, turns, worlds);
    assert TrueTurn(signals, worlds[n], worlds[n + 1]);
    var x := RecordOf(RecordsAt(cfg, turns, n + 1), id).value;
    hide ResultAt, RecordsAt, ValidWorlds, IsAcceptance, Lower, Evolves, TrueSignal, KeysDiffer, WellFormedTurns;
    AcceptedIsRecorded(cfg, turns, n, key, build, x);
    AcceptanceSends(signals, key, build);
    UnrivalledStays(worlds[n], worlds[n + 1], LandableBy(signals), key, Lower(build.postId));
    UnrivalledToTheEnd(cfg, turns, worlds, n, m, id, x.author.value, Lower(build.postId));
    PostIdStays(cfg, turns, n, m, id);
  }

  // -------------------------------------------------------------------------
  // What the client can know
  // -------------------------------------------------------------------------

  /** The same chain, but nothing that was handed over is ever dropped. */
  ghost function Undropped(cfg: Config, turns: seq<Turn>, worlds: seq<World>): seq<World>
    requires |worlds| == |turns| + 1
  {
    seq(|worlds|, i requires 0 <= i < |worlds| => World(worlds[i].posts, UnderWay(cfg, turns, worlds[0], i)))
  }

  lemma {:induction false} OpenIsUnderWay(cfg: Config, turns: seq<Turn>, worlds: seq<World>, n: nat)
    requires ValidWorlds(cfg, turns, worlds) && n <= |turns|
    ensures worlds[n].open <= UnderWay(cfg, turns, worlds[0], n)
  {
    hide ResultAt, LandableBy;
    if n != 0 {
      OpenIsUnderWay(cfg, turns, worlds, n - 1);
      assert TrueTurn(ResultAt(cfg, turns, n - 1).signals, worlds[n - 1], worlds[n]);
    }
  }

  lemma UndroppedIsValid(cfg: Config, turns: seq<Turn>, worlds: seq<World>)
    requires ValidWorlds(cfg, turns, worlds)
    ensures ValidWorlds(cfg, turns, Undropped(cfg, turns, worlds))
  {
    var others := Undropped(cfg, turns, worlds);
    hide ResultAt;
    forall i | 0 <= i < |turns|
      ensures TrueTurn(ResultAt(cfg, turns, i).signals, others[i], others[i + 1])
    {
      OpenIsUnderWay(cfg, turns, worlds, i);
      assert TrueTurn(ResultAt(cfg, turns, i).signals, worlds[i], worlds[i + 1]);
      KeptOpen(ResultAt(cfg, turns, i).signals, worlds[i], worlds[i + 1], UnderWay(cfg, turns, worlds[0], i));
    }
  }

  lemma KeptOpen(signals: seq<Signal>, before: World, after: World, open: set<Flight>)
    requires TrueTurn(signals, before, after) && before.open <= open
    ensures TrueTurn(signals, World(before.posts, open), World(after.posts, open + LandableBy(signals)))
  {
    hide SentBy;
  }

  /** The run with another last world. */
  lemma OtherEnd(cfg: Config, turns: seq<Turn>, worlds: seq<World>, last: World)
    requires ValidWorlds(cfg, turns, worlds) && turns != []
    requires TrueTurn(ResultAt(cfg, turns, |turns| - 1).signals, worlds[|turns| - 1], last)
    ensures ValidWorlds(cfg, turns, worlds[|turns| := last])
  {
    hide ResultAt, TrueTurn;
    var others := worlds[|turns| := last];
    forall i | 0 <= i < |turns|
      ensures TrueTurn(ResultAt(cfg, turns, i).signals, others[i], others[i + 1])
    {
      assert TrueTurn(ResultAt(cfg, turns, i).signals, worlds[i], worlds[i + 1]);
    }
  }

  /** A chain that agrees with every answer of the run and yet lands an earlier transaction of the key. */
  lemma EarlierMayStillLand(cfg: Config, turns: seq<Turn>, worlds: seq<World>, key: string, build: Build, f: Flight)
    requires ValidWorlds(cfg, turns, worlds) && turns != [] && AcceptedAt(cfg, turns, |turns| - 1, key, build)
    requires f in UnderWay(cfg, turns, worlds[0], |turns| - 1) && f.key == key
    ensures exists others: seq<World> :: ValidWorlds(cfg, turns, others) && others[0].posts == worlds[0].posts
                             && others[0].open == worlds[0].open && others[|turns|] == Landing(others[|turns| - 1], f)
  {
    hide ResultAt, IsAcceptance, Evolves, TrueSignal;
    var n := |turns| - 1;
    var kept := Undropped(cfg, turns, worlds);
    UndroppedIsValid(cfg, turns, worlds);
    assert TrueTurn(ResultAt(cfg, turns, n).signals, kept[n], kept[n + 1]);
    assert kept[0].open == UnderWay(cfg, turns, worlds[0], 0) == worlds[0].open;
    hide ValidWorlds, Undropped, TrueTurn, UnderWay, SentBy;
    LookupsMissed(ResultAt(cfg, turns, n).signals, kept[n], kept[n + 1], key, build);
    AcceptanceSends(ResultAt(cfg, turns, n).signals, key, build);
    RivalMayLand(ResultAt(cfg, turns, n).signals, kept[n], key, build, f);
    OtherEnd(cfg, turns, kept, Landing(kept[n], f));
    var others := kept[n + 1 := Landing(kept[n], f)];
    assert others[n] == kept[n] && others[0] == kept[0];
  }

  /**
   * What a client can rely on when a publication was accepted: the accepted id is its key's post, if there is one, in
   * every chain that agrees with all answers so far, if and only if nothing with another id was handed over under the
   * key before, apart from what was finally refused.
   */
  lemma AcceptedIdIsSafeExactly(cfg: Config, turns: seq<Turn>, worlds: seq<World>, key: string, build: Build)
    requires ValidWorlds(cfg, turns, worlds) && turns != [] && AcceptedAt(cfg, turns, |turns| - 1, key, build)
    ensures (forall others: seq<World> | ValidWorlds(cfg, turns, others) && others[0] == worlds[0] ::
               RightAbout(others[|turns|], key, Lower(build.postId))) <==>
            OnlyOne(UnderWay(cfg, turns, worlds[0], |turns| - 1), key, Lower(build.postId))
  {
    var n, postId := |turns| - 1, Lower(build.postId);
    var sent := UnderWay(cfg, turns, worlds[0], n);
    hide ResultAt, Lower, IsAcceptance, TrueSignal, Evolves, UnderWay;
    if OnlyOne(sent, key, postId) {
      forall others: seq<World> | ValidWorlds(cfg, turns, others) && others[0] == worlds[0]
        ensures RightAbout(others[n + 1], key, postId)
      {
        OpenIsUnderWay(cfg, turns, others, n);
        assert TrueTurn(ResultAt(cfg, turns, n).signals, others[n], others[n + 1]);
        AcceptanceSends(ResultAt(cfg, turns, n).signals, key, build);
        UnrivalledStays(others[n], others[n + 1], LandableBy(ResultAt(cfg, turns, n).signals), key, postId);
      }
    } else {
      var f :| f in sent && f.key == key && Lower(f.build.postId) != postId;
      EarlierMayStillLand(cfg, turns, worlds, key, build, f);
      var others: seq<World> :| ValidWorlds(cfg, turns, others) && others[0].posts == worlds[0].posts
                    && others[0].open == worlds[0].open && others[n + 1] == Landing(others[n], f);
      assert others[0] == worlds[0];
      assert !RightAbout(others[n + 1], key, postId);
    }
  }

  // -------------------------------------------------------------------------
  // Lookups of an accepted record
  // -------------------------------------------------------------------------

  /** The key's post is the recorded one. */
  ghost predicate HasLanded(world: World, key: string, postId: string) {
    key in world.posts && Lower(world.posts[key].postId) == postId
  }

  /**
   * Reconciling a record with a post id forces a manual review while the post has not landed, or when another one has,
   * and never once it has landed; in between, what the lookup saw decides.
   */
  lemma ReviewFollowsTheChain(cfg: Config, turns: seq<Turn>, worlds: seq<World>, n: nat, r: Stored)
    requires ValidWorlds(cfg, turns, worlds) && n < |turns| && Distinct(Known(cfg, turns, worlds[0], n + 1))
    requires turns[n].call.ReconcileAttempt? && FoundAt(cfg, turns, n) == Some(r) && r.base.postId.Some?
    requires LookupEvent(turns[n].env.chain, turns[n].env.indexer).Some?
    ensures var review := ForcesReview(r, turns[n].call, turns[n].env);
            && (!HasLanded(worlds[n + 1], r.base.idempotencyKey, r.base.postId.value) ==> review)
            && (HasLanded(worlds[n], r.base.idempotencyKey, r.base.postId.value) ==> !review)
  {
    var env, e := turns[n].env, ReconcileEffect(cfg, r, turns[n].env);
    assert ResultAt(cfg, turns, n).signals == e.signals;
    ValidIsWellFormed(cfg, turns, worlds);
    RecordsAlwaysOk(cfg, turns, n);
    RecordsBefore(cfg, turns, worlds, n);
    assert TrueTurn(e.signals, worlds[n], worlds[n + 1]);
    ChainIsKnown(cfg, turns, worlds, n + 1);
    assert r in RecordsAt(cfg, turns, n) && RecordOk(cfg, r) && Sound(r.base);
    var known := Known(cfg, turns, worlds[0], n + 1);
    assert SentBy(e.signals) <= known;
    var s := LookedUp(r.base.idempotencyKey, r.expectedPostId, r.contentHash, env.chain, env.indexer);
    ReconcileLooksUp(cfg, r, env);
    hide RecordsAt, Known, Distinct, ResultAt, RecordKnown, ValidWorlds, WellFormedTurns, Sound, Landed, SentBy,
        ReconcileEffect, UniqueIds, FoundId, Justified, RecordOk;
    ReconcileJustified(cfg, r, env);
    assert TrueSignal(s, worlds[n], worlds[n + 1]);
    CallTells(cfg, known, r, e, s, worlds[n], worlds[n + 1]);
    ClashExactly(r, s, env, worlds[n], worlds[n + 1]);
  }

  lemma ReconcileLooksUp(cfg: Config, r: Stored, env: Env)
    requires RecordOk(cfg, r) && r.base.postId.Some? && LookupEvent(env.chain, env.indexer).Some?
    ensures LookedUp(r.base.idempotencyKey, r.expectedPostId, r.contentHash, env.chain, env.indexer)
            in ReconcileEffect(cfg, r, env).signals
  {
    assert r.base.state != Draft;
    ReopenedOk(cfg, r, r.author.value, env.now);
    hide LookupEvent, Transition, Settled, AdoptPendingTx, Reopened, Sound, ProofEffect;
  }

  lemma ClashExactly(r: Stored, s: Signal, env: Env, before: World, after: World)
    requires r.base.postId.Some? && LookupEvent(env.chain, env.indexer).Some?
    requires s == LookedUp(r.base.idempotencyKey, r.expectedPostId, r.contentHash, env.chain, env.indexer)
    requires FoundId(s).Some? ==> s.key in after.posts && FoundId(s) == Some(Lower(after.posts[s.key].postId))
    requires TrueSignal(s, before, after)
    requires forall k | k in before.posts :: k in after.posts && after.posts[k] == before.posts[k]
    ensures !HasLanded(after, s.key, r.base.postId.value) ==> LookupClash(r, env.chain, env.indexer)
    ensures HasLanded(before, s.key, r.base.postId.value) ==> !LookupClash(r, env.chain, env.indexer)
  {
    hide Lower;
  }
}
