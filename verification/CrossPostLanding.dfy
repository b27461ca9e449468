/**
 * Which post ids the records of a run may hold, and when they are the chain's: an id found by a lookup
 * always is; an accepted one is, whenever its key has a post, exactly if nothing else was handed over under
 * the key; and a lookup of an accepted record asks for manual review as long as its post has not landed.
 */
module CrossPostLanding {
  import opened Wrappers
  import opened Reconcile
  import opened Queue
  import opened CrossPost
  import opened CrossPostRuns
  import opened CrossPostSignals
  import opened CrossPostChain

  /** What the record asks the indexer for and the post id it holds were handed over under its key. */
  ghost predicate RecordKnown(known: set<Flight>, r: Stored) {
    && (r.expectedPostId.Some? ==>
          r.contentHash.Some?
          && Flight(r.base.idempotencyKey, Build(r.expectedPostId.value, r.contentHash.value)) in known)
    && (r.base.postId.Some? ==> HandedOverAs(known, r.base.idempotencyKey, r.base.postId.value))
  }

  /** A transaction with this id was handed over under the key. */
  ghost predicate HandedOverAs(known: set<Flight>, key: string, postId: string) {
    exists f :: f in known && f.key == key && Lower(f.build.postId) == postId
  }

  lemma MoreIsKnown(known: set<Flight>, more: set<Flight>, r: Stored)
    requires RecordKnown(known, r) && known <= more
    ensures RecordKnown(more, r)
  {
  }

  /** What a lookup may ask for was handed over under its key. */
  lemma WantedIsKnown(known: set<Flight>, r: Stored, signals: seq<Signal>, key: string, id: Option<string>,
                      hash: Option<string>)
    requires RecordKnown(known, r) && Wanted(r, signals, key, id, hash) && SentBy(signals) <= known
    requires r.expectedPostId.Some? <==> r.contentHash.Some?
    requires r.expectedPostId.Some? ==> r.base.idempotencyKey == key
    ensures id.Some? || hash.Some? ==> id.Some? && hash.Some? && Flight(key, Build(id.value, hash.value)) in known
  {
    hide HandedOverAs;
    if id.Some? && hash.Some? && Sent(key, Some(Build(id.value, hash.value))) in signals {
      var s := Sent(key, Some(Build(id.value, hash.value)));
      assert Flight(key, Build(id.value, hash.value)) in FlightsOf(s);
    }
  }

  /** A found post is the post of the key that was looked up, also when the indexer found it. */
  lemma LookupTells(known: set<Flight>, s: Signal, before: World, after: World)
    requires s.LookedUp? && TrueSignal(s, before, after) && Landed(after.posts) <= known && Distinct(known)
    requires s.wantedId.Some? || s.wantedHash.Some? ==>
               s.wantedId.Some? && s.wantedHash.Some?
               && Flight(s.key, Build(s.wantedId.value, s.wantedHash.value)) in known
    ensures FoundId(s).Some? ==> s.key in after.posts && FoundId(s) == Some(Lower(after.posts[s.key].postId))
  {
    hide Lower;
    if s.chain.NotFound? && s.indexer.Hit? {
      var k :| k in after.posts && after.posts[k].postId == s.indexer.postId
               && (s.wantedId == Some(after.posts[k].postId) || s.wantedHash == Some(after.posts[k].contentHash));
      assert Flight(k, after.posts[k]) in Landed(after.posts);
      var f := Flight(s.key, Build(s.wantedId.value, s.wantedHash.value));
      assert f in known && f.key == k;
    }
  }

  /** All completed lookups of a call tell the truth. */
  lemma CallTells(cfg: Config, known: set<Flight>, r: Stored, e: Effect, s: Signal, before: World, after: World)
    requires RecordOk(cfg, r) && RecordKnown(known, r) && Justified(r, e) && SentBy(e.signals) <= known
    requires s in e.signals && s.LookedUp? && TrueSignal(s, before, after)
    requires Landed(after.posts) <= known && Distinct(known)
    ensures FoundId(s).Some? ==> s.key in after.posts && FoundId(s) == Some(Lower(after.posts[s.key].postId))
  {
    hide Wanted, RecordKnown, Landed, Distinct, TrueSignal, FoundId, Explained, SentBy, Sound;
    WantedIsKnown(known, r, e.signals, s.key, s.wantedId, s.wantedHash);
    LookupTells(known, s, before, after);
  }

  /** A post id named by a signal was handed over under the signal's key. */
  lemma NamedIsKnown(cfg: Config, known: set<Flight>, r: Stored, e: Effect, s: Signal, before: World, after: World)
    requires RecordOk(cfg, r) && RecordKnown(known, r) && Justified(r, e) && SentBy(e.signals) <= known
    requires s in e.signals && NamedId(s).Some? && TrueSignal(s, before, after)
    requires Landed(after.posts) <= known && Distinct(known)
    ensures HandedOverAs(known, s.key, NamedId(s).value)
  {
    if s.Sent? {
      var f := Flight(s.key, s.build.value);
      assert f in FlightsOf(s) && f in SentBy(e.signals);
      assert f in known && f.key == s.key && Lower(f.build.postId) == NamedId(s).value;
    } else {
      CallTells(cfg, known, r, e, s, before, after);
      var f := Flight(s.key, after.posts[s.key]);
      assert f in Landed(after.posts);
      assert f in known && f.key == s.key && Lower(f.build.postId) == NamedId(s).value;
    }
  }

  /** A record that a call stores. */
  lemma StoredIsKnown(cfg: Config, known: set<Flight>, r: Stored, e: Effect, x: Stored, before: World, after: World)
    requires RecordOk(cfg, r) && RecordOk(cfg, x) && RecordKnown(known, r) && Justified(r, e) && x in e.stores
    requires SentBy(e.signals) <= known && (forall s | s in e.signals :: TrueSignal(s, before, after))
    requires Landed(after.posts) <= known && Distinct(known)
    ensures RecordKnown(known, x)
  {
    assert Explained(r, e.signals, x);
    var key := x.base.idempotencyKey;
    if r.base.state == Draft {
      DraftKnowsNothing(cfg, r);
    }
    assert r.expectedPostId.Some? ==> r.base.idempotencyKey == key;
    assert r.expectedPostId.Some? <==> r.contentHash.Some?;
    assert x.expectedPostId.Some? <==> x.contentHash.Some?;
    hide RecordOk, Landed, Distinct, TrueSignal, SentBy, Justified, NamedId, HandedOverAs;
    WantedIsKnown(known, r, e.signals, key, x.expectedPostId, x.contentHash);
    if x.base.postId.Some? && x.base.postId != r.base.postId {
      var s :| s in e.signals && NamedId(s).Some? && NamedId(s) == x.base.postId;
      NamedIsKnown(cfg, known, r, e, s, before, after);
      NamedHasKey(s);
      assert s.key == key;
    }
  }

  lemma NamedHasKey(s: Signal)
    requires NamedId(s).Some?
    ensures s.Sent? || s.LookedUp?
  {
  }

  lemma DraftKnowsNothing(cfg: Config, r: Stored)
    requires RecordOk(cfg, r) && r.base.state == Draft
    ensures r.base.postId.None? && r.expectedPostId.None? && r.contentHash.None?
  {
  }

  // -------------------------------------------------------------------------
  // Runs
  // -------------------------------------------------------------------------

  /** One turn on records whose facts were handed over. */
  lemma TurnKnown(cfg: Config, records: seq<Stored>, turn: Turn, before: World, after: World, known: set<Flight>)
    requires UniqueIds(records) && WellFormed(turn.call)
    requires forall r | r in records :: RecordOk(cfg, r) && RecordKnown(known, r)
    requires var signals := CallStep(cfg, records, turn.call, turn.env).signals;
             TrueTurn(signals, before, after) && SentBy(signals) <= known && Landed(after.posts) <= known
    requires Distinct(known)
    ensures forall x | x in CallStep(cfg, records, turn.call, turn.env).records :: RecordKnown(known, x)
  {
    var found := RecordOf(records, turn.call.attemptId);
    var result, e := CallStep(cfg, records, turn.call, turn.env), EffectOf(cfg, found, turn.call, turn.env);
    assert result.signals == e.signals;
    FreshIsKnown(cfg, turn, known);
    hide EffectOf, CallStep, RecordOk, RecordKnown, ForcesReview, WellFormed, UniqueIds, Landed, Distinct, SentBy,
        Later, Justified, Evolves, TrueSignal;
    TurnOk(cfg, records, turn);
    if found.Some? {
      CallJustified(cfg, found.value, turn.call, turn.env);
      forall x | x in e.stores && x in result.records
        ensures RecordKnown(known, x)
      {
        StoredIsKnown(cfg, known, found.value, e, x, before, after);
      }
    }
  }

  lemma FreshIsKnown(cfg: Config, turn: Turn, known: set<Flight>)
    ensures forall x | x in EffectOf(cfg, None, turn.call, turn.env).stores :: RecordKnown(known, x)
  {
  }

  /**
   * In every run, whatever landed when and whatever answer was lost, every recorded post id, and everything a record
   * asks the indexer for, was handed over under the record's key.
   */
  lemma {:induction false} RecordsAreKnown(cfg: Config, turns: seq<Turn>, worlds: seq<World>, n: nat)
    requires ValidWorlds(cfg, turns, worlds) && n <= |turns| && Distinct(Known(cfg, turns, worlds[0], n))
    ensures forall r | r in RecordsAt(cfg, turns, n) :: RecordKnown(Known(cfg, turns, worlds[0], n), r)
  {
    hide RecordKnown, RecordOk, UniqueIds, CallStep, TrueTurn, WellFormed, Landed, SentBy;
    if n != 0 {
      var known, more := Known(cfg, turns, worlds[0], n - 1), Known(cfg, turns, worlds[0], n);
      assert known <= more;
      RecordsAreKnown(cfg, turns, worlds, n - 1);
      RecordsAlwaysOk(cfg, turns, n - 1);
      forall r | r in RecordsAt(cfg, turns, n - 1)
        ensures RecordKnown(more, r)
      {
        MoreIsKnown(known, more, r);
      }
      ChainIsKnown(cfg, turns, worlds, n);
      assert TrueTurn(ResultAt(cfg, turns, n - 1).signals, worlds[n - 1], worlds[n]);
      TurnKnown(cfg, RecordsAt(cfg, turns, n - 1), turns[n - 1], worlds[n - 1], worlds[n], more);
    }
  }

  /** The chain's post of the key, if there is one, is the recorded one. */
  ghost predicate RightAbout(world: World, key: string, postId: string) {
    key in world.posts ==> Lower(world.posts[key].postId) == postId
  }

  /** Nothing with another id was handed over under the key. */
  ghost predicate OnlyOne(known: set<Flight>, key: string, postId: string) {
    forall f | f in known && f.key == key :: Lower(f.build.postId) == postId
  }

  /**
   * A recorded post id was handed over under the key of the record's author and attempt, and is the chain's post for
   * that key, whenever it has one, if nothing else that may land was handed over under the key.
   */
  lemma PostIdIsTheChains(cfg: Config, turns: seq<Turn>, worlds: seq<World>, n: nat, r: Stored)
    requires ValidWorlds(cfg, turns, worlds) && n <= |turns| && Distinct(Known(cfg, turns, worlds[0], n))
    requires r in RecordsAt(cfg, turns, n) && r.base.postId.Some?
    ensures r.author.Some? && r.base.idempotencyKey == cfg.keyOf(r.author.value, r.base.attemptId)
    ensures var key, postId := r.base.idempotencyKey, r.base.postId.value;
            && HandedOverAs(Known(cfg, turns, worlds[0], n), key, postId)
            && (OnlyOne(Landed(worlds[0].posts) + UnderWay(cfg, turns, worlds[0], n), key, postId) ==>
                  RightAbout(worlds[n], key, postId))
  {
    hide RecordsAt, Known, Distinct, HandedOverAs, ValidWorlds, UnderWay;
    ValidIsWellFormed(cfg, turns, worlds);
    RecordsAlwaysOk(cfg, turns, n);
    RecordsAreKnown(cfg, turns, worlds, n);
    ChainIsUnderWay(cfg, turns, worlds, n);
    assert RecordOk(cfg, r);
    var key := r.base.idempotencyKey;
    if key in worlds[n].posts {
      assert Flight(key, worlds[n].posts[key]) in Landed(worlds[n].posts);
    }
  }

  lemma ValidIsWellFormed(cfg: Config, turns: seq<Turn>, worlds: seq<World>)
    requires ValidWorlds(cfg, turns, worlds)
    ensures WellFormedTurns(turns) && |worlds| == |turns| + 1
  {
  }

  // -------------------------------------------------------------------------
  // Ids that a lookup found
  // -------------------------------------------------------------------------

  /** After a lookup that found a post, the record holds its id or is under manual review. */
  ghost predicate FoundDecides(signals: seq<Signal>, x: Stored) {
    forall s | s in signals && FoundId(s).Some? :: x.base.postId == FoundId(s) || x.base.state == ReconcileRequired
  }

  lemma FoundAfter(base: Record, known: Stored, key: string, chain: ChainAnswer, indexer: IndexerAnswer, at: int)
    requires LookupEvent(chain, indexer).Some?
    ensures var next := AdoptPendingTx(known, Transition(base, LookupEvent(chain, indexer).value, at));
            forall s | s in LookupSignals(key, known, chain, indexer) && FoundId(s).Some? ::
              next.postId == FoundId(s) || next.state == ReconcileRequired
  {
    hide Lower, DeriveState;
    FoundTransition(base, LookupEvent(chain, indexer).value, at);
    AdoptionKeepsPost(known, Transition(base, LookupEvent(chain, indexer).value, at));
    hide LookupEvent, Transition, AdoptPendingTx;
  }

  lemma FoundTransition(base: Record, event: Event, at: int)
    ensures event.LookupFound? ==>
              var next := Transition(base, event, at);
              next.postId == Some(Lower(event.postId)) || next.state == ReconcileRequired
  {
    hide Lower, DeriveState;
  }

  lemma PublicationFound(cfg: Config, r: Stored, env: Env)
    ensures FoundDecides(PublishEffect(cfg, r, env).signals, Last(r, PublishEffect(cfg, r, env).stores))
  {
    var signals, e := PublishSignals(r, env), PublishEffect(cfg, r, env);
    assert e.signals == signals;
    if AfterPublication(r, env).Some? {
      AnswerFound(r, env);
      var next := AfterPublication(r, env).value;
      hide AfterPublication, PublishSignals, ProofEffect, FoundId;
      ProofKeeps(cfg, next, env);
      LastOfThen(r, next, ProofEffect(cfg, next, env));
    } else {
      NothingFound(r, env);
    }
  }

  lemma NothingFound(r: Stored, env: Env)
    requires AfterPublication(r, env).None?
    ensures forall s | s in PublishSignals(r, env) :: FoundId(s).None?
  {
    hide ClassifySubmitError, Transition, LookupEvent;
  }

  lemma AnswerFound(r: Stored, env: Env)
    requires AfterPublication(r, env).Some?
    ensures FoundDecides(PublishSignals(r, env), AfterPublication(r, env).value)
  {
    hide ClassifySubmitError, Transition, LookupEvent, WithAttempt, AdoptPendingTx;
    if env.publish.Failure? && ClassifySubmitError(env.publish.error) == IsDuplicate {
      var e := env.publish.error;
      var failed := Transition(r.base, KoinosFailed(e.message), env.now);
      FoundAfter(failed, WithAttempt(r, e), r.base.idempotencyKey, env.chainAfter, env.indexerAfter, env.now);
      hide FoundId, LookupSignals;
      SentFindsNothing();
      assert AfterPublication(r, env).value.base == Answered(r, env).value;
    }
  }

  lemma SentFindsNothing()
    ensures forall s: Signal | !s.LookedUp? :: FoundId(s).None?
  {
  }

  lemma ResendFound(cfg: Config, r: Stored, current: Record, env: Env)
    ensures FoundDecides(ResendEffect(cfg, r, current, env).signals, Last(r, ResendEffect(cfg, r, current, env).stores))
  {
    var prepared := r.(base := Transition(current, Retry, env.now));
    hide Transition, PublishEffect, FoundId;
    PublicationFound(cfg, prepared, env);
    LastOfThen(r, prepared, PublishEffect(cfg, prepared, env));
  }

  lemma SettledFound(cfg: Config, r: Stored, before: seq<Signal>, next: Stored, env: Env)
    requires FoundDecides(before, next)
    ensures var e := Behind(before, Then(next, ProofEffect(cfg, next, env))); FoundDecides(e.signals, Last(r, e.stores))
  {
    ProofKeeps(cfg, next, env);
    hide ProofEffect, FoundId;
    LastOfThen(r, next, ProofEffect(cfg, next, env));
    assert before + [] == before;
  }

  lemma LookedFound(r: Stored, start: Record, next: Stored, env: Env)
    requires LookupEvent(env.chain, env.indexer).Some? && next.base == Looked(r, start, env).value
    ensures FoundDecides(LookupSignals(start.idempotencyKey, r, env.chain, env.indexer), next)
  {
    hide FoundId, LookupEvent, Transition, AdoptPendingTx;
    FoundAfter(start, r, start.idempotencyKey, env.chain, env.indexer, env.now);
  }

  lemma RetryFound(cfg: Config, r: Stored, env: Env)
    requires Sound(r.base)
    ensures FoundDecides(RetryEffect(cfg, r, env).signals, Last(r, RetryEffect(cfg, r, env).stores))
  {
    hide Sound, Explain, LookupEvent, ResendEffect, ProofEffect, Transition, AdoptPendingTx, FoundId, Settled;
    if (RetryPublish in Explain(r, env.now) || r.base.state == OutcomeUnknown) && env.account.Some?
       && !(r.author.Some? && r.author != env.account) {
      RetryGate(r, env);
      if r.base.koinosStatus != SideUnknown {
        ResendFound(cfg, r, r.base, env);
      } else if LookupEvent(env.chain, env.indexer).Some? {
        var current := Looked(r, r.base, env).value;
        LookedSound(r, env);
        SettledBase(r, current);
        LookedFound(r, r.base, Settled(r, current), env);
        var before := LookupSignals(r.base.idempotencyKey, r, env.chain, env.indexer);
        if current.koinosStatus == Done || current.state == ReconcileRequired {
          SettledFound(cfg, r, before, Settled(r, current), env);
        } else {
          MissingFinds(r.base.idempotencyKey, r, env);
          ResendFound(cfg, r, current, env);
        }
      }
    }
  }

  lemma SettledBase(r: Stored, current: Record)
    ensures Settled(r, current).base == current
  {
  }

  lemma MissingFinds(key: string, r: Stored, env: Env)
    requires LookupEvent(env.chain, env.indexer) == Some(LookupMissing)
    ensures forall s | s in LookupSignals(key, r, env.chain, env.indexer) :: FoundId(s).None?
  {
  }

  lemma ReconcileFound(cfg: Config, r: Stored, env: Env)
    ensures FoundDecides(ReconcileEffect(cfg, r, env).signals, Last(r, ReconcileEffect(cfg, r, env).stores))
  {
    var account := Acting(r, env);
    hide LookupEvent, ProofEffect, Transition, AdoptPendingTx, FoundId, Settled, Reopened;
    if account.Some? && LookupEvent(env.chain, env.indexer).Some? {
      var reopened := Reopened(cfg, r, account.value, env.now);
      if reopened.state != Draft {
        var next := Settled(r.(author := account), Looked(r, reopened, env).value);
        SettledBase(r.(author := account), Looked(r, reopened, env).value);
        LookedFound(r, reopened, next, env);
        SettledFound(cfg, r, LookupSignals(reopened.idempotencyKey, r, env.chain, env.indexer), next, env);
      }
    }
  }

  lemma CallFound(cfg: Config, found: Option<Stored>, call: Call, env: Env)
    requires found.Some? ==> Sound(found.value.base)
    ensures var e := EffectOf(cfg, found, call, env);
            e.stores != [] ==> FoundDecides(e.signals, e.stores[|e.stores| - 1])
  {
    hide ConfirmEffect, RetryEffect, ReconcileEffect, MarkHostEffect, ProofEffect, FoundId, Sound, NeedsProof;
    SentFindsNothing();
    if found.Some? {
      var r := found.value;
      match call {
        case ConfirmDraft(_, choice) => ConfirmFound(cfg, r, choice, env);
        case RetryAttempt(_) => RetryFound(cfg, r, env);
        case ReconcileAttempt(_) => ReconcileFound(cfg, r, env);
        case MarkHost(_, posted, detail) => HostSendsNothing(cfg, r, posted, detail, env);
        case _ =>
      }
    }
  }

  lemma ConfirmFound(cfg: Config, r: Stored, audience: Option<nat>, env: Env)
    ensures var e := ConfirmEffect(cfg, r, audience, env); FoundDecides(e.signals, Last(r, e.stores))
  {
    hide Prepared, PublishEffect, FoundId;
    if env.account.Some? {
      var prepared := Prepared(cfg, r, env.account.value, audience, env.now);
      PublicationFound(cfg, prepared, env);
      LastOfThen(r, prepared, PublishEffect(cfg, prepared, env));
    }
  }

  lemma HostSendsNothing(cfg: Config, r: Stored, posted: bool, detail: string, env: Env)
    ensures MarkHostEffect(cfg, r, posted, detail, env).signals == []
  {
    hide Transition;
  }

  /**
   * An id that a lookup found is the chain's: after a turn with a lookup that found a post, in whatever call, the
   * attempt's record names the post of its key, or is under manual review.
   */
  lemma FoundIdIsTheChains(cfg: Config, turns: seq<Turn>, worlds: seq<World>, n: nat, s: Signal, x: Stored)
    requires ValidWorlds(cfg, turns, worlds) && n < |turns| && Distinct(Known(cfg, turns, worlds[0], n + 1))
    requires s in ResultAt(cfg, turns, n).signals && FoundId(s).Some?
    requires x in RecordsAt(cfg, turns, n + 1) && x.base.attemptId == turns[n].call.attemptId
    ensures x.base.state != ReconcileRequired ==>
              var key := x.base.idempotencyKey;
              key in worlds[n + 1].posts && x.base.postId == Some(Lower(worlds[n + 1].posts[key].postId))
  {
    var turn, found := turns[n], FoundAt(cfg, turns, n);
    var e := EffectOf(cfg, found, turn.call, turn.env);
    assert ResultAt(cfg, turns, n).signals == e.signals;
    ValidIsWellFormed(cfg, turns, worlds);
    RecordsAlwaysOk(cfg, turns, n);
    RecordsBefore(cfg, turns, worlds, n);
    assert TrueTurn(e.signals, worlds[n], worlds[n + 1]);
    ChainIsKnown(cfg, turns, worlds, n + 1);
    assert found.Some? ==> RecordOk(cfg, found.value) && Sound(found.value.base);
    var known := Known(cfg, turns, worlds[0], n + 1);
    assert SentBy(e.signals) <= known;
    hide RecordOk, RecordsAt, Known, Distinct, EffectOf, RecordKnown, ValidWorlds, WellFormedTurns, Sound, Landed,
        SentBy, Justified, TrueSignal, Evolves, UniqueIds, CallStep, FoundId, SignalsOk, Later, ForcesReview;
    TurnOk(cfg, RecordsAt(cfg, turns, n), turn);
    CallSignals(cfg, found, turn.call, turn.env);
    CallFound(cfg, found, turn.call, turn.env);
    FoundIsLookup(s);
    LookupNeedsRecord(found, e.signals, e.stores, s);
    CallJustified(cfg, found.value, turn.call, turn.env);
    CallTells(cfg, known, found.value, e, s, worlds[n], worlds[n + 1]);
    JustifiedKey(found.value, e, s, x);
  }

  lemma FoundIsLookup(s: Signal)
    requires FoundId(s).Some?
    ensures s.LookedUp?
  {
  }

  lemma LookupNeedsRecord(found: Option<Stored>, signals: seq<Signal>, stores: seq<Stored>, s: Signal)
    requires SignalsOk(found, signals, stores) && s in signals && s.LookedUp?
    ensures stores != [] && found.Some?
  {
    hide Ready, Clears, MayStand;
  }

  lemma JustifiedKey(r: Stored, e: Effect, s: Signal, x: Stored)
    requires Justified(r, e) && s in e.signals && (s.Sent? || s.LookedUp?) && x in e.stores
    ensures x.base.idempotencyKey == s.key && x.base.state != Draft
  {
    hide Wanted, PostFrom;
    assert Explained(r, e.signals, x);
  }

  lemma RecordsBefore(cfg: Config, turns: seq<Turn>, worlds: seq<World>, n: nat)
    requires ValidWorlds(cfg, turns, worlds) && n < |turns| && Distinct(Known(cfg, turns, worlds[0], n + 1))
    ensures forall r | r in RecordsAt(cfg, turns, n) :: RecordKnown(Known(cfg, turns, worlds[0], n + 1), r)
  {
    hide RecordKnown, SentBy, Landed, RecordsAt, ResultAt, TrueTurn, WellFormedTurns;
    var known, more := Known(cfg, turns, worlds[0], n), Known(cfg, turns, worlds[0], n + 1);
    assert known <= more;
    RecordsAreKnown(cfg, turns, worlds, n);
    forall r | r in RecordsAt(cfg, turns, n)
      ensures RecordKnown(more, r)
    {
      MoreIsKnown(known, more, r);
    }
  }
}
