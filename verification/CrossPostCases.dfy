/**
 * Runs in which acceptance and landing differ: an earlier transaction that lands late beats the accepted one,
 * also when it was sent again without a lookup because a silent sponsor counts as a refusal; and a lookup
 * before the accepted post lands ends in manual review.
 */
module CrossPostCases {
  import opened Wrappers
  import opened Reconcile
  import opened Queue
  import opened CrossPost
  import opened CrossPostRuns
  import opened CrossPostChain
  import opened CrossPostLanding

  const ID := "a1"
  const ALICE := "alice"
  const FIRST := Build("p1", "h1")
  const SECOND := Build("p2", "h2")

  /** The chain has no post for any key, and the indexer none either. */
  function Asking(publish: PublishReply): Env {
    Env(0, Some(ALICE), NotFound, NoHit, publish, NotFound, NoHit, ProofStops)
  }

  const Drafting := Turn(AddDraft(ID, SidePanel, 0, "hello"), Asking(WorkerStops(None)))

  /** As before, once a submission has become old. */
  const Waited := Asking(WorkerStops(None)).(now := STALE_SUBMITTING_MS + 1)

  /** The node does not answer in time. */
  const Lost := Failure(SubmitError(OutcomeUnknownError, "timeout", false, false, Some(Attempt("p1", "h1", None)), true))

  const Taken := Outcome("t2", "p2", "h2")

  /** A draft, a publication without an answer, a retry that looks up, finds nothing, and is accepted. */
  const LateTurns := [
    Drafting,
    Turn(ConfirmDraft(ID, None), Asking(Lost)),
    Turn(RetryAttempt(ID), Asking(Taken))
  ]

  /** The sponsor passes the transaction on and does not answer in time. */
  const Silent := Failure(SubmitError(SponsorRefused, "sponsor unreachable: timeout", false, true,
                                      Some(Attempt("p1", "h1", None)), false))

  /** A draft, a publication through a silent sponsor, and a retry that is accepted. */
  const SilentTurns := [
    Drafting,
    Turn(ConfirmDraft(ID, None), Asking(Silent)),
    Turn(RetryAttempt(ID), Asking(Taken))
  ]

  /** A draft, an accepted publication, and a lookup. */
  const EarlyTurns := [
    Drafting,
    Turn(ConfirmDraft(ID, None), Asking(Taken)),
    Turn(ReconcileAttempt(ID), Waited)
  ]

  lemma IdIsLower()
    ensures Lower(ID) == ID
  {
    assert forall i | 0 <= i < |ID| :: Lower(ID)[i] == ID[i];
  }

  /** A file with one record stays one. */
  lemma OneRecord(cfg: Config, r: Stored, call: Call, env: Env)
    requires r.base.attemptId == call.attemptId && !call.DiscardAttempt?
    requires forall x | x in EffectOf(cfg, Some(r), call, env).stores :: x.base.attemptId == call.attemptId
    ensures var e, result := EffectOf(cfg, Some(r), call, env), CallStep(cfg, [r], call, env);
            && result.signals == e.signals
            && result.records == [if e.stores == [] then r else e.stores[|e.stores| - 1]]
  {
    assert RecordOf([r], call.attemptId) == Some(r);
    hide EffectOf;
    OneUpdated(r, EffectOf(cfg, Some(r), call, env).stores);
  }

  lemma {:induction false} OneUpdated(r: Stored, stores: seq<Stored>)
    requires forall x | x in stores :: x.base.attemptId == r.base.attemptId
    ensures UpdatedAll([r], stores) == [if stores == [] then r else stores[|stores| - 1]]
  {
    if stores != [] {
      OneUpdated(r, stores[..|stores| - 1]);
    }
  }

  ghost function Key(cfg: Config): string {
    cfg.keyOf(ALICE, ID)
  }

  /** After the first turn there is one draft. */
  lemma Drafted(cfg: Config)
    ensures CallStep(cfg, [], Drafting.call, Drafting.env).signals == [Created]
    ensures CallStep(cfg, [], Drafting.call, Drafting.env).records ==
            [FreshDraft(cfg, ID, SidePanel, 0, "hello", Drafting.env)]
    ensures FreshDraft(cfg, ID, SidePanel, 0, "hello", Drafting.env).base.attemptId == ID
  {
    IdIsLower();
    var r := FreshDraft(cfg, ID, SidePanel, 0, "hello", Drafting.env);
    hide FreshDraft;
    assert UpdatedAll([], []) == [];
    assert [r][..0] == [];
    assert UpdatedAll([], [r]) == Updated([], r) == [r];
  }

  /** The record of a publication that was not answered. */
  ghost predicate IsUnanswered(cfg: Config, r: Stored) {
    && r.base.attemptId == ID && r.base.idempotencyKey == Key(cfg) && r.author == Some(ALICE)
    && r.base.state == OutcomeUnknown && r.base.koinosStatus == SideUnknown && r.base.hostStatus == NotRequired
    && r.base.postId.None? && r.base.koinosTxId.None? && r.base.hostRef.None? && r.base.hostSite.None?
    && r.text == Some("hello") && r.expectedPostId == Some("p1") && r.contentHash == Some("h1")
    && r.adapter == SidePanel
  }

  lemma Unanswered(cfg: Config)
    ensures var draft := FreshDraft(cfg, ID, SidePanel, 0, "hello", Drafting.env);
            var e := EffectOf(cfg, Some(draft), ConfirmDraft(ID, None), Asking(Lost));
            && e.signals == [Sent(Key(cfg), Some(FIRST))] && |e.stores| == 2
            && e.stores[0].base.attemptId == ID && IsUnanswered(cfg, e.stores[1])
  {
    IdIsLower();
    hide Lower, LookupEvent;
  }

  /** A lookup that found nothing makes the side failed; it can be sent again. */
  ghost predicate IsCleared(cfg: Config, current: Record) {
    && current.attemptId == ID && current.idempotencyKey == Key(cfg)
    && current.state == Partial && current.koinosStatus == SideFailed && current.hostStatus == NotRequired
    && current.postId.None? && current.koinosTxId.None?
  }

  lemma Cleared(cfg: Config, r: Stored)
    requires IsUnanswered(cfg, r)
    ensures Looked(r, r.base, Asking(Taken)).Some? && IsCleared(cfg, Looked(r, r.base, Asking(Taken)).value)
  {
    hide Lower;
  }

  lemma ResentAndTaken(cfg: Config, r: Stored, current: Record)
    requires IsUnanswered(cfg, r) && IsCleared(cfg, current)
    ensures var e := ResendEffect(cfg, r, current, Asking(Taken));
            && e.signals == [Sent(Key(cfg), Some(SECOND)), Accepted]
            && |e.stores| == 2 && e.stores[0].base.attemptId == ID && e.stores[1].base.attemptId == ID
            && e.stores[1].base.postId == Some(Lower("p2")) && e.stores[1].base.idempotencyKey == Key(cfg)
  {
    hide Lower, LookupEvent;
  }

  lemma AcceptedAtLast(cfg: Config, r: Stored)
    requires IsUnanswered(cfg, r)
    ensures var e := EffectOf(cfg, Some(r), RetryAttempt(ID), Asking(Taken));
            && e.signals == [LookedUp(Key(cfg), Some("p1"), Some("h1"), NotFound, NoHit), Sent(Key(cfg), Some(SECOND)),
                             Accepted]
            && |e.stores| == 2 && e.stores[0].base.attemptId == ID && e.stores[1].base.attemptId == ID
            && e.stores[1].base.postId == Some(Lower("p2")) && e.stores[1].base.idempotencyKey == Key(cfg)
  {
    var current := Looked(r, r.base, Asking(Taken)).value;
    Cleared(cfg, r);
    ResentAndTaken(cfg, r, current);
    hide Lower, ResendEffect, Looked;
    assert EffectOf(cfg, Some(r), RetryAttempt(ID), Asking(Taken)) == RetryEffect(cfg, r, Asking(Taken));
  }

  /** The record of an accepted publication. */
  ghost predicate IsAccepted(cfg: Config, r: Stored) {
    && r.base.attemptId == ID && r.base.idempotencyKey == Key(cfg) && r.author == Some(ALICE)
    && r.base.state == Succeeded && r.base.koinosStatus == Done && r.base.hostStatus == NotRequired
    && r.base.postId == Some(Lower("p2")) && r.adapter == SidePanel
  }

  lemma AcceptedAtOnce(cfg: Config)
    ensures var draft := FreshDraft(cfg, ID, SidePanel, 0, "hello", Drafting.env);
            var e := EffectOf(cfg, Some(draft), ConfirmDraft(ID, None), Asking(Taken));
            && e.signals == [Sent(Key(cfg), Some(SECOND)), Accepted] && |e.stores| == 2
            && e.stores[0].base.attemptId == ID && IsAccepted(cfg, e.stores[1])
  {
    IdIsLower();
    hide Lower, LookupEvent;
  }

  lemma LookedUpEarly(cfg: Config, r: Stored)
    requires IsAccepted(cfg, r)
    ensures var e := EffectOf(cfg, Some(r), ReconcileAttempt(ID), Waited);
            && |e.signals| == 1 && e.signals[0].LookedUp? && e.signals[0].key == Key(cfg)
            && e.signals[0].chain == NotFound && e.signals[0].indexer == NoHit
            && |e.stores| == 1 && e.stores[0].base.attemptId == ID && e.stores[0].base.state == ReconcileRequired
            && e.stores[0].base.postId == Some(Lower("p2")) && e.stores[0].base.idempotencyKey == Key(cfg)
  {
    hide Lower;
  }

  lemma CasesWellFormed()
    ensures WellFormedTurns(LateTurns) && WellFormedTurns(EarlyTurns)
  {
    IdIsLower();
    hide Lower;
  }

  /** What the first turn of both runs leaves. */
  lemma FirstTurn(cfg: Config, turns: seq<Turn>)
    requires turns != [] && turns[0] == Drafting
    ensures ResultAt(cfg, turns, 0).signals == [Created]
    ensures RecordsAt(cfg, turns, 1) == [FreshDraft(cfg, ID, SidePanel, 0, "hello", Drafting.env)]
  {
    Drafted(cfg);
    hide FreshDraft, CallStep;
    assert RecordsAt(cfg, turns, 0) == [];
  }

  const Empty := World(map[], {})

  function LateWorlds(cfg: Config): seq<World> {
    var sent := Flight(cfg.keyOf(ALICE, ID), FIRST);
    [Empty, Empty, World(map[], {sent}), World(map[sent.key := FIRST], {})]
  }

  /** One turn of a run with one record. */
  lemma NextTurn(cfg: Config, turns: seq<Turn>, n: nat, r: Stored)
    requires n < |turns| && RecordsAt(cfg, turns, n) == [r]
    requires r.base.attemptId == turns[n].call.attemptId && !turns[n].call.DiscardAttempt?
    requires forall x | x in EffectOf(cfg, Some(r), turns[n].call, turns[n].env).stores ::
               x.base.attemptId == turns[n].call.attemptId
    ensures var e := EffectOf(cfg, Some(r), turns[n].call, turns[n].env);
            && ResultAt(cfg, turns, n).signals == e.signals
            && (e.stores != [] ==> RecordsAt(cfg, turns, n + 1) == [e.stores[|e.stores| - 1]])
  {
    hide EffectOf, CallStep;
    OneRecord(cfg, r, turns[n].call, turns[n].env);
  }

  /** The first two turns of the first run. */
  lemma LateStart(cfg: Config)
    ensures ResultAt(cfg, LateTurns, 0).signals == [Created]
    ensures ResultAt(cfg, LateTurns, 1).signals == [Sent(Key(cfg), Some(FIRST))]
    ensures exists r :: RecordsAt(cfg, LateTurns, 2) == [r] && IsUnanswered(cfg, r)
  {
    var draft := FreshDraft(cfg, ID, SidePanel, 0, "hello", Drafting.env);
    LateTurnsAre();
    FirstTurn(cfg, LateTurns);
    Unanswered(cfg);
    Drafted(cfg);
    hide FreshDraft, CallStep, EffectOf, RecordsAt, ResultAt, Asking, IsUnanswered;
    NextId(cfg, EffectOf(cfg, Some(draft), ConfirmDraft(ID, None), Asking(Lost)));
    NextTurn(cfg, LateTurns, 1, draft);
  }

  lemma NextId(cfg: Config, e: Effect)
    requires |e.stores| == 2 && e.stores[0].base.attemptId == ID
    ensures IsUnanswered(cfg, e.stores[1]) || IsAccepted(cfg, e.stores[1]) ==>
              forall x | x in e.stores :: x.base.attemptId == ID
  {
  }

  lemma LateRun(cfg: Config)
    ensures ResultAt(cfg, LateTurns, 0).signals == [Created]
    ensures ResultAt(cfg, LateTurns, 1).signals == [Sent(Key(cfg), Some(FIRST))]
    ensures ResultAt(cfg, LateTurns, 2).signals ==
            [LookedUp(Key(cfg), Some("p1"), Some("h1"), NotFound, NoHit), Sent(Key(cfg), Some(SECOND)), Accepted]
    ensures var records := RecordsAt(cfg, LateTurns, 3);
            |records| == 1 && records[0].base.postId == Some(Lower("p2")) && records[0].base.idempotencyKey == Key(cfg)
  {
    LateTurnsAre();
    LateStart(cfg);
    hide EffectOf, RecordsAt, ResultAt, Asking, IsUnanswered;
    var r :| RecordsAt(cfg, LateTurns, 2) == [r] && IsUnanswered(cfg, r);
    SecondRecord(cfg, r);
    NextTurn(cfg, LateTurns, 2, r);
  }

  lemma SecondRecord(cfg: Config, r: Stored)
    requires IsUnanswered(cfg, r)
    ensures var e := EffectOf(cfg, Some(r), RetryAttempt(ID), Asking(Taken));
            && e.signals == [LookedUp(Key(cfg), Some("p1"), Some("h1"), NotFound, NoHit), Sent(Key(cfg), Some(SECOND)),
                             Accepted]
            && |e.stores| == 2 && (forall x | x in e.stores :: x.base.attemptId == ID)
            && e.stores[1].base.postId == Some(Lower("p2")) && e.stores[1].base.idempotencyKey == Key(cfg)
            && r.base.attemptId == ID
  {
    hide EffectOf, Asking;
    AcceptedAtLast(cfg, r);
  }

  lemma LateTurnsAre()
    ensures |LateTurns| == 3 && LateTurns[1] == Turn(ConfirmDraft(ID, None), Asking(Lost))
    ensures LateTurns[0] == Drafting && LateTurns[2] == Turn(RetryAttempt(ID), Asking(Taken))
  {
  }

  /**
   * A late transaction beats the accepted one. The first publication is not answered, a lookup finds nothing, the retry
   * is accepted with another id; then the first one lands. All answers were true, and the record names a post the
   * chain will never have.
   */
  lemma LateTransactionWins(cfg: Config)
    ensures var worlds := LateWorlds(cfg);
            && ValidWorlds(cfg, LateTurns, worlds)
            && exists r :: RecordsAt(cfg, LateTurns, 3) == [r] && r.base.postId == Some(Lower("p2"))
                          && worlds[3].posts == map[r.base.idempotencyKey := FIRST] && worlds[3].open == {}
                          && !RightAbout(worlds[3], r.base.idempotencyKey, r.base.postId.value)
  {
    var worlds := LateWorlds(cfg);
    LateRun(cfg);
    CasesWellFormed();
    LateTurnsAre();
    Lower12();
    hide ResultAt, RecordsAt, WellFormedTurns, Lower;
    var r := RecordsAt(cfg, LateTurns, 3)[0];
    assert RecordsAt(cfg, LateTurns, 3) == [r];
    SentOne([Sent(Key(cfg), Some(FIRST))], Key(cfg), FIRST);
    assert TrueTurn([Created], worlds[0], worlds[1]);
    assert TrueTurn([Sent(Key(cfg), Some(FIRST))], worlds[1], worlds[2]);
    assert TrueTurn(ResultAt(cfg, LateTurns, 2).signals, worlds[2], worlds[3]);
  }

  /** The record of a publication that was refused. */
  ghost predicate IsTurnedDown(cfg: Config, r: Stored) {
    && r.base.attemptId == ID && r.base.idempotencyKey == Key(cfg) && r.author == Some(ALICE)
    && r.base.state == Partial && r.base.koinosStatus == SideFailed && r.base.hostStatus == NotRequired
    && r.base.postId.None? && r.base.koinosTxId.None? && r.base.hostRef.None? && r.base.hostSite.None?
    && r.text == Some("hello") && r.adapter == SidePanel
  }

  lemma TurnedDown(cfg: Config)
    ensures var draft := FreshDraft(cfg, ID, SidePanel, 0, "hello", Drafting.env);
            var e := EffectOf(cfg, Some(draft), ConfirmDraft(ID, None), Asking(Silent));
            && e.signals == [Sent(Key(cfg), Some(FIRST)), Refused(false)] && |e.stores| == 2
            && (forall x | x in e.stores :: x.base.attemptId == ID) && IsTurnedDown(cfg, e.stores[1])
  {
    IdIsLower();
    hide Lower, LookupEvent;
  }

  lemma SentAgain(cfg: Config, r: Stored)
    requires IsTurnedDown(cfg, r)
    ensures var e := EffectOf(cfg, Some(r), RetryAttempt(ID), Asking(Taken));
            && e.signals == [Sent(Key(cfg), Some(SECOND)), Accepted]
            && |e.stores| == 2 && (forall x | x in e.stores :: x.base.attemptId == ID)
            && e.stores[1].base.postId == Some(Lower("p2")) && e.stores[1].base.idempotencyKey == Key(cfg)
            && r.base.attemptId == ID
  {
    hide Lower, LookupEvent;
  }

  lemma SilentTurnsAre()
    ensures |SilentTurns| == 3 && SilentTurns[0] == Drafting
    ensures SilentTurns[1] == Turn(ConfirmDraft(ID, None), Asking(Silent))
    ensures SilentTurns[2] == Turn(RetryAttempt(ID), Asking(Taken)) && WellFormedTurns(SilentTurns)
  {
    IdIsLower();
    hide Lower;
  }

  /** The first two turns of the run with a silent sponsor. */
  lemma SilentStart(cfg: Config)
    ensures ResultAt(cfg, SilentTurns, 0).signals == [Created]
    ensures ResultAt(cfg, SilentTurns, 1).signals == [Sent(Key(cfg), Some(FIRST)), Refused(false)]
    ensures exists r :: RecordsAt(cfg, SilentTurns, 2) == [r] && IsTurnedDown(cfg, r)
  {
    var draft := FreshDraft(cfg, ID, SidePanel, 0, "hello", Drafting.env);
    SilentTurnsAre();
    FirstTurn(cfg, SilentTurns);
    TurnedDown(cfg);
    Drafted(cfg);
    hide FreshDraft, CallStep, EffectOf, RecordsAt, ResultAt, Asking, Lower, WellFormedTurns, IsTurnedDown;
    NextTurn(cfg, SilentTurns, 1, draft);
  }

  lemma SilentRun(cfg: Config)
    ensures ResultAt(cfg, SilentTurns, 0).signals == [Created]
    ensures ResultAt(cfg, SilentTurns, 1).signals == [Sent(Key(cfg), Some(FIRST)), Refused(false)]
    ensures ResultAt(cfg, SilentTurns, 2).signals == [Sent(Key(cfg), Some(SECOND)), Accepted]
    ensures exists r :: RecordsAt(cfg, SilentTurns, 3) == [r] && r.base.postId == Some(Lower("p2"))
                        && r.base.idempotencyKey == Key(cfg)
  {
    SilentTurnsAre();
    SilentStart(cfg);
    hide CallStep, EffectOf, RecordsAt, ResultAt, Asking, Lower, WellFormedTurns, IsTurnedDown;
    var r :| RecordsAt(cfg, SilentTurns, 2) == [r] && IsTurnedDown(cfg, r);
    SentAgain(cfg, r);
    NextTurn(cfg, SilentTurns, 2, r);
  }

  /**
   * A sponsor that passed the transaction on and did not answer in time counts as one that refused. The retry sends
   * another transaction at once, without a lookup; it is accepted, and then the first one lands. The record names a
   * post the chain will never have.
   */
  lemma SilentSponsorIsSentAgain(cfg: Config)
    ensures var worlds := LateWorlds(cfg);
            && ValidWorlds(cfg, SilentTurns, worlds)
            && (forall i, s | 0 <= i < 3 && s in ResultAt(cfg, SilentTurns, i).signals :: !s.LookedUp?)
            && Flight(Key(cfg), FIRST) in worlds[2].open
            && exists r :: RecordsAt(cfg, SilentTurns, 3) == [r] && r.base.postId == Some(Lower("p2"))
                          && !RightAbout(worlds[3], r.base.idempotencyKey, r.base.postId.value)
  {
    var worlds := LateWorlds(cfg);
    SilentRun(cfg);
    SilentTurnsAre();
    Lower12();
    hide ResultAt, RecordsAt, WellFormedTurns, Lower;
    var r :| RecordsAt(cfg, SilentTurns, 3) == [r] && r.base.postId == Some(Lower("p2"))
             && r.base.idempotencyKey == Key(cfg);
    SentOne([Sent(Key(cfg), Some(FIRST)), Refused(false)], Key(cfg), FIRST);
    assert TrueTurn([Created], worlds[0], worlds[1]);
    assert TrueTurn([Sent(Key(cfg), Some(FIRST)), Refused(false)], worlds[1], worlds[2]);
    assert TrueTurn(ResultAt(cfg, SilentTurns, 2).signals, worlds[2], worlds[3]);
  }

  lemma SentOne(signals: seq<Signal>, key: string, build: Build)
    requires Sent(key, Some(build)) in signals
    ensures Flight(key, build) in SentBy(signals)
  {
    assert Flight(key, build) in FlightsOf(Sent(key, Some(build)));
  }

  lemma Lower12()
    ensures Lower("p1") != Lower("p2")
  {
    assert Lower("p1")[1] == '1' && Lower("p2")[1] == '2';
  }

  function EarlyWorlds(cfg: Config): seq<World> {
    var sent := Flight(cfg.keyOf(ALICE, ID), SECOND);
    [Empty, Empty, World(map[], {sent}), World(map[], {sent})]
  }

  /**
   * A lookup before the accepted post lands. The publication is accepted and still under way; the chain truthfully
   * answers that the key has no post, and the record goes to manual review, which it never leaves.
   */
  lemma EarlyLookupForcesReview(cfg: Config)
    ensures var worlds := EarlyWorlds(cfg);
            && ValidWorlds(cfg, EarlyTurns, worlds)
            && (exists r :: RecordsAt(cfg, EarlyTurns, 2) == [r] && r.base.state == Succeeded
                           && r.base.postId == Some(Lower("p2")))
            && exists r :: RecordsAt(cfg, EarlyTurns, 3) == [r] && r.base.state == ReconcileRequired
                          && r.base.postId == Some(Lower("p2"))
                          && Flight(r.base.idempotencyKey, SECOND) in worlds[3].open
  {
    var worlds := EarlyWorlds(cfg);
    CasesWellFormed();
    EarlyRun(cfg);
    hide RecordsAt, ResultAt, WellFormedTurns, Lower;
    SentOne(ResultAt(cfg, EarlyTurns, 1).signals, Key(cfg), SECOND);
    assert TrueTurn([Created], worlds[0], worlds[1]);
    assert TrueTurn(ResultAt(cfg, EarlyTurns, 1).signals, worlds[1], worlds[2]);
    assert TrueTurn(ResultAt(cfg, EarlyTurns, 2).signals, worlds[2], worlds[3]);
  }

  /**
   * The queue offers that lookup: the record as it is stored while the publication is under way asks for one once it is
   * old, and the call reaches the record after the acceptance.
   */
  lemma EarlyLookupIsOffered(cfg: Config)
    ensures exists shown :: shown in EffectOf(cfg, FoundAt(cfg, EarlyTurns, 1), EarlyTurns[1].call,
                                              EarlyTurns[1].env).stores
                            && LookUp in Explain(shown, Waited.now)
                            && EarlyTurns[2] == Turn(ReconcileAttempt(shown.base.attemptId), Waited)
  {
    var draft := FreshDraft(cfg, ID, SidePanel, 0, "hello", Drafting.env);
    EarlyTurnsAre();
    FirstTurn(cfg, EarlyTurns);
    Drafted(cfg);
    SubmittingOffersLookup(cfg, draft);
    hide FreshDraft, RecordsAt, EffectOf, Asking, Explain;
    assert FoundAt(cfg, EarlyTurns, 1) == Some(draft);
    var stores := EffectOf(cfg, Some(draft), ConfirmDraft(ID, None), Asking(Taken)).stores;
    assert stores[0] in stores;
  }

  lemma SubmittingOffersLookup(cfg: Config, draft: Stored)
    requires draft == FreshDraft(cfg, ID, SidePanel, 0, "hello", Drafting.env)
    ensures var stores := EffectOf(cfg, Some(draft), ConfirmDraft(ID, None), Asking(Taken)).stores;
            |stores| == 2 && stores[0].base.attemptId == ID && LookUp in Explain(stores[0], Waited.now)
  {
    IdIsLower();
    hide Lower, LookupEvent;
  }

  /** The first two turns of the second run. */
  lemma EarlyStart(cfg: Config)
    ensures ResultAt(cfg, EarlyTurns, 0).signals == [Created]
    ensures ResultAt(cfg, EarlyTurns, 1).signals == [Sent(Key(cfg), Some(SECOND)), Accepted]
    ensures exists r :: RecordsAt(cfg, EarlyTurns, 2) == [r] && IsAccepted(cfg, r)
  {
    var draft := FreshDraft(cfg, ID, SidePanel, 0, "hello", Drafting.env);
    EarlyTurnsAre();
    FirstTurn(cfg, EarlyTurns);
    AcceptedAtOnce(cfg);
    Drafted(cfg);
    hide FreshDraft, CallStep, EffectOf, RecordsAt, ResultAt, Asking, IsAccepted;
    NextId(cfg, EffectOf(cfg, Some(draft), ConfirmDraft(ID, None), Asking(Taken)));
    NextTurn(cfg, EarlyTurns, 1, draft);
  }

  lemma EarlyRun(cfg: Config)
    ensures ResultAt(cfg, EarlyTurns, 0).signals == [Created]
    ensures ResultAt(cfg, EarlyTurns, 1).signals == [Sent(Key(cfg), Some(SECOND)), Accepted]
    ensures var signals := ResultAt(cfg, EarlyTurns, 2).signals;
            && |signals| == 1 && signals[0].LookedUp? && signals[0].key == Key(cfg)
            && signals[0].chain == NotFound && signals[0].indexer == NoHit
    ensures exists r :: RecordsAt(cfg, EarlyTurns, 2) == [r] && r.base.state == Succeeded
                        && r.base.postId == Some(Lower("p2"))
    ensures exists r :: RecordsAt(cfg, EarlyTurns, 3) == [r] && r.base.state == ReconcileRequired
                        && r.base.postId == Some(Lower("p2")) && r.base.idempotencyKey == Key(cfg)
  {
    EarlyTurnsAre();
    EarlyStart(cfg);
    hide EffectOf, RecordsAt, ResultAt, Asking, IsAccepted, Lower;
    var r :| RecordsAt(cfg, EarlyTurns, 2) == [r] && IsAccepted(cfg, r);
    EarlyLookup(cfg, r);
    NextTurn(cfg, EarlyTurns, 2, r);
  }

  lemma EarlyLookup(cfg: Config, r: Stored)
    requires IsAccepted(cfg, r)
    ensures r.base.attemptId == ID && r.base.state == Succeeded && r.base.postId == Some(Lower("p2"))
    ensures var e := EffectOf(cfg, Some(r), ReconcileAttempt(ID), Waited);
            && |e.signals| == 1 && e.signals[0].LookedUp? && e.signals[0].key == Key(cfg)
            && e.signals[0].chain == NotFound && e.signals[0].indexer == NoHit
            && |e.stores| == 1 && e.stores[0].base.attemptId == ID && e.stores[0].base.state == ReconcileRequired
            && e.stores[0].base.postId == Some(Lower("p2")) && e.stores[0].base.idempotencyKey == Key(cfg)
  {
    LookedUpEarly(cfg, r);
    hide EffectOf, Lower;
  }

  lemma EarlyTurnsAre()
    ensures |EarlyTurns| == 3 && EarlyTurns[1] == Turn(ConfirmDraft(ID, None), Asking(Taken))
    ensures EarlyTurns[0] == Drafting && EarlyTurns[2] == Turn(ReconcileAttempt(ID), Waited)
  {
  }
}
