/**
 * What the registry projection of a whole log means: every entry shows its last event and the last ABI
 * hash that was proposed for it, a cancelled proposal is gone, and an admin change is pending exactly
 * after an unanswered proposal.
 */
module RegistryLog {
  import opened Wrappers
  import opened Projections

  ghost function Shown(log: seq<LogEvent>): RegistryTables {
    Project(FreshTables, log).registry
  }

  /** The entry an event writes. */
  function Writes(e: LogEvent): Option<EntryId> {
    if e.contract != RegistryContract then None
    else
      match e.payload
      case EntryProposed(name, address, version, _, _) => Some(EntryId(name, address, version))
      case EntryActivated(name, address, version, _) => Some(EntryId(name, address, version))
      case EntryDeprecated(name, address, version, _) => Some(EntryId(name, address, version))
      case _ => None
  }

  /** The event cancels the proposals of the name. */
  predicate Cancels(e: LogEvent, name: string) {
    e.contract == RegistryContract && e.payload.EntryCancelled? && e.payload.name == name
  }

  /** The ABI hash an event gives the entry; empty when none. */
  function HashFor(e: LogEvent, key: EntryId): string {
    if Writes(e) == Some(key) && e.payload.EntryProposed? then e.payload.abiHash else ""
  }

  ghost predicate CancelledAfter(log: seq<LogEvent>, name: string, i: int) {
    exists c :: i < c < |log| && 0 <= c && Cancels(log[c], name)
  }

  /** Proposed, activated or deprecated. */
  function StatusOf(payload: Payload): nat {
    if payload.EntryProposed? then 0 else if payload.EntryActivated? then 1 else 2
  }

  /** What one event does to one entry. */
  lemma EntryStep(t: Tables, e: LogEvent, key: EntryId)
    ensures var before, after := t.registry.entries, ApplyEvent(t, e).registry.entries;
            if Writes(e) == Some(key) then
              && key in after
              && after[key].status == StatusOf(e.payload)
              && after[key].effectiveAt == (if e.payload.EntryProposed? then e.payload.effectiveAt else TimestampOf(e))
              && after[key].updatedAt == TimestampOf(e)
              && after[key].abiHash == (if HashFor(e, key) != "" || key !in before then HashFor(e, key)
                                        else before[key].abiHash)
            else if Cancels(e, key.name) && key in before && before[key].status == 0 then key !in after
            else (key in after <==> key in before) && (key in before ==> after[key] == before[key])
  {
    hide ApplyIdentity, ApplyPublications, ApplyCommunities, NoticesAfter, ApplySocial, MetaAfter;
  }

  lemma LogStep(log: seq<LogEvent>)
    requires log != []
    ensures Project(FreshTables, log) == ApplyEvent(Project(FreshTables, log[..|log| - 1]), log[|log| - 1])
  {
    hide ApplyEvent;
  }

  /** An entry that no event wrote is not shown. */
  lemma {:induction false} UnwrittenIsHidden(log: seq<LogEvent>, key: EntryId)
    requires forall k | 0 <= k < |log| :: Writes(log[k]) != Some(key)
    ensures key !in Shown(log).entries
  {
    if log != [] {
      LogStep(log);
      EntryStep(Project(FreshTables, log[..|log| - 1]), log[|log| - 1], key);
      hide ApplyEvent, Project, Writes, Cancels;
      UnwrittenIsHidden(log[..|log| - 1], key);
    }
  }

  /** A cancellation after i, seen from the log without its last event. */
  lemma CancelledSnoc(log: seq<LogEvent>, name: string, i: nat)
    requires i + 1 < |log|
    ensures CancelledAfter(log, name, i) <==>
            CancelledAfter(log[..|log| - 1], name, i) || Cancels(log[|log| - 1], name)
  {
    hide Cancels;
    var init := log[..|log| - 1];
    if CancelledAfter(init, name, i) {
      var c :| i < c < |init| && 0 <= c && Cancels(init[c], name);
      assert Cancels(log[c], name);
    }
    if CancelledAfter(log, name, i) && !Cancels(log[|log| - 1], name) {
      var c :| i < c < |log| && 0 <= c && Cancels(log[c], name);
      assert Cancels(init[c], name);
    }
  }

  /**
   * An entry is shown exactly when its last event was not a proposal that was cancelled since, and then with the
   * status and times of that event.
   */
  lemma {:induction false} EntryShowsLastEvent(log: seq<LogEvent>, key: EntryId, i: nat)
    requires i < |log| && Writes(log[i]) == Some(key)
    requires forall k | i < k < |log| :: Writes(log[k]) != Some(key)
    ensures var entries, e := Shown(log).entries, log[i];
            && (key in entries <==> !(e.payload.EntryProposed? && CancelledAfter(log, key.name, i)))
            && (key in entries ==>
                  && entries[key].status == StatusOf(e.payload)
                  && entries[key].effectiveAt == (if e.payload.EntryProposed? then e.payload.effectiveAt
                                                  else TimestampOf(e))
                  && entries[key].updatedAt == TimestampOf(e))
  {
    LogStep(log);
    EntryStep(Project(FreshTables, log[..|log| - 1]), log[|log| - 1], key);
    hide ApplyEvent, Project, Writes, Cancels, TimestampOf;
    if i + 1 < |log| {
      EntryShowsLastEvent(log[..|log| - 1], key, i);
      CancelledSnoc(log, key.name, i);
    }
  }

  /** Without a proposed ABI hash an entry shows none. */
  lemma {:induction false} NoHashProposed(log: seq<LogEvent>, key: EntryId)
    requires forall k | 0 <= k < |log| :: HashFor(log[k], key) == ""
    ensures key in Shown(log).entries ==> Shown(log).entries[key].abiHash == ""
  {
    if log != [] {
      LogStep(log);
      EntryStep(Project(FreshTables, log[..|log| - 1]), log[|log| - 1], key);
      hide ApplyEvent, Project, Writes, Cancels, HashFor;
      NoHashProposed(log[..|log| - 1], key);
    }
  }

  /**
   * A shown entry has the last ABI hash that was proposed for it: later proposals without a hash, activation and
   * deprecation keep it. Only a cancellation in between can leave the entry, proposed anew, without a hash.
   */
  lemma {:induction false} EntryShowsLastHash(log: seq<LogEvent>, key: EntryId, i: nat)
    requires i < |log| && HashFor(log[i], key) != ""
    requires forall k | i < k < |log| :: HashFor(log[k], key) == ""
    ensures var entries := Shown(log).entries;
            && (!CancelledAfter(log, key.name, i) ==> key in entries)
            && (key in entries ==>
                  entries[key].abiHash == HashFor(log[i], key)
                  || (entries[key].abiHash == "" && CancelledAfter(log, key.name, i)))
  {
    LogStep(log);
    EntryStep(Project(FreshTables, log[..|log| - 1]), log[|log| - 1], key);
    assert Writes(log[i]) == Some(key);
    hide ApplyEvent, Project, Writes, Cancels, TimestampOf, HashFor;
    if i + 1 < |log| {
      EntryShowsLastHash(log[..|log| - 1], key, i);
      CancelledSnoc(log, key.name, i);
    }
  }

  // -------------------------------------------------------------------------
  // The admin
  // -------------------------------------------------------------------------

  predicate ProposesAdmin(e: LogEvent) {
    e.contract == RegistryContract && e.payload.AdminProposed?
  }

  predicate ChangesAdmin(e: LogEvent) {
    e.contract == RegistryContract && e.payload.AdminChanged?
  }

  lemma AdminStep(t: Tables, e: LogEvent)
    ensures var before, after := t.registry.meta, ApplyEvent(t, e).registry.meta;
            && (PENDING_ADMIN_KEY in after <==>
                ProposesAdmin(e) || (PENDING_ADMIN_KEY in before && !ChangesAdmin(e)))
            && (PENDING_ADMIN_KEY in after ==>
                  after[PENDING_ADMIN_KEY] == if ProposesAdmin(e)
                  then PendingAdminMeta(e.payload.newAdmin, e.payload.effectiveAt) else before[PENDING_ADMIN_KEY])
            && (ADMIN_KEY in after <==> ChangesAdmin(e) || ADMIN_KEY in before)
            && (ADMIN_KEY in after ==>
                  after[ADMIN_KEY] == if ChangesAdmin(e) then AdminMeta(e.payload.newAdmin) else before[ADMIN_KEY])
  {
    assert ADMIN_KEY != PENDING_ADMIN_KEY by {
      assert |ADMIN_KEY| != |PENDING_ADMIN_KEY|;
    }
    hide ApplyIdentity, ApplyPublications, ApplyCommunities, NoticesAfter, ApplySocial, EntriesAfter;
  }

  lemma NoAdminAtFirst()
    ensures ADMIN_KEY !in FreshTables.registry.meta && PENDING_ADMIN_KEY !in FreshTables.registry.meta
  {
    assert SCHEMA_VERSION_KEY[0] != ADMIN_KEY[0] && SCHEMA_VERSION_KEY[0] != PENDING_ADMIN_KEY[0];
  }

  lemma {:induction false} NoAdminEvents(log: seq<LogEvent>)
    requires forall k | 0 <= k < |log| :: !ProposesAdmin(log[k]) && !ChangesAdmin(log[k])
    ensures ADMIN_KEY !in Shown(log).meta && PENDING_ADMIN_KEY !in Shown(log).meta
  {
    if log == [] {
      NoAdminAtFirst();
    } else {
      LogStep(log);
      AdminStep(Project(FreshTables, log[..|log| - 1]), log[|log| - 1]);
      hide ApplyEvent, Project, ProposesAdmin, ChangesAdmin;
      NoAdminEvents(log[..|log| - 1]);
    }
  }

  /** An admin change is pending exactly when the last admin event proposed it, and then as it was proposed. */
  lemma {:induction false} PendingAdminIsLastProposal(log: seq<LogEvent>, i: nat)
    requires i < |log| && (ProposesAdmin(log[i]) || ChangesAdmin(log[i]))
    requires forall k | i < k < |log| :: !ProposesAdmin(log[k]) && !ChangesAdmin(log[k])
    ensures var meta, e := Shown(log).meta, log[i];
            if ProposesAdmin(e) then
              PENDING_ADMIN_KEY in meta
              && meta[PENDING_ADMIN_KEY] == PendingAdminMeta(e.payload.newAdmin, e.payload.effectiveAt)
            else PENDING_ADMIN_KEY !in meta
  {
    LogStep(log);
    AdminStep(Project(FreshTables, log[..|log| - 1]), log[|log| - 1]);
    hide ApplyEvent, Project;
    if i + 1 < |log| {
      hide ProposesAdmin, ChangesAdmin;
      PendingAdminIsLastProposal(log[..|log| - 1], i);
    }
  }

  /** The admin shown is the one of the last change. */
  lemma {:induction false} AdminIsLastChange(log: seq<LogEvent>, i: nat)
    requires i < |log| && ChangesAdmin(log[i]) && forall k | i < k < |log| :: !ChangesAdmin(log[k])
    ensures ADMIN_KEY in Shown(log).meta && Shown(log).meta[ADMIN_KEY] == AdminMeta(log[i].payload.newAdmin)
  {
    LogStep(log);
    AdminStep(Project(FreshTables, log[..|log| - 1]), log[|log| - 1]);
    hide ApplyEvent, Project;
    if i + 1 < |log| {
      AdminIsLastChange(log[..|log| - 1], i);
    }
  }
}
