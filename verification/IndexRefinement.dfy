/**
 * The index refines the contract: the rows that `applyIdentity` makes of the events a run of the
 * identity contract emits are the contract's storage, column by column (`updated_at` aside),
 * whatever other protocol events stand between them in the log.
 */
module IndexRefinement {
  import opened Wrappers
  import opened Bytes
  import opened Identity
  import opened IdentityRuns
  import opened Projections
  import opened Chain
  import opened Database
  import opened Reorg

  // -------------------------------------------------------------------------
  // One account's rows
  // -------------------------------------------------------------------------

  /** All events a run emits, in order. */
  ghost function EventsAt(txs: seq<Tx>, n: nat): seq<Event>
    requires n <= |txs|
  {
    if n == 0 then [] else EventsAt(txs, n - 1) + EventsOf(Step(StateAt(txs, n - 1), txs[n - 1]))
  }

  /** The identity contract's events in a log, in order. */
  ghost function IdentityEvents(log: seq<LogEvent>): seq<Event> {
    if log == [] then []
    else
      var e := log[|log| - 1];
      IdentityEvents(log[..|log| - 1])
      + (if e.contract == IdentityContract && e.payload.IdentityPayload? then [e.payload.event] else [])
  }

  /** What an event makes of the identity row of account `a`. */
  ghost function RowAfter(row: Option<IdentityCore>, a: Bytes, event: Event): Option<IdentityCore> {
    if event.account != a then row
    else if event.Registered? then Some(RegisteredCore(event))
    else if row.None? || IdentityUpdate(row.value, event).None? then row
    else IdentityUpdate(row.value, event)
  }

  ghost function RowFrom(row: Option<IdentityCore>, a: Bytes, events: seq<Event>): Option<IdentityCore> {
    if events == [] then row else RowAfter(RowFrom(row, a, events[..|events| - 1]), a, events[|events| - 1])
  }

  /** What an event makes of the device row (a, d). */
  ghost function DeviceAfter(row: Option<DeviceCore>, a: Bytes, d: Bytes, event: Event): Option<DeviceCore> {
    match event
    case DeviceAuthorized(a', d', capabilities, expiresAt, deviceLabel, epoch, now) =>
      if a' == a && d' == d then Some(DeviceCore(capabilities, expiresAt, epoch, false, deviceLabel, now)) else row
    case DeviceRevoked(a', d', _) =>
      if a' == a && d' == d && row.Some? then Some(row.value.(revoked := true)) else row
    case _ => row
  }

  ghost function DeviceFrom(row: Option<DeviceCore>, a: Bytes, d: Bytes, events: seq<Event>): Option<DeviceCore> {
    if events == [] then row else DeviceAfter(DeviceFrom(row, a, d, events[..|events| - 1]), a, d, events[|events| - 1])
  }

  /** The identity row of `a` without `updated_at`. */
  ghost function IndexedIdentity(t: Tables, a: Bytes): Option<IdentityCore> {
    if a in t.identity.identities then Some(t.identity.identities[a].core) else None
  }

  ghost function IndexedDevice(t: Tables, a: Bytes, d: Bytes): Option<DeviceCore> {
    var key := DeviceId(a, d);
    if key in t.identity.devices then Some(t.identity.devices[key].core) else None
  }

  lemma ApplyRows(t: Tables, e: LogEvent, a: Bytes, d: Bytes)
    requires e.contract == IdentityContract && e.payload.IdentityPayload?
    ensures IndexedIdentity(ApplyEvent(t, e), a) == RowAfter(IndexedIdentity(t, a), a, e.payload.event)
    ensures IndexedDevice(ApplyEvent(t, e), a, d) == DeviceAfter(IndexedDevice(t, a, d), a, d, e.payload.event)
  {
    hide NoticesAfter, ApplySocial, RegisteredCore, IdentityUpdate;
  }

  /** Only identity events reach the identity tables, in log order. */
  lemma {:induction false} LogRows(log: seq<LogEvent>, a: Bytes, d: Bytes)
    ensures IndexedIdentity(Project(FreshTables, log), a) == RowFrom(None, a, IdentityEvents(log))
    ensures IndexedDevice(Project(FreshTables, log), a, d) == DeviceFrom(None, a, d, IdentityEvents(log))
  {
    hide ApplyIdentity, RowAfter, DeviceAfter;
    if log != [] {
      var init, e := log[..|log| - 1], log[|log| - 1];
      LogRows(init, a, d);
      if e.contract == IdentityContract && e.payload.IdentityPayload? {
        ApplyRows(Project(FreshTables, init), e, a, d);
        assert (IdentityEvents(init) + [e.payload.event])[..|IdentityEvents(init)|] == IdentityEvents(init);
      } else {
        assert IdentityEvents(log) == IdentityEvents(init);
        assert ApplyEvent(Project(FreshTables, init), e).identity == Project(FreshTables, init).identity;
      }
    }
  }

  lemma {:induction false} RowFromConcat(row: Option<IdentityCore>, a: Bytes, xs: seq<Event>, ys: seq<Event>)
    ensures RowFrom(row, a, xs + ys) == RowFrom(RowFrom(row, a, xs), a, ys)
  {
    if ys == [] {
      assert xs + ys == xs;
    } else {
      RowFromConcat(row, a, xs, ys[..|ys| - 1]);
      assert (xs + ys)[..|xs + ys| - 1] == xs + ys[..|ys| - 1];
    }
  }

  lemma {:induction false} DeviceFromConcat(row: Option<DeviceCore>, a: Bytes, d: Bytes, xs: seq<Event>, ys: seq<Event>)
    ensures DeviceFrom(row, a, d, xs + ys) == DeviceFrom(DeviceFrom(row, a, d, xs), a, d, ys)
  {
    if ys == [] {
      assert xs + ys == xs;
    } else {
      DeviceFromConcat(row, a, d, xs, ys[..|ys| - 1]);
      assert (xs + ys)[..|xs + ys| - 1] == xs + ys[..|ys| - 1];
    }
  }

  // -------------------------------------------------------------------------
  // Storage as rows
  // -------------------------------------------------------------------------

  /**
   * The indexed pending recovery is the stored one: target, approval count, last approver, threshold, effective time.
   */
  ghost predicate PendingAgrees(state: RecoveryState, json: Option<PendingRecoveryJson>) {
    && (json.Some? <==> state.pendingRecovery.Some?)
    && (json.Some? ==>
          var p := state.pendingRecovery.value;
          && state.policy.Some? && p.approvals != []
          && json.value.newOwner == p.newOwner
          && json.value.approvals == |p.approvals|
          && json.value.guardian == p.approvals[|p.approvals| - 1]
          && json.value.threshold == state.policy.value.threshold
          && json.value.effectiveAt == p.effectiveAt)
  }

  /** The row of `a` says what the contract stores. */
  ghost predicate IdentityAgrees(s: Storage, a: Bytes, row: Option<IdentityCore>) {
    && (row.Some? <==> a in s.identities)
    && (row.Some? ==>
          var rec, state, core := s.identities[a], RecoveryOf(s, a), row.value;
          && core.owner == rec.owner
          && core.encryptionKey == rec.encryptionKey && core.keyVersion == rec.keyVersion
          && core.profileHash == rec.profileHash && core.profileUri == rec.profileUri
          && core.protocolVersion == rec.protocolVersion && core.deviceEpoch == rec.deviceEpoch
          && core.registeredAt == rec.registeredAt
          && core.policy == state.policy && core.pendingPolicy == state.pendingPolicy
          && PendingAgrees(state, core.pendingRecovery))
  }

  ghost function DeviceView(dev: DeviceRecord): DeviceCore {
    DeviceCore(dev.capabilities, dev.expiresAt, dev.deviceEpoch, dev.revoked, dev.deviceLabel, dev.authorizedAt)
  }

  /** The device row the contract's record stands for; accounts and devices are addresses. */
  ghost function StoredDevice(s: Storage, a: Bytes, d: Bytes): Option<DeviceCore> {
    if IsAddress(a) && IsAddress(d) && DeviceKey(a, d) in s.devices
    then Some(DeviceView(s.devices[DeviceKey(a, d)])) else None
  }

  // -------------------------------------------------------------------------
  // Steps
  // -------------------------------------------------------------------------

  lemma OtherAccountEvents(s: Storage, tx: Tx, a: Bytes, row: Option<IdentityCore>)
    requires tx.call.account != a
    ensures RowFrom(row, a, EventsOf(Step(s, tx))) == row
  {
    EventsOfCaller(s, tx);
    hide Step;
    UnfoldRow(row, a, EventsOf(Step(s, tx)));
  }

  /** A transaction emits at most two events, all about its own account. */
  lemma EventsOfCaller(s: Storage, tx: Tx)
    ensures var events := EventsOf(Step(s, tx));
            |events| <= 2 && forall e | e in events :: e.account == tx.call.account
  {
    hide Resolve, ValidPolicy, Approve;
  }

  /** One or two events are applied one after the other. */
  lemma UnfoldRow(row: Option<IdentityCore>, a: Bytes, events: seq<Event>)
    ensures |events| == 0 ==> RowFrom(row, a, events) == row
    ensures |events| == 1 ==> RowFrom(row, a, events) == RowAfter(row, a, events[0])
    ensures |events| == 2 ==> RowFrom(row, a, events) == RowAfter(RowAfter(row, a, events[0]), a, events[1])
  {
    hide RowAfter;
    if |events| >= 1 {
      assert RowFrom(row, a, events[..|events| - 1][..0]) == row;
    }
    if |events| == 2 {
      assert events[..1][0] == events[0];
      assert RowFrom(row, a, events[..1]) == RowAfter(RowFrom(row, a, events[..1][..0]), a, events[0]);
    }
  }

  /** A proposal: the approval count of the event is the number of stored approvals, the threshold the policy's. */
  lemma ProposalAgrees(s: Storage, tx: Tx, row: Option<IdentityCore>)
    requires 0 < tx.ctx.now <= MAX_CLOCK && tx.call.ProposeRecovery? && Step(s, tx).Committed?
    requires AccountOk(s, tx.call.account)
    requires IdentityAgrees(s, tx.call.account, row)
    ensures IdentityAgrees(After(s, Step(s, tx)), tx.call.account, RowFrom(row, tx.call.account, EventsOf(Step(s, tx))))
  {
    var a, state := tx.call.account, RecoveryOf(s, tx.call.account);
    ApproveKeepsPending(state.pendingRecovery, tx.call.guardian, tx.call.newOwner, state.policy.value,
                        s.identities[a].owner, a, tx.ctx.now);
    var pending := Approve(state.pendingRecovery, tx.call.guardian, tx.call.newOwner, state.policy.value, tx.ctx.now);
    assert pending.Some? && |pending.value.approvals| % U32_MODULUS == |pending.value.approvals|;
    assert pending.value.approvals[|pending.value.approvals| - 1] == tx.call.guardian;
    UnfoldRow(row, a, EventsOf(Step(s, tx)));
    hide RowFrom, Approve, AccountOk;
  }

  /** The policy and recovery calls other than a proposal. */
  lemma RecoveryCallAgrees(s: Storage, tx: Tx, row: Option<IdentityCore>)
    requires tx.call.SetRecoveryPolicy? || tx.call.ApplyRecoveryPolicy? || tx.call.CancelRecoveryPolicy?
             || tx.call.CancelRecovery? || tx.call.ExecuteRecovery?
    requires AccountOk(s, tx.call.account)
    requires IdentityAgrees(s, tx.call.account, row)
    ensures IdentityAgrees(After(s, Step(s, tx)), tx.call.account, RowFrom(row, tx.call.account, EventsOf(Step(s, tx))))
  {
    hide RowFrom, ValidPolicy, ValidPending, AccountOk, IdentityAgrees, Step;
    if tx.call.ExecuteRecovery? {
      ExecutionAgrees(s, tx, row);
    } else if tx.call.ApplyRecoveryPolicy? {
      ApplicationAgrees(s, tx, row);
    } else {
      OwnerCallAgrees(s, tx, row);
    }
  }

  lemma OwnerCallAgrees(s: Storage, tx: Tx, row: Option<IdentityCore>)
    requires tx.call.SetRecoveryPolicy? || tx.call.CancelRecoveryPolicy? || tx.call.CancelRecovery?
    requires AccountOk(s, tx.call.account) && IdentityAgrees(s, tx.call.account, row)
    ensures IdentityAgrees(After(s, Step(s, tx)), tx.call.account, RowFrom(row, tx.call.account, EventsOf(Step(s, tx))))
  {
    hide RowFrom, ValidPolicy, ValidPending, AccountOk;
    UnfoldRow(row, tx.call.account, EventsOf(Step(s, tx)));
  }

  lemma ApplicationAgrees(s: Storage, tx: Tx, row: Option<IdentityCore>)
    requires tx.call.ApplyRecoveryPolicy? && AccountOk(s, tx.call.account) && IdentityAgrees(s, tx.call.account, row)
    ensures IdentityAgrees(After(s, Step(s, tx)), tx.call.account, RowFrom(row, tx.call.account, EventsOf(Step(s, tx))))
  {
    hide RowFrom, ValidPolicy, ValidPending, AccountOk;
    UnfoldRow(row, tx.call.account, EventsOf(Step(s, tx)));
  }

  lemma ExecutionAgrees(s: Storage, tx: Tx, row: Option<IdentityCore>)
    requires tx.call.ExecuteRecovery? && AccountOk(s, tx.call.account) && IdentityAgrees(s, tx.call.account, row)
    ensures IdentityAgrees(After(s, Step(s, tx)), tx.call.account, RowFrom(row, tx.call.account, EventsOf(Step(s, tx))))
  {
    hide RowFrom, ValidPolicy, ValidPending, AccountOk;
    UnfoldRow(row, tx.call.account, EventsOf(Step(s, tx)));
  }

  /** Registration, profile, key and device calls. */
  lemma ProfileCallAgrees(s: Storage, tx: Tx, row: Option<IdentityCore>)
    requires tx.call.Register? || tx.call.UpdateProfile? || tx.call.RotateEncryptionKey?
             || tx.call.AuthorizeDevice? || tx.call.RevokeDevice?
    requires AccountOk(s, tx.call.account)
    requires IdentityAgrees(s, tx.call.account, row)
    ensures IdentityAgrees(After(s, Step(s, tx)), tx.call.account, RowFrom(row, tx.call.account, EventsOf(Step(s, tx))))
  {
    var a := tx.call.account;
    UnfoldRow(row, a, EventsOf(Step(s, tx)));
    if tx.call.Register? {
      assert a !in s.identities ==> RecoveryOf(s, a) == NoRecovery;
    } else if tx.call.UpdateProfile? {
      assert Resolve(s, a, tx.call.device, CAPABILITY_PROFILE, tx.ctx.now).Resolved? ==> a in s.identities;
    }
    hide RowFrom, ValidPolicy, ValidPending, Resolve, AccountOk;
  }

  /** A step keeps the row of every account in agreement with storage. */
  lemma StepAgrees(s: Storage, tx: Tx, a: Bytes, row: Option<IdentityCore>)
    requires 0 < tx.ctx.now <= MAX_CLOCK
    requires AccountOk(s, a) && IdentityAgrees(s, a, row)
    ensures IdentityAgrees(After(s, Step(s, tx)), a, RowFrom(row, a, EventsOf(Step(s, tx))))
  {
    hide Step, RowFrom, AccountOk;
    if tx.call.account != a {
      StepFrame(s, tx, a);
      OtherAccountEvents(s, tx, a, row);
    } else if tx.call.ProposeRecovery? {
      if Step(s, tx).Committed? {
        ProposalAgrees(s, tx, row);
      } else {
        UnfoldRow(row, a, []);
      }
    } else if tx.call.SetRecoveryPolicy? || tx.call.ApplyRecoveryPolicy? || tx.call.CancelRecoveryPolicy?
              || tx.call.CancelRecovery? || tx.call.ExecuteRecovery? {
      RecoveryCallAgrees(s, tx, row);
    } else {
      ProfileCallAgrees(s, tx, row);
    }
  }

  /** What a step makes of the stored device (a, d) is what its events make of the row. */
  lemma DeviceStepAgrees(s: Storage, tx: Tx, a: Bytes, d: Bytes)
    ensures StoredDevice(After(s, Step(s, tx)), a, d) == DeviceFrom(StoredDevice(s, a, d), a, d, EventsOf(Step(s, tx)))
  {
    var events := EventsOf(Step(s, tx));
    if tx.call.AuthorizeDevice? || tx.call.RevokeDevice? {
      DeviceCallAgrees(s, tx, a, d);
    } else {
      assert After(s, Step(s, tx)).devices == s.devices;
      assert forall e | e in events :: !e.DeviceAuthorized? && !e.DeviceRevoked?;
      hide Step;
      NoDeviceEvents(StoredDevice(s, a, d), a, d, events);
    }
  }

  lemma DeviceCallAgrees(s: Storage, tx: Tx, a: Bytes, d: Bytes)
    requires tx.call.AuthorizeDevice? || tx.call.RevokeDevice?
    ensures StoredDevice(After(s, Step(s, tx)), a, d) == DeviceFrom(StoredDevice(s, a, d), a, d, EventsOf(Step(s, tx)))
  {
    var events := EventsOf(Step(s, tx));
    if |tx.call.account| == |a| {
      ConcatInjectivePrefix(tx.call.account, tx.call.device, a, d);
    }
    if events != [] {
      assert |events| == 1 && DeviceFrom(StoredDevice(s, a, d), a, d, events[..0]) == StoredDevice(s, a, d);
    }
    hide OwnerSigned;
  }

  lemma {:induction false} NoDeviceEvents(row: Option<DeviceCore>, a: Bytes, d: Bytes, events: seq<Event>)
    requires forall e | e in events :: !e.DeviceAuthorized? && !e.DeviceRevoked?
    ensures DeviceFrom(row, a, d, events) == row
  {
    if events != [] {
      NoDeviceEvents(row, a, d, events[..|events| - 1]);
    }
  }

  // -------------------------------------------------------------------------
  // Runs
  // -------------------------------------------------------------------------

  lemma NoEventsAgree(a: Bytes, d: Bytes)
    ensures IdentityAgrees(EmptyStorage, a, RowFrom(None, a, []))
    ensures StoredDevice(EmptyStorage, a, d) == DeviceFrom(None, a, d, [])
  {
  }

  lemma {:induction false} EventsAgree(txs: seq<Tx>, n: nat, a: Bytes, d: Bytes)
    requires ValidRun(txs) && n <= |txs|
    ensures IdentityAgrees(StateAt(txs, n), a, RowFrom(None, a, EventsAt(txs, n)))
    ensures StoredDevice(StateAt(txs, n), a, d) == DeviceFrom(None, a, d, EventsAt(txs, n))
  {
    hide Step, After, IdentityAgrees, AccountOk, DeviceFrom, RowFrom, StoredDevice, EventsOf;
    if n == 0 {
      NoEventsAgree(a, d);
    } else {
      EventsAgree(txs, n - 1, a, d);
      ReachableOk(txs, n - 1, a);
      var s, events := StateAt(txs, n - 1), EventsOf(Step(StateAt(txs, n - 1), txs[n - 1]));
      StepAgrees(s, txs[n - 1], a, RowFrom(None, a, EventsAt(txs, n - 1)));
      DeviceStepAgrees(s, txs[n - 1], a, d);
      RowFromConcat(None, a, EventsAt(txs, n - 1), events);
      DeviceFromConcat(None, a, d, EventsAt(txs, n - 1), events);
    }
  }

  /**
   * The index refines the contract: for every run of the contract and every log that holds exactly
   * the run's events among any events of other contracts, the identity and device rows of every
   * account are the contract's storage after the run.
   */
  lemma IndexRefinesContract(txs: seq<Tx>, n: nat, log: seq<LogEvent>, a: Bytes, d: Bytes)
    requires ValidRun(txs) && n <= |txs|
    requires IdentityEvents(log) == EventsAt(txs, n)
    ensures IdentityAgrees(StateAt(txs, n), a, IndexedIdentity(Project(FreshTables, log), a))
    ensures IndexedDevice(Project(FreshTables, log), a, d) == StoredDevice(StateAt(txs, n), a, d)
  {
    LogRows(log, a, d);
    EventsAgree(txs, n, a, d);
  }

  /**
   * End to end: after any history of applied and refused blocks and rollbacks, if the blocks now
   * stored carry the events of a run of the contract, the index shows the contract's storage.
   */
  lemma IndexerShowsContract(cfg: Config, ops: seq<Op>, m: nat, startHeight: nat, txs: seq<Tx>, n: nat, a: Bytes,
                             d: Bytes)
    requires m <= |ops| && ValidRun(txs) && n <= |txs|
    requires forall i | 0 <= i < |ops| && ops[i].Apply? :: Canonical(cfg, ops[i].block.events)
    requires IdentityEvents(AllEvents(StoredAfter(ops, m, startHeight))) == EventsAt(txs, n)
    ensures var tables := DbAfter(cfg, ops, m, startHeight).tables;
            && IdentityAgrees(StateAt(txs, n), a, IndexedIdentity(tables, a))
            && IndexedDevice(tables, a, d) == StoredDevice(StateAt(txs, n), a, d)
  {
    ReorgConvergence(cfg, ops, m, startHeight);
    IndexRefinesContract(txs, n, AllEvents(StoredAfter(ops, m, startHeight)), a, d);
    hide DbAfter, StoredAfter, StateAt, EventsAt, IdentityEvents, IdentityAgrees, StoredDevice, Project, AllEvents;
  }
}
