/**
 * The `communities` rows of the index are the contract's community records: owner, name, policy,
 * transfer delay, pending owner and transfer time, in every run.
 */
module CommunityIndex {
  import opened Wrappers
  import opened Bytes
  import opened Communities
  import opened CommunityRuns
  import P = Projections

  /** How the decoded event looks to the indexer; `b64` renders a community or post id. */
  function PayloadOf(b64: Bytes -> string, event: Event): P.Payload {
    match event
    case CommunityCreated(id, owner, name, hash, uri, delay, now) =>
        P.CommunityCreated(b64(id), owner, name, hash, uri, delay, now)
    case RoleSet(id, actor, subject, role, scope, expiresAt, now) =>
      P.RoleSet(b64(id), actor, subject, if role >= 0 then role else 0, b64(scope), expiresAt, now)
    case PolicyChanged(id, actor, hash, uri, now) => P.CommunityPolicySet(b64(id), hash, uri, now)
    case TransferProposed(id, owner, newOwner, effectiveAt) => P.TransferProposed(b64(id), newOwner, effectiveAt)
    case TransferCancelled(id, now) => P.TransferCancelled(b64(id), now)
    case Transferred(id, previousOwner, newOwner, now) => P.Transferred(b64(id), newOwner, now)
    case LabelSet(id, actor, postId, text, reason, now) => P.Labelled(b64(id), actor, b64(postId), text, reason, now)
  }

  ghost predicate Injective(b64: Bytes -> string) {
    forall x, y | b64(x) == b64(y) :: x == y
  }

  /** All events a run emits, as payloads, in order. */
  ghost function PayloadsAt(b64: Bytes -> string, txs: seq<Tx>, n: nat, self: Bytes): seq<P.Payload>
    requires n <= |txs|
  {
    if n == 0 then []
    else PayloadsAt(b64, txs, n - 1, self) + Payloads(b64, EventsOf(Step(StateAt(txs, n - 1, self), txs[n - 1], self)))
  }

  ghost function Payloads(b64: Bytes -> string, events: seq<Event>): seq<P.Payload> {
    if events == [] then [] else Payloads(b64, events[..|events| - 1]) + [PayloadOf(b64, events[|events| - 1])]
  }

  /** The communities contract's payloads in a log, in order. */
  ghost function CommunityPayloads(log: seq<P.LogEvent>): seq<P.Payload> {
    if log == [] then []
    else
      var e := log[|log| - 1];
      CommunityPayloads(log[..|log| - 1]) + (if e.contract == P.CommunitiesContract then [e.payload] else [])
  }

  /** A community row without its timestamps. */
  datatype View = View(
    owner: Bytes, name: string, policyHash: Bytes, policyUri: string, transferDelayMs: u64, pendingOwner: Bytes,
    transferEffectiveAt: u64)

  ghost function RowView(row: P.CommunityRow): View {
    View(row.owner, row.name, row.policyHash, row.policyUri, row.transferDelayMs, row.pendingOwner,
         row.transferEffectiveAt)
  }

  ghost function Indexed(t: P.Tables, id: string): Option<View> {
    if id in t.communities.communities then Some(RowView(t.communities.communities[id])) else None
  }

  /** What the contract stores about a community. */
  ghost function Stored(s: Storage, id: Bytes): Option<View> {
    if id in s.communities then
      var rec := s.communities[id];
      Some(View(rec.owner, rec.name, rec.policyHash, rec.policyUri, rec.transferDelayMs, rec.pendingOwner,
                rec.transferEffectiveAt))
    else None
  }

  /** What a payload makes of the row of `id`. */
  ghost function ViewAfter(row: Option<View>, id: string, payload: P.Payload): Option<View> {
    match payload
    case CommunityCreated(id', owner, name, hash, uri, delay, _) =>
      if id' == id then Some(View(owner, name, hash, uri, delay, [], 0)) else row
    case CommunityPolicySet(id', hash, uri, _) =>
      if id' == id && row.Some? then Some(row.value.(policyHash := hash, policyUri := uri)) else row
    case TransferProposed(id', newOwner, effectiveAt) =>
      if id' == id && row.Some? then Some(row.value.(pendingOwner := newOwner, transferEffectiveAt := effectiveAt))
         else row
    case TransferCancelled(id', _) =>
      if id' == id && row.Some? then Some(row.value.(pendingOwner := [], transferEffectiveAt := 0)) else row
    case Transferred(id', newOwner, _) =>
      if id' == id && row.Some? then Some(row.value.(owner := newOwner, pendingOwner := [],
                                                     transferEffectiveAt := 0)) else row
    case _ => row
  }

  ghost function ViewFrom(row: Option<View>, id: string, payloads: seq<P.Payload>): Option<View> {
    if payloads == [] then row
    else ViewAfter(ViewFrom(row, id, payloads[..|payloads| - 1]), id, payloads[|payloads| - 1])
  }

  lemma ApplyView(t: P.Tables, e: P.LogEvent, id: string)
    ensures Indexed(P.ApplyEvent(t, e), id) ==
            if e.contract == P.CommunitiesContract then ViewAfter(Indexed(t, id), id, e.payload) else Indexed(t, id)
  {
    hide P.NoticesAfter, P.ApplySocial, P.TimestampOf, P.LabelsAfter, P.RolesAfter;
  }

  /** Only events of the communities contract reach the rows, in log order. */
  lemma {:induction false} LogView(log: seq<P.LogEvent>, id: string)
    ensures Indexed(P.Project(P.FreshTables, log), id) == ViewFrom(None, id, CommunityPayloads(log))
  {
    hide ViewAfter, P.ApplyEvent;
    if log != [] {
      var init, e := log[..|log| - 1], log[|log| - 1];
      LogView(init, id);
      ApplyView(P.Project(P.FreshTables, init), e, id);
      assert (CommunityPayloads(init) + [e.payload])[..|CommunityPayloads(init)|] == CommunityPayloads(init);
      assert CommunityPayloads(init) + [] == CommunityPayloads(init);
    }
  }

  /** What a step with these events makes of the row. */
  ghost function ViewAfterStep(b64: Bytes -> string, row: Option<View>, id: Bytes, o: Outcome): Option<View> {
    if EventsOf(o) == [] then row else ViewAfter(row, b64(id), PayloadOf(b64, EventsOf(o)[0]))
  }

  lemma TransferView(b64: Bytes -> string, s: Storage, tx: Tx, self: Bytes, id: Bytes)
    requires tx.call.ProposeOwnerTransfer? || tx.call.CancelOwnerTransfer? || tx.call.ExecuteOwnerTransfer?
    requires b64(tx.call.id) == b64(id) ==> tx.call.id == id
    ensures Stored(After(s, Step(s, tx, self)), id) == ViewAfterStep(b64, Stored(s, id), id, Step(s, tx, self))
  {
    hide Authorized, IsCommunityId, AddU64, RoleKey;
  }

  lemma RecordView(b64: Bytes -> string, s: Storage, tx: Tx, self: Bytes, id: Bytes)
    requires tx.call.CreateCommunity? || tx.call.SetPolicy?
    requires b64(tx.call.id) == b64(id) ==> tx.call.id == id
    ensures Stored(After(s, Step(s, tx, self)), id) == ViewAfterStep(b64, Stored(s, id), id, Step(s, tx, self))
  {
    hide Authorized, EffectiveRank, OptionalPolicy, IsCommunityId;
  }

  lemma RoleView(b64: Bytes -> string, s: Storage, tx: Tx, self: Bytes, id: Bytes)
    requires tx.call.SetIdentityContract? || tx.call.SetRole? || tx.call.SetLabel?
    ensures Stored(After(s, Step(s, tx, self)), id) == ViewAfterStep(b64, Stored(s, id), id, Step(s, tx, self))
  {
    hide Authorized, EffectiveRank, MaySetRole, IsCommunityId;
  }

  lemma OneEvent(s: Storage, tx: Tx, self: Bytes)
    ensures |EventsOf(Step(s, tx, self))| <= 1
  {
    hide Authorized, EffectiveRank, MaySetRole, IsCommunityId, OptionalPolicy, AddU64, RoleKey;
  }

  /** A step changes the stored community as its event changes the row. */
  lemma StepView(b64: Bytes -> string, s: Storage, tx: Tx, self: Bytes, id: Bytes)
    requires Injective(b64)
    ensures Stored(After(s, Step(s, tx, self)), id) == ViewAfterStep(b64, Stored(s, id), id, Step(s, tx, self))
  {
    hide Step, ViewAfterStep, Stored;
    if tx.call.SetIdentityContract? || tx.call.SetRole? || tx.call.SetLabel? {
      RoleView(b64, s, tx, self, id);
    } else if tx.call.CreateCommunity? || tx.call.SetPolicy? {
      RecordView(b64, s, tx, self, id);
    } else {
      TransferView(b64, s, tx, self, id);
    }
  }

  lemma OnePayload(b64: Bytes -> string, events: seq<Event>)
    requires |events| <= 1
    ensures Payloads(b64, events) == if events == [] then [] else [PayloadOf(b64, events[0])]
  {
    assert events != [] ==> events[..0] == [];
    hide PayloadOf;
  }

  /** Projecting the payloads of one more step. */
  lemma ViewFromStep(b64: Bytes -> string, before: seq<P.Payload>, id: Bytes, o: Outcome)
    requires |EventsOf(o)| <= 1
    ensures ViewFrom(None, b64(id), before + Payloads(b64, EventsOf(o))) ==
            ViewAfterStep(b64, ViewFrom(None, b64(id), before), id, o)
  {
    OnePayload(b64, EventsOf(o));
    hide ViewAfter, PayloadOf, Payloads;
    if EventsOf(o) == [] {
      assert before + [] == before;
    } else {
      var payload := PayloadOf(b64, EventsOf(o)[0]);
      assert (before + [payload])[..|before|] == before;
    }
  }

  /** One more step of storage and one more step of the projection keep agreeing. */
  lemma StepAgrees(b64: Bytes -> string, before: seq<P.Payload>, s: Storage, tx: Tx, self: Bytes, id: Bytes)
    requires Injective(b64) && Stored(s, id) == ViewFrom(None, b64(id), before)
    ensures Stored(After(s, Step(s, tx, self)), id) ==
            ViewFrom(None, b64(id), before + Payloads(b64, EventsOf(Step(s, tx, self))))
  {
    hide Step, ViewFrom, ViewAfterStep, Injective, Stored, Payloads, EventsOf, After;
    StepView(b64, s, tx, self, id);
    OneEvent(s, tx, self);
    ViewFromStep(b64, before, id, Step(s, tx, self));
  }

  lemma NothingStored(b64: Bytes -> string, txs: seq<Tx>, self: Bytes, id: Bytes)
    ensures Stored(StateAt(txs, 0, self), id) == ViewFrom(None, b64(id), PayloadsAt(b64, txs, 0, self))
  {
  }

  lemma {:induction false} RunView(b64: Bytes -> string, txs: seq<Tx>, n: nat, self: Bytes, id: Bytes)
    requires Injective(b64) && n <= |txs|
    ensures Stored(StateAt(txs, n, self), id) == ViewFrom(None, b64(id), PayloadsAt(b64, txs, n, self))
  {
    hide Step, ViewFrom, Injective, Stored, Payloads, EventsOf, After;
    if n == 0 {
      NothingStored(b64, txs, self, id);
    } else {
      RunView(b64, txs, n - 1, self, id);
      StepAgrees(b64, PayloadsAt(b64, txs, n - 1, self), StateAt(txs, n - 1, self), txs[n - 1], self, id);
    }
  }

  /**
   * For every run of the contract and every log that holds exactly its events among those of other
   * contracts, the row of every community agrees with storage, executed transfers included.
   */
  lemma CommunityIndexRefines(b64: Bytes -> string, txs: seq<Tx>, n: nat, self: Bytes, log: seq<P.LogEvent>, id: Bytes)
    requires Injective(b64) && n <= |txs|
    requires CommunityPayloads(log) == PayloadsAt(b64, txs, n, self)
    ensures Indexed(P.Project(P.FreshTables, log), b64(id)) == Stored(StateAt(txs, n, self), id)
  {
    LogView(log, b64(id));
    RunView(b64, txs, n, self, id);
  }
}
