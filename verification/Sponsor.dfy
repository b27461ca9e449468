/**
 * The life cycle of `SponsorService.sponsor` (`apps/sponsor/src/server.ts`): overlapping calls reserve
 * quota, co-sign, broadcast, and then commit or release. Each call is a state machine whose steps are
 * the code between two awaits; any interleaving of any number of calls is a run.
 */
module Sponsor {
  import opened Wrappers
  import opened Quota
  import opened QuotaRuns

  const QUOTA_EXCEEDED := "quota_exceeded"
  const TEMPORARILY_UNAVAILABLE := "temporarily_unavailable"

  /** Where a call stands. `Sponsored` and `RevertedOnChain` are answers after the send returned. */
  datatype Phase =
    | Signing
    | Sending
    | Sponsored(rpcError: bool)
    | RevertedOnChain
    | Refused(category: string)

  /** A validated call; `reservation` is None when the quota refused it. */
  datatype Call = Call(payee: string, ops: nat, at: int, reservation: Option<nat>, phase: Phase)

  datatype SendOutcome =
    | Throws(category: string)
    | Returns(receipt: Usage, rpcError: bool)

  datatype Service = Service(store: Store, calls: seq<Call>)

  const Idle := Service(EmptyStore, [])

  datatype Action =
    | Arrive(payee: string, ops: nat, at: int, now: int)
    | Signed(call: nat, ok: bool, now: int)
    | Sent(call: nat, outcome: SendOutcome, now: int)

  /** Validation done: reserve before anything is sent. */
  function ArriveStep(s: Service, limits: Limits, payee: string, ops: nat, at: int, now: int): Service {
    var (store, decision) := ReserveStep(s.store, limits, payee, ops, at);
    if decision.Allowed? then Service(store, s.calls + [Call(payee, ops, at, Some(|s.store.holds|), Signing)])
    else
      Service(RecordRefusalStep(store, QUOTA_EXCEEDED, now),
              s.calls + [Call(payee, ops, at, None, Refused(QUOTA_EXCEEDED))])
  }

  /** Nothing was broadcast: give the operations back and refuse. */
  function ReleaseAndRefuse(s: Service, c: nat, category: string, now: int): Service
    requires c < |s.calls| && s.calls[c].reservation.Some? && s.calls[c].reservation.value < |s.store.holds|
  {
    Service(RecordRefusalStep(ReleaseStep(s.store, s.calls[c].reservation.value), category, now),
            s.calls[c := s.calls[c].(phase := Refused(category))])
  }

  function SentStep(s: Service, c: nat, outcome: SendOutcome, now: int): Service
    requires c < |s.calls| && s.calls[c].reservation.Some? && s.calls[c].reservation.value < |s.store.holds|
  {
    match outcome
    case Throws(category) => ReleaseAndRefuse(s, c, category, now)
    case Returns(receipt, rpcError) =>
      Service(CommitStep(s.store, s.calls[c].reservation.value, receipt),
              s.calls[c := s.calls[c].(phase := if rpcError then Sponsored(true)
                                                else if receipt.reverted then RevertedOnChain else Sponsored(false))])
  }

  /** The call waits for this answer. */
  predicate Awaits(s: Service, c: nat, phase: Phase) {
    c < |s.calls| && s.calls[c].phase == phase && s.calls[c].reservation.Some?
    && s.calls[c].reservation.value < |s.store.holds|
  }

  /** An answer no call waits for changes nothing. */
  function ServiceStep(s: Service, limits: Limits, action: Action): Service {
    match action
    case Arrive(payee, ops, at, now) => ArriveStep(s, limits, payee, ops, at, now)
    case Signed(c, ok, now) =>
      if !Awaits(s, c, Signing) then s
      else if ok then s.(calls := s.calls[c := s.calls[c].(phase := Sending)])
      else ReleaseAndRefuse(s, c, TEMPORARILY_UNAVAILABLE, now)
    case Sent(c, outcome, now) => if Awaits(s, c, Sending) then SentStep(s, c, outcome, now) else s
  }

  ghost function ServiceAt(limits: Limits, actions: seq<Action>, n: nat): Service
    requires n <= |actions|
  {
    if n == 0 then Idle else ServiceStep(ServiceAt(limits, actions, n - 1), limits, actions[n - 1])
  }

  // -------------------------------------------------------------------------
  // The service object
  // -------------------------------------------------------------------------

  class SponsorService {
    const quota: QuotaStore
    /** The local variables of every call so far. */
    var calls: seq<Call>

    constructor (limits: Limits)
      ensures fresh(quota) && quota.limits == limits && Contents() == Idle
    {
      quota := new QuotaStore(limits);
      calls := [];
    }

    function Contents(): Service
      reads this, quota
    {
      Service(quota.Contents(), calls)
    }

    /** After validation, up to the signature. */
    method Arrived(payee: string, ops: nat, at: int, now: int)
      modifies this, quota
      ensures Contents() == ArriveStep(old(Contents()), quota.limits, payee, ops, at, now)
    {
      hide ReserveStep, RecordRefusalStep;
      var decision, id := quota.Reserve(payee, ops, at);
      if !decision.Allowed? {
        quota.RecordRefusal(QUOTA_EXCEEDED, now);
        calls := calls + [Call(payee, ops, at, None, Refused(QUOTA_EXCEEDED))];
        return;
      }
      calls := calls + [Call(payee, ops, at, Some(id), Signing)];
    }

    method Refuse(c: nat, category: string, now: int)
      requires c < |calls| && calls[c].reservation.Some? && calls[c].reservation.value < |quota.holds|
      modifies this, quota
      ensures Contents() == ReleaseAndRefuse(old(Contents()), c, category, now)
    {
      hide ReleaseStep, RecordRefusalStep;
      quota.Release(calls[c].reservation.value);
      quota.RecordRefusal(category, now);
      calls := calls[c := calls[c].(phase := Refused(category))];
    }

    /** After the co-signature, up to the broadcast. */
    method SignatureDone(c: nat, ok: bool, now: int)
      requires Awaits(Contents(), c, Signing)
      modifies this, quota
      ensures Contents() == ServiceStep(old(Contents()), quota.limits, Signed(c, ok, now))
    {
      hide ReleaseAndRefuse;
      if !ok {
        Refuse(c, TEMPORARILY_UNAVAILABLE, now);
        return;
      }
      calls := calls[c := calls[c].(phase := Sending)];
    }

    /** After the broadcast answered or threw. */
    method SendDone(c: nat, outcome: SendOutcome, now: int)
      requires Awaits(Contents(), c, Sending)
      modifies this, quota
      ensures Contents() == ServiceStep(old(Contents()), quota.limits, Sent(c, outcome, now))
    {
      hide ReleaseAndRefuse, CommitStep;
      if outcome.Throws? {
        Refuse(c, outcome.category, now);
        return;
      }
      quota.Commit(calls[c].reservation.value, outcome.receipt);
      var phase := if outcome.rpcError then Sponsored(true)
                   else if outcome.receipt.reverted then RevertedOnChain else Sponsored(false);
      calls := calls[c := calls[c].(phase := phase)];
    }
  }

  // -------------------------------------------------------------------------
  // Calls and reservations
  // -------------------------------------------------------------------------

  /** What a call's phase makes of its reservation: open in flight, committed once sent, released when refused. */
  function StatusOf(phase: Phase): Status {
    match phase
    case Signing => Open
    case Sending => Open
    case Sponsored(_) => Committed
    case RevertedOnChain => Committed
    case Refused(_) => Status.Released
  }

  /** The reservations of the calls that got one, in order of arrival. */
  ghost function Reservations(calls: seq<Call>): seq<Hold> {
    if calls == [] then []
    else
      var c := calls[|calls| - 1];
      Reservations(calls[..|calls| - 1])
      + (if c.reservation.Some? then [Hold(c.payee, c.ops, c.at, StatusOf(c.phase))] else [])
  }

  /** The store's reservations are the calls' ones, and each call knows its own. */
  ghost predicate Matched(s: Service) {
    && s.store.holds == Reservations(s.calls)
    && (forall c | 0 <= c < |s.calls| && s.calls[c].reservation.Some? ::
          s.calls[c].reservation.value == |Reservations(s.calls[..c])|)
  }

  lemma ReservationsAppend(calls: seq<Call>, c: Call)
    ensures Reservations(calls + [c]) ==
            Reservations(calls) + (if c.reservation.Some? then [Hold(c.payee, c.ops, c.at, StatusOf(c.phase))] else [])
  {
    assert (calls + [c])[..|calls|] == calls;
  }

  /** A call in a new phase changes exactly its own reservation. */
  lemma {:induction false} ReservationsUpdate(calls: seq<Call>, c: nat, phase: Phase)
    requires c < |calls| && calls[c].reservation.Some?
    ensures var id := |Reservations(calls[..c])|;
            && id < |Reservations(calls)|
            && Reservations(calls)[id] == Hold(calls[c].payee, calls[c].ops, calls[c].at, StatusOf(calls[c].phase))
            && Reservations(calls[c := calls[c].(phase := phase)]) ==
               Reservations(calls)[id := Reservations(calls)[id].(status := StatusOf(phase))]
  {
    var n := |calls| - 1;
    var init, last := calls[..n], calls[n];
    var call := calls[c].(phase := phase);
    assert init + [last] == calls;
    ReservationsAppend(init, last);
    if c == n {
      assert calls[c := call] == init + [call];
      ReservationsAppend(init, call);
    } else {
      ReservationsUpdate(init, c, phase);
      assert calls[c := call] == init[c := call] + [last];
      assert init[..c] == calls[..c];
      ReservationsAppend(init[c := call], last);
    }
  }

  /** Phases do not decide which reservation a call has. */
  lemma {:induction false} SamePositions(calls: seq<Call>, calls': seq<Call>)
    requires |calls| == |calls'| && forall k | 0 <= k < |calls| :: calls'[k].reservation == calls[k].reservation
    ensures |Reservations(calls)| == |Reservations(calls')|
  {
    if calls != [] {
      SamePositions(calls[..|calls| - 1], calls'[..|calls| - 1]);
    }
  }

  lemma PhaseKeepsMatched(s: Service, store: Store, c: nat, phase: Phase)
    requires Matched(s) && c < |s.calls| && s.calls[c].reservation.Some?
    requires s.calls[c].reservation.value < |s.store.holds|
    requires var id := s.calls[c].reservation.value;
             store.holds == s.store.holds[id := s.store.holds[id].(status := StatusOf(phase))]
    ensures Matched(Service(store, s.calls[c := s.calls[c].(phase := phase)]))
  {
    ReservationsUpdate(s.calls, c, phase);
    var calls := s.calls[c := s.calls[c].(phase := phase)];
    forall k | 0 <= k < |calls| && calls[k].reservation.Some?
      ensures calls[k].reservation.value == |Reservations(calls[..k])|
    {
      SamePositions(s.calls[..k], calls[..k]);
    }
  }

  lemma ArrivalKeepsMatched(s: Service, store: Store, call: Call)
    requires Matched(s)
    requires call.reservation.Some? ==> call.reservation.value == |s.store.holds|
    requires store.holds ==
             s.store.holds + (if call.reservation.Some?
                 then [Hold(call.payee, call.ops, call.at, StatusOf(call.phase))] else [])
    ensures Matched(Service(store, s.calls + [call]))
  {
    ReservationsAppend(s.calls, call);
    var calls := s.calls + [call];
    forall k | 0 <= k < |calls| && calls[k].reservation.Some?
      ensures calls[k].reservation.value == |Reservations(calls[..k])|
    {
      assert calls[..k] == s.calls[..k];
      assert s.calls[..|s.calls|] == s.calls;
    }
  }

  lemma StepKeepsMatched(s: Service, limits: Limits, action: Action)
    requires Matched(s)
    ensures Matched(ServiceStep(s, limits, action))
  {
    match action
    case Arrive(payee, ops, at, now) =>
      var decision := ReserveStep(s.store, limits, payee, ops, at).1;
      if decision.Allowed? {
        ArrivalKeepsMatched(s, ServiceStep(s, limits, action).store,
                            Call(payee, ops, at, Some(|s.store.holds|), Signing));
      } else {
        ArrivalKeepsMatched(s, ServiceStep(s, limits, action).store,
                            Call(payee, ops, at, None, Refused(QUOTA_EXCEEDED)));
      }
      hide Matched, Decide, Kept, UsageAfterHold;
    case Signed(c, ok, now) =>
      if Awaits(s, c, Signing) {
        ReservationsUpdate(s.calls, c, Signing);
        PhaseKeepsMatched(s, ServiceStep(s, limits, action).store, c,
                          if ok then Sending else Refused(TEMPORARILY_UNAVAILABLE));
      }
      hide Matched, UsageAfterUnhold, Without, WithWindow;
    case Sent(c, outcome, now) =>
      if Awaits(s, c, Sending) {
        ReservationsUpdate(s.calls, c, Sending);
        PhaseKeepsMatched(s, ServiceStep(s, limits, action).store, c, ServiceStep(s, limits, action).calls[c].phase);
      }
      hide Matched, UsageAfterUnhold, Without, WithWindow, UsageAfterSettle, CountersAfterSettle;
  }

  /**
   * In every interleaving each accepted call owns one reservation of its own, which is open exactly while
   * the call is in flight, committed exactly when its send returned, and released exactly when nothing was sent.
   */
  lemma {:induction false} CallsOwnTheirReservations(limits: Limits, actions: seq<Action>, n: nat)
    requires n <= |actions|
    ensures Matched(ServiceAt(limits, actions, n))
  {
    hide ServiceStep, Matched;
    if n == 0 {
      NothingMatched();
    } else {
      CallsOwnTheirReservations(limits, actions, n - 1);
      StepKeepsMatched(ServiceAt(limits, actions, n - 1), limits, actions[n - 1]);
    }
  }

  lemma NothingMatched()
    ensures Matched(Idle)
  {
  }

  // -------------------------------------------------------------------------
  // What overlapping calls do to the quota
  // -------------------------------------------------------------------------

  /** The quota operations of one action. */
  ghost function OpsOf(s: Service, limits: Limits, action: Action): seq<Op> {
    match action
    case Arrive(payee, ops, at, now) =>
      [Op.Reserve(payee, ops, at)]
      + (if ReserveStep(s.store, limits, payee, ops, at).1.Allowed? then []
          else [Op.RecordRefusal(QUOTA_EXCEEDED, now)])
    case Signed(c, ok, now) =>
      if Awaits(s, c, Signing) && !ok
      then [Op.Release(s.calls[c].reservation.value), Op.RecordRefusal(TEMPORARILY_UNAVAILABLE, now)] else []
    case Sent(c, outcome, now) =>
      if !Awaits(s, c, Sending) then []
      else
        match outcome
        case Throws(category) => [Op.Release(s.calls[c].reservation.value), Op.RecordRefusal(category, now)]
        case Returns(receipt, _) => [Op.Commit(s.calls[c].reservation.value, receipt)]
  }

  ghost function Trace(limits: Limits, actions: seq<Action>, n: nat): seq<Op>
    requires n <= |actions|
  {
    if n == 0 then []
    else Trace(limits, actions, n - 1) + OpsOf(ServiceAt(limits, actions, n - 1), limits, actions[n - 1])
  }

  lemma {:induction false} StoreAtPrefix(limits: Limits, ops: seq<Op>, more: seq<Op>, n: nat)
    requires n <= |ops|
    ensures StoreAt(limits, ops + more, n) == StoreAt(limits, ops, n)
  {
    hide StepOf;
    if n != 0 {
      StoreAtPrefix(limits, ops, more, n - 1);
    }
  }

  /** Running one or two more operations. */
  lemma StoreAtAppend(limits: Limits, ops: seq<Op>, more: seq<Op>)
    requires |more| <= 2
    ensures var before, after := StoreAt(limits, ops, |ops|), StoreAt(limits, ops + more, |ops + more|);
            after == if more == [] then before
                     else if |more| == 1 then StepOf(before, limits, more[0])
                     else StepOf(StepOf(before, limits, more[0]), limits, more[1])
  {
    hide StepOf;
    StoreAtPrefix(limits, ops, more, |ops|);
    if more == [] {
      assert ops + more == ops;
    } else if |more| == 2 {
      assert StoreAt(limits, ops + more, |ops| + 1) == StepOf(StoreAt(limits, ops + more, |ops|), limits, more[0]);
    }
  }

  lemma OneAction(s: Service, limits: Limits, action: Action)
    ensures var more := OpsOf(s, limits, action);
            && |more| <= 2
            && (forall op | op in more :: !op.RecordAccepted?)
            && ServiceStep(s, limits, action).store ==
               if more == [] then s.store
               else if |more| == 1 then StepOf(s.store, limits, more[0])
               else StepOf(StepOf(s.store, limits, more[0]), limits, more[1])
  {
    hide CheckStep, HoldStep, UsageAfterUnhold, Without, WithWindow, UsageAfterSettle, CountersAfterSettle, Bumped;
  }

  /** The store of any interleaving of calls is that of a quota run with `reserve` as the only entry. */
  lemma {:induction false} StoreFollowsTrace(limits: Limits, actions: seq<Action>, n: nat)
    requires n <= |actions|
    ensures var trace := Trace(limits, actions, n);
            ServiceAt(limits, actions, n).store == StoreAt(limits, trace, |trace|) && ReserveOnly(trace)
  {
    hide ServiceStep, OpsOf, StepOf;
    if n != 0 {
      StoreFollowsTrace(limits, actions, n - 1);
      var s := ServiceAt(limits, actions, n - 1);
      OneAction(s, limits, actions[n - 1]);
      StoreAtAppend(limits, Trace(limits, actions, n - 1), OpsOf(s, limits, actions[n - 1]));
    }
  }

  /** The call is waiting for a signature or a broadcast. */
  predicate InFlight(c: Call) {
    c.phase == Signing || c.phase == Sending
  }

  /**
   * Overlapping calls never exceed the allowance: on every UTC day the operations of a payee's calls whose send
   * returned, together with those still in flight, total what the payee's row says and at most the daily limit.
   */
  lemma SponsoredWithinDailyLimit(limits: Limits, actions: seq<Action>, n: nat, user: string, day: int)
    requires n <= |actions|
    ensures var s := ServiceAt(limits, actions, n);
            && HoldSum(Reservations(s.calls), Charged(user, day)) <= limits.dailyOps
            && DailyOps(s.store, user, day) == HoldSum(Reservations(s.calls), Charged(user, day))
  {
    hide StoreAt, Reservations, HoldSum;
    CallsOwnTheirReservations(limits, actions, n);
    StoreFollowsTrace(limits, actions, n);
    var trace := Trace(limits, actions, n);
    DailyBound(limits, trace, |trace|, user, day);
    RowsAreCharged(limits, trace, |trace|, user, day);
  }

  lemma {:induction false} NoneOpen(calls: seq<Call>, day: int)
    requires forall c | c in calls :: !InFlight(c)
    ensures HoldSum(Reservations(calls), OpenOn(day)) == 0
  {
    if calls != [] {
      var init, last := calls[..|calls| - 1], calls[|calls| - 1];
      var h := Hold(last.payee, last.ops, last.at, StatusOf(last.phase));
      assert last in calls && OpenOn(day)(h) == 0;
      hide Reservations, HoldSum, StatusOf, OpenOn, InFlight;
      NoneOpen(init, day);
      ReservationsAppend(init, last);
      assert init + [last] == calls;
      HoldSumSnoc(Reservations(init), h, OpenOn(day));
      assert Reservations(init) + [] == Reservations(init);
    }
  }

  /** Once every call was answered nothing leaked: each day's charged operations are exactly the accepted ones. */
  lemma NothingLeaks(limits: Limits, actions: seq<Action>, n: nat, day: int)
    requires n <= |actions| && forall c | c in ServiceAt(limits, actions, n).calls :: !InFlight(c)
    ensures var s := ServiceAt(limits, actions, n);
            RowSum(s.store.usage, OpsOn(day)) == Count(s.store, day, AcceptedOps)
  {
    hide StoreAt, Reservations, HoldSum, RowSum, Count;
    CallsOwnTheirReservations(limits, actions, n);
    StoreFollowsTrace(limits, actions, n);
    var trace := Trace(limits, actions, n);
    QuotaConservation(limits, trace, |trace|, day);
    NoneOpen(ServiceAt(limits, actions, n).calls, day);
  }
}
