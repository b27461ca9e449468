/**
 * Runs of the quota store: any interleaving of reservations, commits, releases, recorded
 * acceptances and reads. The tables agree with the reservations on every day, no allowance is
 * exceeded, and no window of the burst length holds more than the burst limit.
 */
module QuotaRuns {
  import opened Wrappers
  import opened Quota

  datatype Op =
    | Reserve(user: string, ops: nat, at: int)
    | Commit(id: nat, receipt: Usage)
    | Release(id: nat)
    | RecordAccepted(user: string, ops: nat, receipt: Usage, at: int)
    | RecordRefusal(category: string, at: int)
    | Check(user: string, ops: nat, at: int)
    | ReadBurst(user: string, at: int)

  /** Settling a reservation nobody holds does nothing. */
  function StepOf(s: Store, limits: Limits, op: Op): Store {
    match op
    case Reserve(user, ops, at) => ReserveStep(s, limits, user, ops, at).0
    case Commit(id, receipt) => if id < |s.holds| then CommitStep(s, id, receipt) else s
    case Release(id) => if id < |s.holds| then ReleaseStep(s, id) else s
    case RecordAccepted(user, ops, receipt, at) => RecordAcceptedStep(s, user, ops, receipt, at)
    case RecordRefusal(category, at) => RecordRefusalStep(s, category, at)
    case Check(user, ops, at) => CheckStep(s, limits, user, ops, at).0
    case ReadBurst(user, at) => Pruned(s, limits, user, at)
  }

  ghost function StoreAt(limits: Limits, ops: seq<Op>, n: nat): Store
    requires n <= |ops|
  {
    if n == 0 then EmptyStore else StepOf(StoreAt(limits, ops, n - 1), limits, ops[n - 1])
  }

  // -------------------------------------------------------------------------
  // Sums
  // -------------------------------------------------------------------------

  ghost function HoldSum(holds: seq<Hold>, weight: Hold -> nat): nat {
    if holds == [] then 0 else HoldSum(holds[..|holds| - 1], weight) + weight(holds[|holds| - 1])
  }

  lemma HoldSumSnoc(holds: seq<Hold>, h: Hold, weight: Hold -> nat)
    ensures HoldSum(holds + [h], weight) == HoldSum(holds, weight) + weight(h)
  {
    assert (holds + [h])[..|holds|] == holds;
  }

  lemma {:induction false} HoldSumUpdate(holds: seq<Hold>, i: nat, h: Hold, weight: Hold -> nat)
    requires i < |holds|
    ensures HoldSum(holds[i := h], weight) == HoldSum(holds, weight) - weight(holds[i]) + weight(h)
    ensures weight(holds[i]) <= HoldSum(holds, weight)
  {
    var init := holds[..|holds| - 1];
    if i == |holds| - 1 {
      assert holds[i := h][..|holds| - 1] == init;
    } else {
      HoldSumUpdate(init, i, h, weight);
      assert holds[i := h][..|holds| - 1] == init[i := h];
    }
  }

  lemma {:induction false} HoldSumAdds(holds: seq<Hold>, a: Hold -> nat, b: Hold -> nat, c: Hold -> nat)
    requires forall h :: a(h) == b(h) + c(h)
    ensures HoldSum(holds, a) == HoldSum(holds, b) + HoldSum(holds, c)
  {
    if holds != [] {
      HoldSumAdds(holds[..|holds| - 1], a, b, c);
    }
  }

  lemma {:induction false} HoldSumMonotone(holds: seq<Hold>, a: Hold -> nat, b: Hold -> nat)
    requires forall h | h in holds :: a(h) <= b(h)
    ensures HoldSum(holds, a) <= HoldSum(holds, b)
  {
    if holds != [] {
      HoldSumMonotone(holds[..|holds| - 1], a, b);
    }
  }

  ghost function RowSum(usage: map<UsageKey, UsageRow>, weight: (UsageKey, UsageRow) -> int): int
    decreases usage.Keys
  {
    if usage.Keys == {} then 0
    else
      var k :| k in usage;
      weight(k, usage[k]) + RowSum(usage - {k}, weight)
  }

  lemma {:induction false} RowSumPick(usage: map<UsageKey, UsageRow>, k: UsageKey, weight: (UsageKey, UsageRow) -> int)
    requires k in usage
    ensures RowSum(usage, weight) == weight(k, usage[k]) + RowSum(usage - {k}, weight)
    decreases usage.Keys
  {
    var p :| p in usage && RowSum(usage, weight) == weight(p, usage[p]) + RowSum(usage - {p}, weight);
    if p != k {
      RowSumPick(usage - {p}, k, weight);
      RowSumPick(usage - {k}, p, weight);
      assert usage - {p} - {k} == usage - {k} - {p};
    }
  }

  /** What a key contributes to a sum. */
  ghost function Share(usage: map<UsageKey, UsageRow>, k: UsageKey, weight: (UsageKey, UsageRow) -> int): int {
    if k in usage then weight(k, usage[k]) else 0
  }

  lemma RowSumWithout(usage: map<UsageKey, UsageRow>, k: UsageKey, weight: (UsageKey, UsageRow) -> int)
    ensures RowSum(usage - {k}, weight) == RowSum(usage, weight) - Share(usage, k, weight)
  {
    if k in usage {
      RowSumPick(usage, k, weight);
    } else {
      assert usage - {k} == usage;
    }
  }

  lemma RowSumPut(usage: map<UsageKey, UsageRow>, k: UsageKey, row: UsageRow, weight: (UsageKey, UsageRow) -> int)
    ensures RowSum(usage[k := row], weight) == RowSum(usage, weight) - Share(usage, k, weight) + weight(k, row)
  {
    RowSumPick(usage[k := row], k, weight);
    assert usage[k := row] - {k} == usage - {k};
    RowSumWithout(usage, k, weight);
  }

  // -------------------------------------------------------------------------
  // Conservation
  // -------------------------------------------------------------------------

  ghost function Charged(user: string, day: int): Hold -> nat {
    (h: Hold) => if h.user == user && UtcDay(h.at) == day && h.status != Status.Released then h.ops else 0
  }

  ghost function ChargedOn(day: int): Hold -> nat {
    (h: Hold) => if UtcDay(h.at) == day && h.status != Status.Released then h.ops else 0
  }

  ghost function CommittedOn(day: int): Hold -> nat {
    (h: Hold) => if UtcDay(h.at) == day && h.status == Committed then h.ops else 0
  }

  ghost function OpenOn(day: int): Hold -> nat {
    (h: Hold) => if UtcDay(h.at) == day && h.status == Open then h.ops else 0
  }

  ghost function OpsOn(day: int): (UsageKey, UsageRow) -> int {
    (k: UsageKey, row: UsageRow) => if k.day == day then row.ops else 0
  }

  ghost function TxsOn(day: int): (UsageKey, UsageRow) -> int {
    (k: UsageKey, row: UsageRow) => if k.day == day then row.txs else 0
  }

  ghost function RevertedOn(day: int): (UsageKey, UsageRow) -> int {
    (k: UsageKey, row: UsageRow) => if k.day == day then row.reverted else 0
  }

  ghost function RcOn(day: int): (UsageKey, UsageRow) -> int {
    (k: UsageKey, row: UsageRow) => if k.day == day then row.rcUsed else 0
  }

  ghost function Count(s: Store, day: int, counter: Counter): nat {
    var key := CounterKey(day, counter);
    if key in s.counters then s.counters[key] else 0
  }

  /** A user's row holds what was charged to the user that day and not released. */
  ghost predicate RowIsCharged(s: Store, user: string, day: int) {
    DailyOps(s, user, day) == HoldSum(s.holds, Charged(user, day))
  }

  /** Rows that never carried a transaction have no receipt data. */
  ghost predicate ReceiptsNeedTxs(s: Store) {
    forall k | k in s.usage && s.usage[k].txs == 0 :: s.usage[k].reverted == 0 && s.usage[k].rcUsed == 0
  }

  /** The day's rows and counters agree with each other and with the reservations. */
  ghost predicate DayAgrees(s: Store, day: int) {
    && RowSum(s.usage, OpsOn(day)) == HoldSum(s.holds, ChargedOn(day))
    && Count(s, day, AcceptedOps) == HoldSum(s.holds, CommittedOn(day))
    && RowSum(s.usage, TxsOn(day)) == Count(s, day, Accepted)
    && RowSum(s.usage, RevertedOn(day)) == Count(s, day, RevertedTxs)
    && RowSum(s.usage, RcOn(day)) == Count(s, day, RcUsed)
  }

  /** Pruning changes burst windows only. */
  ghost predicate SameTables(s: Store, s': Store) {
    s'.usage == s.usage && s'.counters == s.counters && s'.holds == s.holds
  }

  lemma TablesDecide(s: Store, s': Store, user: string, day: int)
    requires SameTables(s, s')
    ensures RowIsCharged(s', user, day) == RowIsCharged(s, user, day)
    ensures DayAgrees(s', day) == DayAgrees(s, day)
    ensures ReceiptsNeedTxs(s') == ReceiptsNeedTxs(s)
  {
    hide RowSum, HoldSum;
  }

  lemma HoldKeepsRow(s: Store, u: string, ops: nat, at: int, status: Status, user: string, day: int)
    requires status != Status.Released && RowIsCharged(s, user, day)
    ensures RowIsCharged(HoldStep(s, u, ops, at, status), user, day)
  {
    HoldSumSnoc(s.holds, Hold(u, ops, at, status), Charged(user, day));
    hide HoldSum, Window;
  }

  lemma SettleKeepsRow(s: Store, u: string, ops: nat, receipt: Usage, at: int, user: string, day: int)
    requires RowIsCharged(s, user, day)
    ensures RowIsCharged(SettleStep(s, u, ops, receipt, at), user, day)
  {
    hide HoldSum, CountersAfterSettle;
  }

  lemma ReleaseKeepsRow(s: Store, i: nat, user: string, day: int)
    requires i < |s.holds| && RowIsCharged(s, user, day)
    ensures RowIsCharged(ReleaseStep(s, i), user, day)
  {
    HoldSumUpdate(s.holds, i, s.holds[i].(status := Status.Released), Charged(user, day));
    hide HoldSum, Without, WithWindow;
  }

  lemma CommitKeepsRow(s: Store, i: nat, receipt: Usage, user: string, day: int)
    requires i < |s.holds| && RowIsCharged(s, user, day)
    ensures RowIsCharged(CommitStep(s, i, receipt), user, day)
  {
    var h := s.holds[i].(status := Committed);
    HoldSumUpdate(s.holds, i, h, Charged(user, day));
    hide HoldSum, SettleStep;
    if s.holds[i].status == Open {
      SettleKeepsRow(s.(holds := s.holds[i := h]), h.user, h.ops, receipt, h.at, user, day);
    }
  }

  lemma StepKeepsRow(s: Store, limits: Limits, op: Op, user: string, day: int)
    requires RowIsCharged(s, user, day)
    ensures RowIsCharged(StepOf(s, limits, op), user, day)
  {
    hide RowIsCharged, HoldStep, SettleStep, CommitStep, ReleaseStep, Window, Kept, Decide;
    match op
    case Reserve(u, ops, at) =>
      var checked := CheckStep(s, limits, u, ops, at).0;
      TablesDecide(s, checked, user, day);
      HoldKeepsRow(checked, u, ops, at, Open, user, day);
    case Commit(id, receipt) =>
      if id < |s.holds| { CommitKeepsRow(s, id, receipt, user, day); }
    case Release(id) =>
      if id < |s.holds| { ReleaseKeepsRow(s, id, user, day); }
    case RecordAccepted(u, ops, receipt, at) =>
      HoldKeepsRow(s, u, ops, at, Committed, user, day);
      SettleKeepsRow(HoldStep(s, u, ops, at, Committed), u, ops, receipt, at, user, day);
    case RecordRefusal(category, at) =>
      RefusalKeepsRow(s, category, at, user, day);
    case Check(u, ops, at) => TablesDecide(s, StepOf(s, limits, op), user, day);
    case ReadBurst(u, at) => TablesDecide(s, StepOf(s, limits, op), user, day);
  }

  lemma RefusalKeepsRow(s: Store, category: string, at: int, user: string, day: int)
    requires RowIsCharged(s, user, day)
    ensures RowIsCharged(RecordRefusalStep(s, category, at), user, day)
  {
  }

  /** In every reachable store each (user, day) row holds exactly the operations charged and not released. */
  lemma {:induction false} RowsAreCharged(limits: Limits, ops: seq<Op>, n: nat, user: string, day: int)
    requires n <= |ops|
    ensures RowIsCharged(StoreAt(limits, ops, n), user, day)
  {
    if n != 0 {
      RowsAreCharged(limits, ops, n - 1, user, day);
      StepKeepsRow(StoreAt(limits, ops, n - 1), limits, ops[n - 1], user, day);
    }
  }

  /** The clamp of a release never fires: the row holds at least what the reservation charged. */
  lemma ClampNeverFires(limits: Limits, ops: seq<Op>, n: nat, i: nat)
    requires n <= |ops| && i < |StoreAt(limits, ops, n).holds|
             && StoreAt(limits, ops, n).holds[i].status != Status.Released
    ensures var h := StoreAt(limits, ops, n).holds[i];
            DailyOps(StoreAt(limits, ops, n), h.user, UtcDay(h.at)) >= h.ops
  {
    var s := StoreAt(limits, ops, n);
    var h := s.holds[i];
    RowsAreCharged(limits, ops, n, h.user, UtcDay(h.at));
    HoldSumUpdate(s.holds, i, h, Charged(h.user, UtcDay(h.at)));
  }

  /** A hold is charged at once; one that is committed already still lacks its settlement. */
  lemma HoldKeepsDay(s: Store, u: string, ops: nat, at: int, status: Status, day: int)
    requires status != Status.Released && DayAgrees(s, day) && ReceiptsNeedTxs(s)
    ensures var s' := HoldStep(s, u, ops, at, status);
            && ReceiptsNeedTxs(s')
            && RowSum(s'.usage, OpsOn(day)) == HoldSum(s'.holds, ChargedOn(day))
            && Count(s', day, AcceptedOps) + (if UtcDay(at) == day && status == Committed then ops else 0)
               == HoldSum(s'.holds, CommittedOn(day))
            && RowSum(s'.usage, TxsOn(day)) == Count(s', day, Accepted)
            && RowSum(s'.usage, RevertedOn(day)) == Count(s', day, RevertedTxs)
            && RowSum(s'.usage, RcOn(day)) == Count(s', day, RcUsed)
  {
    var h, key := Hold(u, ops, at, status), UsageKey(u, UtcDay(at));
    HoldSumSnoc(s.holds, h, ChargedOn(day));
    HoldSumSnoc(s.holds, h, CommittedOn(day));
    UsageChange(s.usage, UsageAfterHold(s.usage, key, ops, at), key, day);
    hide HoldSum, RowSum, Window;
  }

  /** All four sums of a day after one row is put. */
  lemma UsageChange(usage: map<UsageKey, UsageRow>, usage': map<UsageKey, UsageRow>, key: UsageKey, day: int)
    requires key in usage' && usage' == usage[key := usage'[key]]
    ensures RowSum(usage', OpsOn(day)) ==
            RowSum(usage, OpsOn(day)) - Share(usage, key, OpsOn(day)) + OpsOn(day)(key, usage'[key])
    ensures RowSum(usage', TxsOn(day)) ==
            RowSum(usage, TxsOn(day)) - Share(usage, key, TxsOn(day)) + TxsOn(day)(key, usage'[key])
    ensures RowSum(usage', RevertedOn(day)) ==
            RowSum(usage, RevertedOn(day)) - Share(usage, key, RevertedOn(day)) + RevertedOn(day)(key, usage'[key])
    ensures RowSum(usage', RcOn(day)) ==
            RowSum(usage, RcOn(day)) - Share(usage, key, RcOn(day)) + RcOn(day)(key, usage'[key])
  {
    hide RowSum, Share;
    RowSumPut(usage, key, usage'[key], OpsOn(day));
    RowSumPut(usage, key, usage'[key], TxsOn(day));
    RowSumPut(usage, key, usage'[key], RevertedOn(day));
    RowSumPut(usage, key, usage'[key], RcOn(day));
  }

  /** All four sums of a day after one row is deleted. */
  lemma UsageDelete(usage: map<UsageKey, UsageRow>, key: UsageKey, day: int)
    ensures RowSum(usage - {key}, OpsOn(day)) == RowSum(usage, OpsOn(day)) - Share(usage, key, OpsOn(day))
    ensures RowSum(usage - {key}, TxsOn(day)) == RowSum(usage, TxsOn(day)) - Share(usage, key, TxsOn(day))
    ensures RowSum(usage - {key}, RevertedOn(day)) ==
            RowSum(usage, RevertedOn(day)) - Share(usage, key, RevertedOn(day))
    ensures RowSum(usage - {key}, RcOn(day)) == RowSum(usage, RcOn(day)) - Share(usage, key, RcOn(day))
  {
    hide RowSum, Share;
    RowSumWithout(usage, key, OpsOn(day));
    RowSumWithout(usage, key, TxsOn(day));
    RowSumWithout(usage, key, RevertedOn(day));
    RowSumWithout(usage, key, RcOn(day));
  }

  /** The counters of a day after a settlement. */
  lemma SettledCounts(s: Store, u: string, ops: nat, receipt: Usage, at: int, day: int)
    ensures var s', here := SettleStep(s, u, ops, receipt, at), if UtcDay(at) == day then 1 else 0;
            && Count(s', day, Accepted) == Count(s, day, Accepted) + here
            && Count(s', day, AcceptedOps) == Count(s, day, AcceptedOps) + here * ops
            && Count(s', day, RevertedTxs) == Count(s, day, RevertedTxs) + (if receipt.reverted then here else 0)
            && Count(s', day, RcUsed) == Count(s, day, RcUsed) + here * receipt.rcUsed
  {
    hide UsageAfterSettle;
  }

  /** A settlement of charged operations that were just marked committed. */
  lemma SettleKeepsDay(s: Store, u: string, ops: nat, receipt: Usage, at: int, day: int)
    requires ReceiptsNeedTxs(s)
    requires RowSum(s.usage, OpsOn(day)) == HoldSum(s.holds, ChargedOn(day))
    requires Count(s, day, AcceptedOps) + (if UtcDay(at) == day then ops else 0) == HoldSum(s.holds, CommittedOn(day))
    requires RowSum(s.usage, TxsOn(day)) == Count(s, day, Accepted)
    requires RowSum(s.usage, RevertedOn(day)) == Count(s, day, RevertedTxs)
    requires RowSum(s.usage, RcOn(day)) == Count(s, day, RcUsed)
    ensures DayAgrees(SettleStep(s, u, ops, receipt, at), day) && ReceiptsNeedTxs(SettleStep(s, u, ops, receipt, at))
  {
    var key := UsageKey(u, UtcDay(at));
    SettledCounts(s, u, ops, receipt, at, day);
    UsageChange(s.usage, UsageAfterSettle(s.usage, key, receipt, at), key, day);
    hide HoldSum, RowSum, CountersAfterSettle, Count;
  }

  lemma CommitKeepsDay(s: Store, i: nat, receipt: Usage, day: int)
    requires i < |s.holds| && DayAgrees(s, day) && ReceiptsNeedTxs(s)
    ensures DayAgrees(CommitStep(s, i, receipt), day) && ReceiptsNeedTxs(CommitStep(s, i, receipt))
  {
    var h := s.holds[i].(status := Committed);
    HoldSumUpdate(s.holds, i, h, ChargedOn(day));
    HoldSumUpdate(s.holds, i, h, CommittedOn(day));
    hide HoldSum, SettleStep, RowSum;
    if s.holds[i].status == Open {
      SettleKeepsDay(s.(holds := s.holds[i := h]), h.user, h.ops, receipt, h.at, day);
    }
  }

  lemma ReleaseKeepsDay(s: Store, i: nat, day: int)
    requires i < |s.holds| && DayAgrees(s, day) && ReceiptsNeedTxs(s)
    requires RowIsCharged(s, s.holds[i].user, UtcDay(s.holds[i].at))
    ensures DayAgrees(ReleaseStep(s, i), day) && ReceiptsNeedTxs(ReleaseStep(s, i))
  {
    var h := s.holds[i];
    var key := UsageKey(h.user, UtcDay(h.at));
    HoldSumUpdate(s.holds, i, h.(status := Status.Released), ChargedOn(day));
    HoldSumUpdate(s.holds, i, h.(status := Status.Released), CommittedOn(day));
    HoldSumUpdate(s.holds, i, h, Charged(h.user, UtcDay(h.at)));
    if h.status == Open {
      UnholdRow(s.usage, key, h.ops, h.at, day);
    }
    hide HoldSum, RowSum, Without, WithWindow, UsageAfterUnhold;
  }

  /** Giving operations back changes one row, or deletes one that held nothing else. */
  lemma UnholdRow(usage: map<UsageKey, UsageRow>, key: UsageKey, ops: nat, at: int, day: int)
    requires ops <= if key in usage then usage[key].ops else 0
    requires forall k | k in usage && usage[k].txs == 0 :: usage[k].reverted == 0 && usage[k].rcUsed == 0
    ensures var usage' := UsageAfterUnhold(usage, key, ops, at);
            && (forall k | k in usage' && usage'[k].txs == 0 :: usage'[k].reverted == 0 && usage'[k].rcUsed == 0)
            && RowSum(usage', OpsOn(day)) == RowSum(usage, OpsOn(day)) - (if key.day == day then ops else 0)
            && RowSum(usage', TxsOn(day)) == RowSum(usage, TxsOn(day))
            && RowSum(usage', RevertedOn(day)) == RowSum(usage, RevertedOn(day))
            && RowSum(usage', RcOn(day)) == RowSum(usage, RcOn(day))
  {
    var usage' := UsageAfterUnhold(usage, key, ops, at);
    if key in usage' {
      UsageChange(usage, usage', key, day);
    } else {
      UsageDelete(usage, key, day);
    }
    hide RowSum;
    assert key !in usage' ==> usage' == usage - {key};
  }

  lemma RefusalKeepsDay(s: Store, category: string, at: int, day: int)
    requires DayAgrees(s, day) && ReceiptsNeedTxs(s)
    ensures DayAgrees(RecordRefusalStep(s, category, at), day) && ReceiptsNeedTxs(RecordRefusalStep(s, category, at))
  {
    hide HoldSum, RowSum;
  }

  lemma StepKeepsDay(s: Store, limits: Limits, op: Op, day: int)
    requires DayAgrees(s, day) && ReceiptsNeedTxs(s)
    requires op.Release? && op.id < |s.holds| ==> RowIsCharged(s, s.holds[op.id].user, UtcDay(s.holds[op.id].at))
    ensures DayAgrees(StepOf(s, limits, op), day) && ReceiptsNeedTxs(StepOf(s, limits, op))
  {
    hide ReceiptsNeedTxs, HoldStep, SettleStep, CommitStep, ReleaseStep, Window, Kept, Decide, HoldSum, RowSum,
        RowIsCharged;
    match op
    case Reserve(u, ops, at) =>
      var checked := CheckStep(s, limits, u, ops, at).0;
      TablesDecide(s, checked, "", day);
      HoldKeepsDay(checked, u, ops, at, Open, day);
    case Commit(id, receipt) =>
      if id < |s.holds| { CommitKeepsDay(s, id, receipt, day); }
    case Release(id) =>
      if id < |s.holds| { ReleaseKeepsDay(s, id, day); }
    case RecordAccepted(u, ops, receipt, at) =>
      HoldKeepsDay(s, u, ops, at, Committed, day);
      SettleKeepsDay(HoldStep(s, u, ops, at, Committed), u, ops, receipt, at, day);
    case RecordRefusal(category, at) => RefusalKeepsDay(s, category, at, day);
    case Check(u, ops, at) => TablesDecide(s, StepOf(s, limits, op), "", day);
    case ReadBurst(u, at) => TablesDecide(s, StepOf(s, limits, op), "", day);
  }

  lemma {:induction false} DaysAgree(limits: Limits, ops: seq<Op>, n: nat, day: int)
    requires n <= |ops|
    ensures DayAgrees(StoreAt(limits, ops, n), day) && ReceiptsNeedTxs(StoreAt(limits, ops, n))
  {
    if n != 0 {
      hide StepOf;
      DaysAgree(limits, ops, n - 1, day);
      var s := StoreAt(limits, ops, n - 1);
      if ops[n - 1].Release? && ops[n - 1].id < |s.holds| {
        RowsAreCharged(limits, ops, n - 1, s.holds[ops[n - 1].id].user, UtcDay(s.holds[ops[n - 1].id].at));
      }
      StepKeepsDay(s, limits, ops[n - 1], day);
    }
  }

  /**
   * Conservation: after any interleaving of calls, on every UTC day the operations of all users' rows are
   * those the aggregate counter accepted plus those of reservations still open, and the rows' transaction,
   * revert and RC totals are the day's counters.
   */
  lemma QuotaConservation(limits: Limits, ops: seq<Op>, n: nat, day: int)
    requires n <= |ops|
    ensures var s := StoreAt(limits, ops, n);
            && RowSum(s.usage, OpsOn(day)) == Count(s, day, AcceptedOps) + HoldSum(s.holds, OpenOn(day))
            && RowSum(s.usage, TxsOn(day)) == Count(s, day, Accepted)
            && RowSum(s.usage, RevertedOn(day)) == Count(s, day, RevertedTxs)
            && RowSum(s.usage, RcOn(day)) == Count(s, day, RcUsed)
  {
    DaysAgree(limits, ops, n, day);
    HoldSumAdds(StoreAt(limits, ops, n).holds, ChargedOn(day), CommittedOn(day), OpenOn(day));
  }

  // -------------------------------------------------------------------------
  // The daily allowance
  // -------------------------------------------------------------------------

  /** Reservations are the only way in. */
  ghost predicate ReserveOnly(ops: seq<Op>) {
    forall op | op in ops :: !op.RecordAccepted?
  }

  lemma StepKeepsDaily(s: Store, limits: Limits, op: Op, user: string, day: int)
    requires !op.RecordAccepted? && DailyOps(s, user, day) <= limits.dailyOps
    ensures DailyOps(StepOf(s, limits, op), user, day) <= limits.dailyOps
  {
    hide Kept, CountersAfterSettle, Without, WithWindow, SumOps, CeilDiv, Window;
  }

  /** With `reserve` as the only entry no (user, day) row ever exceeds the daily allowance, however calls overlap. */
  lemma {:induction false} DailyBound(limits: Limits, ops: seq<Op>, n: nat, user: string, day: int)
    requires n <= |ops| && ReserveOnly(ops)
    ensures DailyOps(StoreAt(limits, ops, n), user, day) <= limits.dailyOps
    ensures HoldSum(StoreAt(limits, ops, n).holds, Charged(user, day)) <= limits.dailyOps
  {
    RowsAreCharged(limits, ops, n, user, day);
    hide StepOf, HoldSum;
    if n != 0 {
      DailyBound(limits, ops, n - 1, user, day);
      StepKeepsDaily(StoreAt(limits, ops, n - 1), limits, ops[n - 1], user, day);
    }
  }

  // -------------------------------------------------------------------------
  // The burst limit
  // -------------------------------------------------------------------------

  /** The time an operation reads the burst window at. */
  function TimeOf(op: Op): Option<int> {
    match op
    case Reserve(_, _, at) => Some(at)
    case Check(_, _, at) => Some(at)
    case ReadBurst(_, at) => Some(at)
    case RecordAccepted(_, _, _, at) => Some(at)
    case _ => None
  }

  /** Times never go back. */
  ghost predicate Ordered(ops: seq<Op>) {
    forall i, j | 0 <= i <= j < |ops| && TimeOf(ops[i]).Some? && TimeOf(ops[j]).Some? ::
      TimeOf(ops[i]).value <= TimeOf(ops[j]).value
  }

  /** The burst entries of the first `n` holds of a user that were not released and lie after the cutoff. */
  ghost function Entries(holds: seq<Hold>, user: string, cutoff: int): seq<BurstEntry> {
    if holds == [] then []
    else
      var i, h := |holds| - 1, holds[|holds| - 1];
      Entries(holds[..i], user, cutoff)
      + (if h.user == user && h.status != Status.Released && h.at > cutoff then [BurstEntry(i, h.at, h.ops)] else [])
  }

  /** After any cutoff at or above `floor` the user's list holds exactly the entries of holds not released. */
  ghost predicate WindowIsExact(s: Store, user: string, floor: int) {
    forall c | c >= floor :: Kept(Window(s.bursts, user), c) == Entries(s.holds, user, c)
  }

  ghost predicate Increasing(entries: seq<BurstEntry>, limit: nat) {
    && (forall i, j | 0 <= i < j < |entries| :: entries[i].id < entries[j].id)
    && (forall e | e in entries :: e.id < limit)
  }

  lemma {:induction false} KeptSubset(entries: seq<BurstEntry>, cutoff: int, limit: nat)
    requires Increasing(entries, limit)
    ensures Increasing(Kept(entries, cutoff), limit)
    ensures forall e | e in Kept(entries, cutoff) :: e in entries && e.at > cutoff
  {
    if entries != [] {
      KeptSubset(entries[..|entries| - 1], cutoff, limit);
      assert forall e | e in entries[..|entries| - 1] :: e.id < entries[|entries| - 1].id;
    }
  }

  lemma KeptAppend(entries: seq<BurstEntry>, e: BurstEntry, cutoff: int)
    ensures Kept(entries + [e], cutoff) == Kept(entries, cutoff) + (if e.at > cutoff then [e] else [])
  {
    assert (entries + [e])[..|entries|] == entries;
  }

  lemma {:induction false} KeptTwice(entries: seq<BurstEntry>, a: int, b: int)
    requires a <= b
    ensures Kept(Kept(entries, a), b) == Kept(entries, b)
  {
    if entries != [] {
      var init, last := entries[..|entries| - 1], entries[|entries| - 1];
      KeptTwice(init, a, b);
      KeptAppend(Kept(init, a), last, b);
      assert Kept(init, a) + [] == Kept(init, a) && Kept(init, b) + [] == Kept(init, b);
    }
  }

  /** All entries but the object `id`. */
  ghost function Dropped(entries: seq<BurstEntry>, id: nat): seq<BurstEntry> {
    if entries == [] then []
    else
      var last := entries[|entries| - 1];
      Dropped(entries[..|entries| - 1], id) + (if last.id != id then [last] else [])
  }

  lemma DroppedAppend(entries: seq<BurstEntry>, e: BurstEntry, id: nat)
    ensures Dropped(entries + [e], id) == Dropped(entries, id) + (if e.id != id then [e] else [])
  {
    assert (entries + [e])[..|entries|] == entries;
  }

  lemma {:induction false} WithoutAppend(entries: seq<BurstEntry>, e: BurstEntry, id: nat)
    requires forall x | x in entries :: x.id != e.id
    ensures Without(entries + [e], id) == if e.id == id then entries else Without(entries, id) + [e]
  {
    if entries == [] {
      assert [e][1..] == [] && entries + [e] == [e];
    } else {
      WithoutAppend(entries[1..], e, id);
      assert (entries + [e])[1..] == entries[1..] + [e];
      assert [entries[0]] + entries[1..] == entries;
    }
  }

  lemma {:induction false} DroppedAbsent(entries: seq<BurstEntry>, id: nat)
    requires forall x | x in entries :: x.id != id
    ensures Dropped(entries, id) == entries
  {
    if entries != [] {
      DroppedAbsent(entries[..|entries| - 1], id);
    }
  }

  lemma IncreasingInit(entries: seq<BurstEntry>, limit: nat)
    requires entries != [] && Increasing(entries, limit)
    ensures Increasing(entries[..|entries| - 1], limit)
    ensures forall x | x in entries[..|entries| - 1] :: x.id != entries[|entries| - 1].id
  {
  }

  /** Removal by identity takes out exactly that object. */
  lemma {:induction false} WithoutIsDropped(entries: seq<BurstEntry>, id: nat, limit: nat)
    requires Increasing(entries, limit)
    ensures Without(entries, id) == Dropped(entries, id)
  {
    if entries != [] {
      hide Without, Dropped, Increasing;
      var init, last := entries[..|entries| - 1], entries[|entries| - 1];
      IncreasingInit(entries, limit);
      WithoutIsDropped(init, id, limit);
      WithoutAppend(init, last, id);
      DroppedAppend(init, last, id);
      assert init + [last] == entries;
      if last.id == id {
        DroppedAbsent(init, id);
        assert init + [] == init;
      }
    } else {
      assert Dropped(entries, id) == [] == Without(entries, id);
    }
  }

  lemma {:induction false} KeptDropped(entries: seq<BurstEntry>, id: nat, cutoff: int)
    ensures Kept(Dropped(entries, id), cutoff) == Dropped(Kept(entries, cutoff), id)
  {
    if entries != [] {
      var init, last := entries[..|entries| - 1], entries[|entries| - 1];
      KeptDropped(init, id, cutoff);
      KeptAppend(Dropped(init, id), last, cutoff);
      DroppedAppend(Kept(init, cutoff), last, id);
      assert Dropped(init, id) + [] == Dropped(init, id) && Kept(init, cutoff) + [] == Kept(init, cutoff);
    }
  }

  lemma {:induction false} EntriesBelow(holds: seq<Hold>, user: string, cutoff: int)
    ensures forall e | e in Entries(holds, user, cutoff) :: e.id < |holds|
  {
    if holds != [] {
      EntriesBelow(holds[..|holds| - 1], user, cutoff);
    }
  }

  lemma EntriesAppend(holds: seq<Hold>, h: Hold, user: string, cutoff: int)
    ensures Entries(holds + [h], user, cutoff) ==
            Entries(holds, user, cutoff)
            + (if h.user == user && h.status != Status.Released && h.at > cutoff
                then [BurstEntry(|holds|, h.at, h.ops)] else [])
  {
    assert (holds + [h])[..|holds|] == holds;
  }

  /** Releasing a hold takes exactly its entry out; committing it changes nothing. */
  lemma {:induction false} EntriesUpdate(holds: seq<Hold>, i: nat, status: Status, user: string, cutoff: int)
    requires i < |holds| && holds[i].status == Open && status != Open
    ensures var entries := Entries(holds, user, cutoff);
            Entries(holds[i := holds[i].(status := status)], user, cutoff) ==
            if status == Status.Released then Dropped(entries, i) else entries
  {
    hide Entries, Dropped;
    var n := |holds| - 1;
    var init, last := holds[..n], holds[n];
    var h := holds[i].(status := status);
    EntriesAppend(init, last, user, cutoff);
    assert init + [last] == holds;
    EntriesBelow(init, user, cutoff);
    if i == n {
      assert holds[i := h] == init + [h];
      EntriesAppend(init, h, user, cutoff);
      DroppedAbsent(Entries(init, user, cutoff), i);
      DroppedAppend(Entries(init, user, cutoff), BurstEntry(n, last.at, last.ops), i);
      assert forall x: seq<BurstEntry> :: x + [] == x;
    } else {
      assert holds[i := h] == init[i := h] + [last];
      EntriesUpdate(init, i, status, user, cutoff);
      EntriesAppend(init[i := h], last, user, cutoff);
      DroppedAppend(Entries(init, user, cutoff), BurstEntry(n, last.at, last.ops), i);
      assert forall x: seq<BurstEntry> :: x + [] == x;
    }
  }

  lemma {:induction false} EntriesAreHolds(holds: seq<Hold>, user: string, cutoff: int)
    ensures forall e | e in Entries(holds, user, cutoff) :: e.id < |holds| && holds[e.id].user == user
  {
    if holds != [] {
      EntriesAreHolds(holds[..|holds| - 1], user, cutoff);
    }
  }

  lemma {:induction false} EntriesSum(holds: seq<Hold>, user: string, cutoff: int)
    ensures SumOps(Entries(holds, user, cutoff)) == HoldSum(holds, HeldAfter(user, cutoff))
  {
    if holds != [] {
      var n := |holds| - 1;
      var entries, e := Entries(holds[..n], user, cutoff), BurstEntry(n, holds[n].at, holds[n].ops);
      EntriesSum(holds[..n], user, cutoff);
      assert (entries + [e])[..|entries|] == entries && entries + [] == entries;
    }
  }

  ghost function HeldAfter(user: string, cutoff: int): Hold -> nat {
    (h: Hold) => if h.user == user && h.status != Status.Released && h.at > cutoff then h.ops else 0
  }

  /** Unreleased operations of a user in the half-open interval [from, from + length). */
  ghost function HeldWithin(user: string, from: int, length: int): Hold -> nat {
    (h: Hold) => if h.user == user && h.status != Status.Released && from <= h.at < from + length then h.ops else 0
  }

  lemma {:induction false} DroppedIncreasing(entries: seq<BurstEntry>, id: nat, limit: nat)
    requires Increasing(entries, limit)
    ensures Increasing(Dropped(entries, id), limit)
    ensures forall e | e in Dropped(entries, id) :: e in entries
  {
    if entries != [] {
      DroppedIncreasing(entries[..|entries| - 1], id, limit);
      assert forall e | e in entries[..|entries| - 1] :: e.id < entries[|entries| - 1].id;
    }
  }

  /** The user's list is exact and free of duplicates. */
  ghost predicate WindowOk(s: Store, user: string, floor: int) {
    Increasing(Window(s.bursts, user), |s.holds|) && WindowIsExact(s, user, floor)
  }

  lemma PruneKeepsWindow(s: Store, limits: Limits, u: string, at: int, user: string, floor: int)
    requires WindowOk(s, user, floor) && Cutoff(limits, at) <= floor
    ensures WindowOk(Pruned(s, limits, u, at), user, floor)
  {
    var entries, s' := Window(s.bursts, user), Pruned(s, limits, u, at);
    if u == user {
      KeptSubset(entries, Cutoff(limits, at), |s.holds|);
      assert Window(s'.bursts, user) == Kept(entries, Cutoff(limits, at));
      forall c | c >= floor
        ensures Kept(Window(s'.bursts, user), c) == Entries(s'.holds, user, c)
      {
        KeptTwice(entries, Cutoff(limits, at), c);
      }
    } else {
      assert Window(s'.bursts, user) == entries;
    }
  }

  lemma HoldKeepsWindow(s: Store, u: string, ops: nat, at: int, status: Status, user: string, floor: int)
    requires WindowOk(s, user, floor) && status != Status.Released
    ensures WindowOk(HoldStep(s, u, ops, at, status), user, floor)
  {
    var entries, s', h := Window(s.bursts, user), HoldStep(s, u, ops, at, status), Hold(u, ops, at, status);
    forall c | c >= floor
      ensures Kept(Window(s'.bursts, user), c) == Entries(s'.holds, user, c)
    {
      KeptAppend(entries, BurstEntry(|s.holds|, at, ops), c);
      EntriesAppend(s.holds, h, user, c);
    }
    hide UsageAfterHold, Entries, Kept;
  }

  /** What a release leaves of the user's list. */
  lemma ReleasedWindow(s: Store, i: nat, user: string)
    requires i < |s.holds| && s.holds[i].status == Open
    ensures Window(ReleaseStep(s, i).bursts, user) ==
            if s.holds[i].user == user then Without(Window(s.bursts, user), i) else Window(s.bursts, user)
  {
    hide UsageAfterUnhold;
  }

  lemma ReleaseKeepsWindow(s: Store, i: nat, user: string, floor: int)
    requires WindowOk(s, user, floor) && i < |s.holds|
    ensures WindowOk(ReleaseStep(s, i), user, floor)
  {
    if s.holds[i].status == Open {
      var entries, s' := Window(s.bursts, user), ReleaseStep(s, i);
      ReleasedWindow(s, i, user);
      WithoutIsDropped(entries, i, |s.holds|);
      DroppedIncreasing(entries, i, |s.holds|);
      assert s'.holds == s.holds[i := s.holds[i].(status := Status.Released)];
      hide ReleaseStep, Window, Dropped, Entries, Kept, Without, Increasing;
      forall c | c >= floor
        ensures Kept(Window(s'.bursts, user), c) == Entries(s'.holds, user, c)
      {
        KeptDropped(entries, i, c);
        EntriesUpdate(s.holds, i, Status.Released, user, c);
        if s.holds[i].user != user {
          EntriesAreHolds(s.holds, user, c);
          DroppedAbsent(Entries(s.holds, user, c), i);
        }
      }
    }
  }

  lemma CommitKeepsWindow(s: Store, i: nat, receipt: Usage, user: string, floor: int)
    requires WindowOk(s, user, floor) && i < |s.holds|
    ensures WindowOk(CommitStep(s, i, receipt), user, floor)
  {
    hide Entries, Kept, UsageAfterSettle, CountersAfterSettle;
    if s.holds[i].status == Open {
      var s' := CommitStep(s, i, receipt);
      forall c | c >= floor
        ensures Kept(Window(s'.bursts, user), c) == Entries(s'.holds, user, c)
      {
        EntriesUpdate(s.holds, i, Committed, user, c);
      }
    }
  }

  lemma StepKeepsWindow(s: Store, limits: Limits, op: Op, user: string, t: int)
    requires WindowOk(s, user, Cutoff(limits, t)) && (TimeOf(op).Some? ==> TimeOf(op).value <= t)
    ensures WindowOk(StepOf(s, limits, op), user, Cutoff(limits, t))
  {
    var floor := Cutoff(limits, t);
    match op
    case Reserve(u, ops, at) =>
      hide WindowOk, HoldStep, Pruned, Decide;
      PruneKeepsWindow(s, limits, u, at, user, floor);
      HoldKeepsWindow(CheckStep(s, limits, u, ops, at).0, u, ops, at, Open, user, floor);
    case Commit(id, receipt) =>
      hide WindowOk, CommitStep;
      if id < |s.holds| { CommitKeepsWindow(s, id, receipt, user, floor); }
    case Release(id) =>
      hide WindowOk, ReleaseStep;
      if id < |s.holds| { ReleaseKeepsWindow(s, id, user, floor); }
    case RecordAccepted(u, ops, receipt, at) =>
      HoldKeepsWindow(s, u, ops, at, Committed, user, floor);
      hide HoldStep, Kept, Entries, UsageAfterSettle, CountersAfterSettle, Increasing;
    case RecordRefusal(category, at) => hide Kept, Entries, Increasing;
    case Check(u, ops, at) => hide WindowOk, Pruned, Decide; PruneKeepsWindow(s, limits, u, at, user, floor);
    case ReadBurst(u, at) => hide WindowOk, Pruned; PruneKeepsWindow(s, limits, u, at, user, floor);
  }

  lemma {:induction false} NothingHeld(user: string, floor: int)
    ensures WindowOk(EmptyStore, user, floor)
  {
  }

  /**
   * As long as no call was later than `t`, the window ending at `t` misses no unreleased operation and holds no other.
   */
  lemma {:induction false} WindowsAreExact(limits: Limits, ops: seq<Op>, n: nat, user: string, t: int)
    requires n <= |ops| && forall i | 0 <= i < n && TimeOf(ops[i]).Some? :: TimeOf(ops[i]).value <= t
    ensures WindowOk(StoreAt(limits, ops, n), user, Cutoff(limits, t))
  {
    hide WindowOk, StepOf;
    if n == 0 {
      NothingHeld(user, Cutoff(limits, t));
    } else {
      WindowsAreExact(limits, ops, n - 1, user, t);
      StepKeepsWindow(StoreAt(limits, ops, n - 1), limits, ops[n - 1], user, t);
    }
  }

  /** An accepted reservation fits into every interval it falls into. */
  lemma ReservationFits(s: Store, limits: Limits, u: string, ops: nat, at: int, user: string, from: int)
    requires WindowOk(s, u, Cutoff(limits, at))
    requires HoldSum(s.holds, HeldWithin(user, from, limits.burstWindowSec * 1000)) <= limits.burstOps
    ensures HoldSum(ReserveStep(s, limits, u, ops, at).0.holds,
                    HeldWithin(user, from, limits.burstWindowSec * 1000)) <= limits.burstOps
  {
    var length := limits.burstWindowSec * 1000;
    var s', decision := ReserveStep(s, limits, u, ops, at).0, ReserveStep(s, limits, u, ops, at).1;
    if decision.Allowed? {
      var h := Hold(u, ops, at, Open);
      HoldSumSnoc(s.holds, h, HeldWithin(user, from, length));
      if u == user && from <= at < from + length {
        var window := Window(CheckStep(s, limits, u, ops, at).0.bursts, u);
        assert window == Kept(Window(s.bursts, u), Cutoff(limits, at)) == Entries(s.holds, u, Cutoff(limits, at));
        EntriesSum(s.holds, u, Cutoff(limits, at));
        HoldSumMonotone(s.holds, HeldWithin(user, from, length), HeldAfter(user, Cutoff(limits, at)));
      }
    }
    hide HoldSum, Kept, Entries, UsageAfterHold, CeilDiv, WindowOk;
  }

  lemma OtherCallsFit(s: Store, limits: Limits, op: Op, user: string, from: int, length: int)
    requires !op.Reserve? && !op.RecordAccepted?
    ensures HoldSum(StepOf(s, limits, op).holds, HeldWithin(user, from, length))
            <= HoldSum(s.holds, HeldWithin(user, from, length))
  {
    match op
    case Commit(id, receipt) =>
      if id < |s.holds| { HoldSumUpdate(s.holds, id, s.holds[id].(status := Committed),
                                        HeldWithin(user, from, length)); }
      hide HoldSum, UsageAfterSettle, CountersAfterSettle;
    case Release(id) =>
      if id < |s.holds| { HoldSumUpdate(s.holds, id, s.holds[id].(status := Status.Released),
                                        HeldWithin(user, from, length)); }
      hide HoldSum, UsageAfterUnhold, Without, WithWindow;
    case _ =>
  }

  /**
   * Burst bound: with `reserve` as the only entry and times that never go back, the unreleased operations
   * of a user inside every half-open interval of the window length total at most the burst limit, whatever
   * reservations, commits, releases and reads interleave.
   */
  lemma {:induction false} BurstBound(limits: Limits, ops: seq<Op>, n: nat, user: string, from: int)
    requires n <= |ops| && ReserveOnly(ops) && Ordered(ops)
    ensures HoldSum(StoreAt(limits, ops, n).holds,
                    HeldWithin(user, from, limits.burstWindowSec * 1000)) <= limits.burstOps
  {
    if n != 0 {
      BurstBound(limits, ops, n - 1, user, from);
      var s, op := StoreAt(limits, ops, n - 1), ops[n - 1];
      assert op in ops;
      if op.Reserve? {
        WindowsAreExact(limits, ops, n - 1, op.user, op.at);
        ReservationFits(s, limits, op.user, op.ops, op.at, user, from);
      } else {
        OtherCallsFit(s, limits, op, user, from, limits.burstWindowSec * 1000);
      }
    }
    hide HoldSum, ReserveStep, CommitStep, ReleaseStep, WindowOk;
  }

  // -------------------------------------------------------------------------
  // Retry times
  // -------------------------------------------------------------------------

  /**
   * Waiting as long as a daily refusal says reaches the next UTC day, and no whole second less does (beyond the first).
   */
  lemma DailyRetry(limits: Limits, daily: nat, window: seq<BurstEntry>, ops: nat, at: int)
    requires Decide(limits, daily, window, ops, at).DailyExceeded?
    ensures var r := Decide(limits, daily, window, ops, at).retryAfterSec;
            UtcDay(at + r * 1000) > UtcDay(at) && (r > 1 ==> UtcDay(at + (r - 1) * 1000) == UtcDay(at))
  {
  }

  /**
   * Waiting as long as a burst refusal says takes the oldest entry out of the window, and no whole second less does
   * (beyond the first).
   */
  lemma BurstRetry(limits: Limits, daily: nat, window: seq<BurstEntry>, ops: nat, at: int)
    requires Decide(limits, daily, window, ops, at).BurstExceeded? && window != []
    ensures var r := Decide(limits, daily, window, ops, at).retryAfterSec;
            window[0].at <= Cutoff(limits, at + r * 1000)
                && (r > 1 ==> window[0].at > Cutoff(limits, at + (r - 1) * 1000))
  {
  }
}
