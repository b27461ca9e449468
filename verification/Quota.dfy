/**
 * Sponsor quotas (`apps/sponsor/src/quota.ts`): the per-day usage rows, the aggregate counters,
 * the in-memory burst windows and the reservations handed out, as functions of the old store, and
 * the class that updates them.
 */
module Quota {
  import opened Wrappers

  const DAY_MS := 86_400_000

  datatype Limits = Limits(dailyOps: nat, burstOps: nat, burstWindowSec: nat)

  datatype UsageKey = UsageKey(user: string, day: int)
  datatype UsageRow = UsageRow(ops: nat, txs: nat, reverted: nat, rcUsed: nat, updatedAt: int)

  datatype Counter = Accepted | AcceptedOps | RevertedTxs | RcUsed | Refusals(category: string)
  datatype CounterKey = CounterKey(day: int, counter: Counter)

  /** `id` stands for the identity of the object: two entries are the same object when their ids are equal. */
  datatype BurstEntry = BurstEntry(id: nat, at: int, ops: nat)

  datatype Status = Open | Committed | Released

  /** What a reservation captured: its entry is the one whose id is its position in `holds`. */
  datatype Hold = Hold(user: string, ops: nat, at: int, status: Status)

  datatype Store = Store(
    usage: map<UsageKey, UsageRow>,
    counters: map<CounterKey, nat>,
    bursts: map<string, seq<BurstEntry>>,
    holds: seq<Hold>)

  const EmptyStore := Store(map[], map[], map[], [])

  datatype Remaining = Remaining(daily: nat, burst: nat)

  datatype Decision =
    | Allowed(remaining: Remaining)
    | DailyExceeded(retryAfterSec: nat, remaining: Remaining)
    | BurstExceeded(retryAfterSec: nat, remaining: Remaining)

  /** Receipt data of a broadcast; rc 0 when unknown. */
  datatype Usage = Usage(rcUsed: nat, reverted: bool)

  function Max(a: int, b: int): int {
    if a >= b then a else b
  }

  /** The UTC day a millisecond timestamp falls on, counted from the epoch. */
  function UtcDay(at: int): int {
    at / DAY_MS
  }

  /** Division rounded up. */
  function CeilDiv(a: int, b: int): int
    requires b > 0
  {
    -((-a) / b)
  }

  // -------------------------------------------------------------------------
  // Burst windows
  // -------------------------------------------------------------------------

  function Window(bursts: map<string, seq<BurstEntry>>, user: string): seq<BurstEntry> {
    if user in bursts then bursts[user] else []
  }

  /** The entries after the cutoff. */
  function Kept(entries: seq<BurstEntry>, cutoff: int): seq<BurstEntry> {
    if entries == [] then []
    else
      var last := entries[|entries| - 1];
      Kept(entries[..|entries| - 1], cutoff) + (if last.at > cutoff then [last] else [])
  }

  function SumOps(entries: seq<BurstEntry>): nat {
    if entries == [] then 0 else SumOps(entries[..|entries| - 1]) + entries[|entries| - 1].ops
  }

  /** The list without the first entry that is the object `id`. */
  function Without(entries: seq<BurstEntry>, id: nat): seq<BurstEntry> {
    if entries == [] then []
    else if entries[0].id == id then entries[1..]
    else [entries[0]] + Without(entries[1..], id)
  }

  /** A user without entries has no list. */
  function WithWindow(bursts: map<string, seq<BurstEntry>>, user: string, entries: seq<BurstEntry>)
    : map<string, seq<BurstEntry>>
  {
    if entries == [] then bursts - {user} else bursts[user := entries]
  }

  function Cutoff(limits: Limits, at: int): int {
    at - limits.burstWindowSec * 1000
  }

  /** `burstWindow`: drops the user's entries at or before the cutoff. */
  function Pruned(s: Store, limits: Limits, user: string, at: int): Store {
    s.(bursts := WithWindow(s.bursts, user, Kept(Window(s.bursts, user), Cutoff(limits, at))))
  }

  // -------------------------------------------------------------------------
  // Decisions
  // -------------------------------------------------------------------------

  function DailyOps(s: Store, user: string, day: int): nat {
    if UsageKey(user, day) in s.usage then s.usage[UsageKey(user, day)].ops else 0
  }

  /** Whether `ops` more operations fit, given the user's window after pruning. */
  function Decide(limits: Limits, daily: nat, window: seq<BurstEntry>, ops: nat, at: int): Decision {
    var burst := SumOps(window);
    var remaining := Remaining(Max(0, limits.dailyOps - daily), Max(0, limits.burstOps - burst));
    if daily + ops > limits.dailyOps then
      DailyExceeded(Max(1, CeilDiv((UtcDay(at) + 1) * DAY_MS - at, 1000)), remaining)
    else if burst + ops > limits.burstOps then
      var oldest := if window == [] then at else window[0].at;
      BurstExceeded(Max(1, CeilDiv(oldest + limits.burstWindowSec * 1000 - at, 1000)), remaining)
    else Allowed(remaining)
  }

  function CheckStep(s: Store, limits: Limits, user: string, ops: nat, at: int): (Store, Decision) {
    var pruned := Pruned(s, limits, user, at);
    (pruned, Decide(limits, DailyOps(s, user, UtcDay(at)), Window(pruned.bursts, user), ops, at))
  }

  // -------------------------------------------------------------------------
  // Charges
  // -------------------------------------------------------------------------

  function UsageAfterHold(usage: map<UsageKey, UsageRow>, key: UsageKey, ops: nat, at: int): map<UsageKey, UsageRow> {
    if key in usage then usage[key := usage[key].(ops := usage[key].ops + ops, updatedAt := at)]
    else usage[key := UsageRow(ops, 0, 0, 0, at)]
  }

  /** The operations count against the day and the window at once. */
  function HoldStep(s: Store, user: string, ops: nat, at: int, status: Status): Store {
    Store(UsageAfterHold(s.usage, UsageKey(user, UtcDay(at)), ops, at), s.counters,
          s.bursts[user := Window(s.bursts, user) + [BurstEntry(|s.holds|, at, ops)]],
          s.holds + [Hold(user, ops, at, status)])
  }

  function UsageAfterUnhold(usage: map<UsageKey, UsageRow>, key: UsageKey, ops: nat, at: int): map<UsageKey, UsageRow> {
    if key !in usage then usage
    else
      var row := usage[key].(ops := Max(0, usage[key].ops - ops), updatedAt := at);
      if row.ops == 0 && row.txs == 0 then usage - {key} else usage[key := row]
  }

  function Bumped(counters: map<CounterKey, nat>, key: CounterKey, amount: nat): map<CounterKey, nat> {
    counters[key := (if key in counters then counters[key] else 0) + amount]
  }

  function UsageAfterSettle(usage: map<UsageKey, UsageRow>, key: UsageKey, u: Usage, at: int): map<UsageKey, UsageRow> {
    var reverted := if u.reverted then 1 else 0;
    if key in usage then
      usage[key := usage[key].(txs := usage[key].txs + 1, reverted := usage[key].reverted + reverted,
                               rcUsed := usage[key].rcUsed + u.rcUsed, updatedAt := at)]
    else usage[key := UsageRow(0, 1, reverted, u.rcUsed, at)]
  }

  function CountersAfterSettle(counters: map<CounterKey, nat>, day: int, ops: nat, u: Usage): map<CounterKey, nat> {
    var c := Bumped(Bumped(counters, CounterKey(day, Accepted), 1), CounterKey(day, AcceptedOps), ops);
    var c' := if u.reverted then Bumped(c, CounterKey(day, RevertedTxs), 1) else c;
    if u.rcUsed > 0 then Bumped(c', CounterKey(day, RcUsed), u.rcUsed) else c'
  }

  /** Books a receipt; its operations were counted when they were held. */
  function SettleStep(s: Store, user: string, ops: nat, u: Usage, at: int): Store {
    s.(usage := UsageAfterSettle(s.usage, UsageKey(user, UtcDay(at)), u, at),
       counters := CountersAfterSettle(s.counters, UtcDay(at), ops, u))
  }

  function ReserveStep(s: Store, limits: Limits, user: string, ops: nat, at: int): (Store, Decision) {
    var (checked, decision) := CheckStep(s, limits, user, ops, at);
    (if decision.Allowed? then HoldStep(checked, user, ops, at, Open) else checked, decision)
  }

  /** The first `commit` or `release` of a reservation settles it; later ones do nothing. */
  function CommitStep(s: Store, i: nat, u: Usage): Store
    requires i < |s.holds|
  {
    var h := s.holds[i];
    if h.status != Open then s
    else SettleStep(s.(holds := s.holds[i := h.(status := Committed)]), h.user, h.ops, u, h.at)
  }

  function ReleaseStep(s: Store, i: nat): Store
    requires i < |s.holds|
  {
    var h := s.holds[i];
    if h.status != Open then s
    else
      Store(UsageAfterUnhold(s.usage, UsageKey(h.user, UtcDay(h.at)), h.ops, h.at), s.counters,
            if h.user in s.bursts then WithWindow(s.bursts, h.user, Without(s.bursts[h.user], i)) else s.bursts,
            s.holds[i := h.(status := Released)])
  }

  function RecordAcceptedStep(s: Store, user: string, ops: nat, u: Usage, at: int): Store {
    SettleStep(HoldStep(s, user, ops, at, Committed), user, ops, u, at)
  }

  function RecordRefusalStep(s: Store, category: string, at: int): Store {
    s.(counters := Bumped(s.counters, CounterKey(UtcDay(at), Refusals(category)), 1))
  }

  // -------------------------------------------------------------------------
  // The store
  // -------------------------------------------------------------------------

  lemma KeptSnoc(entries: seq<BurstEntry>, i: nat, cutoff: int)
    requires i < |entries|
    ensures Kept(entries[..i + 1], cutoff) ==
            Kept(entries[..i], cutoff) + (if entries[i].at > cutoff then [entries[i]] else [])
  {
    assert entries[..i + 1][..i] == entries[..i];
  }

  lemma SumOpsSnoc(entries: seq<BurstEntry>, i: nat)
    requires i < |entries|
    ensures SumOps(entries[..i + 1]) == SumOps(entries[..i]) + entries[i].ops
  {
    assert entries[..i + 1][..i] == entries[..i];
  }

  lemma {:induction false} WithoutAt(entries: seq<BurstEntry>, id: nat, i: nat)
    requires i <= |entries| && forall k | 0 <= k < i :: entries[k].id != id
    ensures i < |entries| && entries[i].id == id ==> Without(entries, id) == entries[..i] + entries[i + 1..]
    ensures i == |entries| ==> Without(entries, id) == entries
  {
    if i > 0 {
      WithoutAt(entries[1..], id, i - 1);
      if i < |entries| && entries[i].id == id {
        assert [entries[0]] + (entries[1..][..i - 1] + entries[1..][i..]) == entries[..i] + entries[i + 1..];
      }
    }
  }

  class QuotaStore {
    const limits: Limits
    var usage: map<UsageKey, UsageRow>
    var counters: map<CounterKey, nat>
    var bursts: map<string, seq<BurstEntry>>
    /** The variables each reservation captured; a recorded acceptance counts as one committed at once. */
    var holds: seq<Hold>

    constructor (limits: Limits)
      ensures Contents() == EmptyStore && this.limits == limits
    {
      this.limits := limits;
      usage, counters, bursts, holds := map[], map[], map[], [];
    }

    function Contents(): Store
      reads this
    {
      Store(usage, counters, bursts, holds)
    }

    /** The user's entries inside the window ending at `at`; older ones are dropped. */
    method BurstWindow(user: string, at: int) returns (kept: seq<BurstEntry>)
      modifies this`bursts
      ensures Contents() == Pruned(old(Contents()), limits, user, at)
      ensures kept == Window(bursts, user)
    {
      var cutoff := at - limits.burstWindowSec * 1000;
      var entries := Window(bursts, user);
      kept := [];
      for i := 0 to |entries|
        invariant kept == Kept(entries[..i], cutoff)
        modifies {}
      {
        KeptSnoc(entries, i, cutoff);
        if entries[i].at > cutoff {
          kept := kept + [entries[i]];
        }
      }
      assert entries[..|entries|] == entries;
      if |kept| == 0 {
        bursts := bursts - {user};
      } else {
        bursts := bursts[user := kept];
      }
    }

    method Sum(entries: seq<BurstEntry>) returns (sum: nat)
      ensures sum == SumOps(entries)
    {
      sum := 0;
      for i := 0 to |entries|
        invariant sum == SumOps(entries[..i])
      {
        SumOpsSnoc(entries, i);
        sum := sum + entries[i].ops;
      }
      assert entries[..|entries|] == entries;
    }

    /** Operations accepted inside the current burst window. */
    method BurstOps(user: string, at: int) returns (ops: nat)
      modifies this`bursts
      ensures Contents() == Pruned(old(Contents()), limits, user, at)
      ensures ops == SumOps(Window(bursts, user))
    {
      var window := BurstWindow(user, at);
      ops := Sum(window);
    }

    method Check(user: string, ops: nat, at: int) returns (decision: Decision)
      modifies this`bursts
      ensures (Contents(), decision) == CheckStep(old(Contents()), limits, user, ops, at)
    {
      hide Pruned, Kept, SumOps;
      var key := UsageKey(user, UtcDay(at));
      var daily := if key in usage then usage[key].ops else 0;
      var window := BurstWindow(user, at);
      var burst := Sum(window);
      var remaining := Remaining(Max(0, limits.dailyOps - daily), Max(0, limits.burstOps - burst));
      if daily + ops > limits.dailyOps {
        var nextDay := (UtcDay(at) + 1) * DAY_MS;
        return DailyExceeded(Max(1, CeilDiv(nextDay - at, 1000)), remaining);
      }
      if burst + ops > limits.burstOps {
        var oldest := if |window| > 0 then window[0].at else at;
        return BurstExceeded(Max(1, CeilDiv(oldest + limits.burstWindowSec * 1000 - at, 1000)), remaining);
      }
      return Allowed(remaining);
    }

    method HoldOps(user: string, ops: nat, at: int, status: Status) returns (id: nat)
      modifies this`usage, this`bursts, this`holds
      ensures Contents() == HoldStep(old(Contents()), user, ops, at, status)
      ensures id == |old(holds)|
    {
      var key := UsageKey(user, UtcDay(at));
      if key in usage {
        usage := usage[key := usage[key].(ops := usage[key].ops + ops, updatedAt := at)];
      } else {
        usage := usage[key := UsageRow(ops, 0, 0, 0, at)];
      }
      id := |holds|;
      bursts := bursts[user := Window(bursts, user) + [BurstEntry(id, at, ops)]];
      holds := holds + [Hold(user, ops, at, status)];
    }

    /** Gives a hold back: an empty row without transactions disappears, the entry is found by identity. */
    method Unhold(user: string, entry: BurstEntry)
      modifies this`usage, this`bursts
      ensures usage == UsageAfterUnhold(old(usage), UsageKey(user, UtcDay(entry.at)), entry.ops, entry.at)
      ensures bursts == if user in old(bursts) then WithWindow(old(bursts), user, Without(old(bursts)[user], entry.id))
                        else old(bursts)
    {
      var key := UsageKey(user, UtcDay(entry.at));
      if key in usage {
        usage := usage[key := usage[key].(ops := Max(0, usage[key].ops - entry.ops), updatedAt := entry.at)];
        if usage[key].ops == 0 && usage[key].txs == 0 {
          usage := usage - {key};
          assert usage == old(usage) - {key};
        }
      }
      if user !in bursts {
        return;
      }
      var window := bursts[user];
      var i := 0;
      while i < |window| && window[i].id != entry.id
        invariant 0 <= i <= |window|
        invariant forall k | 0 <= k < i :: window[k].id != entry.id
      {
        i := i + 1;
      }
      WithoutAt(window, entry.id, i);
      if i < |window| {
        window := window[..i] + window[i + 1..];
      }
      if |window| == 0 {
        bursts := bursts - {user};
      } else {
        bursts := bursts[user := window];
      }
    }

    method Bump(key: CounterKey, amount: nat)
      modifies this`counters
      ensures counters == Bumped(old(counters), key, amount)
    {
      counters := counters[key := (if key in counters then counters[key] else 0) + amount];
    }

    method Settle(user: string, ops: nat, u: Usage, at: int)
      modifies this`usage, this`counters
      ensures Contents() == SettleStep(old(Contents()), user, ops, u, at)
    {
      hide Bumped;
      var key, day := UsageKey(user, UtcDay(at)), UtcDay(at);
      var reverts := if u.reverted then 1 else 0;
      if key in usage {
        var row := usage[key];
        usage := usage[key := UsageRow(row.ops, row.txs + 1, row.reverted + reverts, row.rcUsed + u.rcUsed, at)];
      } else {
        usage := usage[key := UsageRow(0, 1, reverts, u.rcUsed, at)];
      }
      Bump(CounterKey(day, Accepted), 1);
      Bump(CounterKey(day, AcceptedOps), ops);
      if u.reverted {
        Bump(CounterKey(day, RevertedTxs), 1);
      }
      if u.rcUsed > 0 {
        Bump(CounterKey(day, RcUsed), u.rcUsed);
      }
    }

    /** Decides and, if allowed, holds in the same step; the reservation's id. */
    method Reserve(user: string, ops: nat, at: int) returns (decision: Decision, id: nat)
      modifies this
      ensures (Contents(), decision) == ReserveStep(old(Contents()), limits, user, ops, at)
      ensures id == |old(holds)|
    {
      hide CheckStep, HoldStep;
      decision := Check(user, ops, at);
      id := |holds|;
      if decision.Allowed? {
        id := HoldOps(user, ops, at, Open);
      }
    }

    method Commit(id: nat, u: Usage)
      requires id < |holds|
      modifies this
      ensures Contents() == CommitStep(old(Contents()), id, u)
    {
      hide SettleStep;
      var h := holds[id];
      if h.status != Open {
        return;
      }
      holds := holds[id := h.(status := Committed)];
      Settle(h.user, h.ops, u, h.at);
    }

    method Release(id: nat)
      requires id < |holds|
      modifies this
      ensures Contents() == ReleaseStep(old(Contents()), id)
    {
      hide UsageAfterUnhold, Without, WithWindow;
      var h := holds[id];
      if h.status != Open {
        return;
      }
      holds := holds[id := h.(status := Released)];
      Unhold(h.user, BurstEntry(id, h.at, h.ops));
    }

    /** Records a broadcast transaction unconditionally. */
    method RecordAccepted(user: string, ops: nat, u: Usage, at: int)
      modifies this
      ensures Contents() == RecordAcceptedStep(old(Contents()), user, ops, u, at)
    {
      hide SettleStep, HoldStep;
      var _ := HoldOps(user, ops, at, Committed);
      Settle(user, ops, u, at);
    }

    method RecordRefusal(category: string, at: int)
      modifies this`counters
      ensures Contents() == RecordRefusalStep(old(Contents()), category, at)
    {
      Bump(CounterKey(UtcDay(at), Refusals(category)), 1);
    }
  }
}
