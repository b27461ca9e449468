/**
 * The size limit of the stored list: exactly which records a save drops, which of them are unfinished, and a
 * run in which a post that was just reported is dropped by the save that records it.
 */
module CrossPostLimit {
  import opened Wrappers
  import opened Reconcile
  import opened Queue
  import opened CrossPost
  import opened CrossPostRuns

  // -------------------------------------------------------------------------
  // Sorting the succeeded records
  // -------------------------------------------------------------------------

  ghost predicate SortedByTime(records: seq<Stored>) {
    forall i, j | 0 <= i < j < |records| :: records[i].base.updatedAt <= records[j].base.updatedAt
  }

  lemma {:induction false} InsertKeepsAll(sorted: seq<Stored>, r: Stored)
    ensures multiset(InsertByTime(sorted, r)) == multiset(sorted) + multiset{r}
  {
    if !(sorted == [] || sorted[|sorted| - 1].base.updatedAt <= r.base.updatedAt) {
      var init, last := sorted[..|sorted| - 1], sorted[|sorted| - 1];
      InsertKeepsAll(init, r);
      assert sorted == init + [last];
    }
  }

  lemma InsertMembers(sorted: seq<Stored>, r: Stored, x: Stored)
    requires x in InsertByTime(sorted, r)
    ensures x in sorted || x == r
  {
    InsertKeepsAll(sorted, r);
    hide InsertByTime;
    assert x in multiset(InsertByTime(sorted, r));
  }

  lemma SortedSnoc(init: seq<Stored>, last: Stored)
    requires SortedByTime(init) && forall x | x in init :: x.base.updatedAt <= last.base.updatedAt
    ensures SortedByTime(init + [last])
  {
  }

  lemma {:induction false} InsertSorted(sorted: seq<Stored>, r: Stored)
    requires SortedByTime(sorted)
    ensures SortedByTime(InsertByTime(sorted, r))
  {
    if sorted == [] || sorted[|sorted| - 1].base.updatedAt <= r.base.updatedAt {
      SortedSnoc(sorted, r);
    } else {
      var init, last := sorted[..|sorted| - 1], sorted[|sorted| - 1];
      InsertSorted(init, r);
      assert forall x | x in init :: x.base.updatedAt <= last.base.updatedAt;
      forall x | x in InsertByTime(init, r)
        ensures x.base.updatedAt <= last.base.updatedAt
      {
        InsertMembers(init, r, x);
      }
      hide SortedByTime;
      SortedSnoc(InsertByTime(init, r), last);
    }
  }

  /** Sorting by time is a sorted permutation. */
  lemma {:induction false} ByTimeSorts(records: seq<Stored>)
    ensures SortedByTime(ByTime(records)) && multiset(ByTime(records)) == multiset(records)
  {
    if records != [] {
      var init, last := records[..|records| - 1], records[|records| - 1];
      ByTimeSorts(init);
      InsertSorted(ByTime(init), last);
      InsertKeepsAll(ByTime(init), last);
      hide SortedByTime, InsertByTime;
      assert records == init + [last];
    }
  }

  lemma {:induction false} FinishedMembers(records: seq<Stored>)
    requires UniqueIds(records)
    ensures UniqueIds(FinishedOf(records))
    ensures forall x :: x in FinishedOf(records) <==> x in records && x.base.state == Succeeded
  {
    if records != [] {
      var init, last := records[..|records| - 1], records[|records| - 1];
      FinishedMembers(init);
      assert records == init + [last];
      assert forall x | x in init :: x.base.attemptId != last.base.attemptId;
    }
  }

  /** The first records of a sorted list are no newer than the rest. */
  lemma FirstAreOldest(sorted: seq<Stored>, n: nat, d: Stored, r: Stored)
    requires SortedByTime(sorted) && n <= |sorted| && d in sorted[..n] && r in sorted && r !in sorted[..n]
    ensures d.base.updatedAt <= r.base.updatedAt
  {
    var i :| 0 <= i < n && sorted[..n][i] == d;
    var j :| 0 <= j < |sorted| && sorted[j] == r;
    assert forall k | 0 <= k < n :: sorted[..n][k] == sorted[k] && sorted[k] in sorted[..n];
    assert n <= j;
  }

  /** The succeeded records, oldest first. */
  lemma FinishedByTime(records: seq<Stored>)
    requires UniqueIds(records)
    ensures var sorted := ByTime(FinishedOf(records));
            && SortedByTime(sorted) && |sorted| == |FinishedOf(records)|
            && forall x :: x in sorted <==> x in records && x.base.state == Succeeded
  {
    FinishedMembers(records);
    ByTimeSorts(FinishedOf(records));
    var sorted, finished := ByTime(FinishedOf(records)), FinishedOf(records);
    hide ByTime, FinishedOf, SortedByTime, UniqueIds;
    assert |multiset(sorted)| == |multiset(finished)|;
    forall x
      ensures x in sorted <==> x in finished
    {
      assert x in sorted <==> x in multiset(sorted);
      assert x in finished <==> x in multiset(finished);
    }
  }

  // -------------------------------------------------------------------------
  // What a save drops
  // -------------------------------------------------------------------------

  /**
   * The excess: succeeded records, each no newer than the succeeded ones that stay; as many as needed or all of them.
   */
  lemma ExcessIsOldest(records: seq<Stored>)
    requires UniqueIds(records) && |records| > MAX_RECORDS
    ensures forall d | d in Excess(records) :: d in records && d.base.state == Succeeded
    ensures forall d, r | d in Excess(records) && r in records && r.base.state == Succeeded && r !in Excess(records) ::
              d.base.updatedAt <= r.base.updatedAt
    ensures |Excess(records)| == if |FinishedOf(records)| < |records| - MAX_RECORDS then |FinishedOf(records)|
            else |records| - MAX_RECORDS
  {
    FinishedByTime(records);
    var sorted, n := ByTime(FinishedOf(records)), |records| - MAX_RECORDS;
    hide ByTime, FinishedOf, SortedByTime, UniqueIds;
    assert forall d | d in Excess(records) :: d in sorted;
    forall d, r | d in Excess(records) && r in records && r.base.state == Succeeded && r !in Excess(records)
      ensures d.base.updatedAt <= r.base.updatedAt
    {
      assert n <= |sorted|;
      FirstAreOldest(sorted, n, d, r);
    }
  }

  /**
   * The size limit never drops a record whose state is not "succeeded", and of the succeeded ones only the
   * oldest: every dropped record is no newer than every succeeded one that stays.
   */
  lemma LimitDropsOldestFinished(records: seq<Stored>, r: Stored)
    requires UniqueIds(records) && r in records
    ensures r !in Saved(records) ==> |records| > MAX_RECORDS && r.base.state == Succeeded
    ensures r !in Saved(records) ==>
              forall x | x in Saved(records) && x.base.state == Succeeded :: r.base.updatedAt <= x.base.updatedAt
  {
    if |records| > MAX_RECORDS {
      ExcessIsOldest(records);
      WithoutMembers(records, Ids(Excess(records)));
      hide Excess, WithoutIds;
      assert forall x | x in Excess(records) :: x.base.attemptId in Ids(Excess(records));
      if r !in Saved(records) {
        var d :| d in Excess(records) && d.base.attemptId == r.base.attemptId;
        SameRecord(records, d, r);
      }
    }
  }

  lemma SameRecord(records: seq<Stored>, a: Stored, b: Stored)
    requires UniqueIds(records) && a in records && b in records && a.base.attemptId == b.base.attemptId
    ensures a == b
  {
  }

  /** Positions of the succeeded records that are older than the i-th, or equally old and earlier in the list. */
  ghost function Ahead(records: seq<Stored>, i: nat): set<nat>
    requires i < |records|
  {
    set j: nat | j < |records| && records[j].base.state == Succeeded
                 && (records[j].base.updatedAt < records[i].base.updatedAt
                     || (records[j].base.updatedAt == records[i].base.updatedAt && j < i))
  }

  /** How many succeeded records a save would drop before the i-th. */
  ghost function Rank(records: seq<Stored>, i: nat): nat
    requires i < |records|
  {
    |Ahead(records, i)|
  }

  function CountUpTo(records: seq<Stored>, time: int): (n: nat)
    ensures n <= |records|
  {
    if records == [] then 0
    else
      CountUpTo(records[..|records| - 1], time)
      + (if records[|records| - 1].base.updatedAt <= time then 1 else 0)
  }

  lemma CountSnoc(init: seq<Stored>, last: Stored, time: int)
    ensures CountUpTo(init + [last], time) == CountUpTo(init, time) + (if last.base.updatedAt <= time then 1 else 0)
  {
    assert (init + [last])[..|init|] == init;
  }

  lemma {:induction false} CountInsert(sorted: seq<Stored>, r: Stored, time: int)
    ensures CountUpTo(InsertByTime(sorted, r), time) == CountUpTo(sorted + [r], time)
  {
    CountSnoc(sorted, r, time);
    if !(sorted == [] || sorted[|sorted| - 1].base.updatedAt <= r.base.updatedAt) {
      var init, last := sorted[..|sorted| - 1], sorted[|sorted| - 1];
      CountInsert(init, r, time);
      CountSnoc(init, r, time);
      CountSnoc(InsertByTime(init, r), last, time);
    }
  }

  lemma {:induction false} CountByTime(records: seq<Stored>, time: int)
    ensures CountUpTo(ByTime(records), time) == CountUpTo(records, time)
  {
    if records != [] {
      var init, last := records[..|records| - 1], records[|records| - 1];
      CountByTime(init, time);
      CountInsert(ByTime(init), last, time);
      CountSnoc(ByTime(init), last, time);
    }
  }

  /** In a sorted list the records up to a time come first. */
  lemma {:induction false} CountSorted(sorted: seq<Stored>, time: int, k: nat)
    requires SortedByTime(sorted) && k < |sorted|
    ensures sorted[k].base.updatedAt <= time <==> k < CountUpTo(sorted, time)
  {
    var init, last := sorted[..|sorted| - 1], sorted[|sorted| - 1];
    if k < |init| {
      CountSorted(init, time, k);
    } else if init != [] {
      CountSorted(init, time, |init| - 1);
    }
  }

  /** A record goes behind those up to its time. */
  lemma {:induction false} InsertAt(sorted: seq<Stored>, r: Stored)
    requires SortedByTime(sorted)
    ensures var p := CountUpTo(sorted, r.base.updatedAt); InsertByTime(sorted, r) == sorted[..p] + [r] + sorted[p..]
  {
    var p := CountUpTo(sorted, r.base.updatedAt);
    if sorted != [] {
      var init, last := sorted[..|sorted| - 1], sorted[|sorted| - 1];
      CountSorted(sorted, r.base.updatedAt, |sorted| - 1);
      if last.base.updatedAt > r.base.updatedAt {
        InsertAt(init, r);
        assert init[p..] + [last] == sorted[p..];
      }
    }
  }

  lemma FinishedNext(records: seq<Stored>)
    requires records != []
    ensures var init, last := records[..|records| - 1], records[|records| - 1];
            && FinishedOf(records) ==
               (if last.base.state == Succeeded then FinishedOf(init) + [last] else FinishedOf(init))
            && ByTime(FinishedOf(records)) ==
               if last.base.state == Succeeded then InsertByTime(ByTime(FinishedOf(init)), last)
               else ByTime(FinishedOf(init))
  {
    var init, last := records[..|records| - 1], records[|records| - 1];
    assert (FinishedOf(init) + [last])[..|FinishedOf(init)|] == FinishedOf(init);
  }

  /** Positions of the succeeded records up to a time. */
  ghost function UpTo(records: seq<Stored>, time: int): set<nat> {
    set j: nat | j < |records| && records[j].base.state == Succeeded && records[j].base.updatedAt <= time
  }

  lemma UpToNext(records: seq<Stored>, time: int)
    requires records != []
    ensures var init, last := records[..|records| - 1], records[|records| - 1];
            |UpTo(records, time)| ==
            |UpTo(init, time)| + if last.base.state == Succeeded && last.base.updatedAt <= time then 1 else 0
  {
    var init, last := records[..|records| - 1], records[|records| - 1];
    var more := last.base.state == Succeeded && last.base.updatedAt <= time;
    assert UpTo(records, time) == UpTo(init, time) + if more then {|init|} else {};
  }

  /** Counting positions or counting records is the same. */
  lemma {:induction false} CountFinished(records: seq<Stored>, time: int)
    ensures |UpTo(records, time)| == CountUpTo(FinishedOf(records), time)
  {
    if records != [] {
      var init, last := records[..|records| - 1], records[|records| - 1];
      CountFinished(init, time);
      CountSnoc(FinishedOf(init), last, time);
      FinishedNext(records);
      UpToNext(records, time);
      hide FinishedOf, CountUpTo, UpTo, ByTime, InsertByTime;
    }
  }

  lemma RankSnoc(records: seq<Stored>, i: nat)
    requires i < |records| - 1
    ensures var init, last := records[..|records| - 1], records[|records| - 1];
            Rank(records, i) ==
            Rank(init, i)
            + if last.base.state == Succeeded && last.base.updatedAt < records[i].base.updatedAt then 1 else 0
  {
    var init, last := records[..|records| - 1], records[|records| - 1];
    var later := last.base.state == Succeeded && last.base.updatedAt < records[i].base.updatedAt;
    assert Ahead(records, i) == Ahead(init, i) + if later then {|init|} else {};
  }

  lemma RankLast(records: seq<Stored>)
    requires records != []
    ensures var init, last := records[..|records| - 1], records[|records| - 1];
            Rank(records, |records| - 1) == CountUpTo(FinishedOf(init), last.base.updatedAt)
  {
    var init, last := records[..|records| - 1], records[|records| - 1];
    CountFinished(init, last.base.updatedAt);
    assert Ahead(records, |init|) == UpTo(init, last.base.updatedAt);
  }

  /** Where an insertion leaves the k-th record, and where it puts the new one. */
  lemma InsertedPlace(sorted: seq<Stored>, r: Stored, k: nat)
    requires SortedByTime(sorted)
    ensures var next, p := InsertByTime(sorted, r), CountUpTo(sorted, r.base.updatedAt);
            && |next| == |sorted| + 1 && next[p] == r
            && (k < |sorted| ==>
                  next[if r.base.updatedAt < sorted[k].base.updatedAt then k + 1 else k] == sorted[k])
  {
    InsertAt(sorted, r);
    if k < |sorted| {
      CountSorted(sorted, r.base.updatedAt, k);
    }
    hide SortedByTime, CountUpTo, InsertByTime;
  }

  /** The rank of a succeeded record is its place in the sorted list. */
  lemma {:induction false} RankPlace(records: seq<Stored>, i: nat)
    requires i < |records| && records[i].base.state == Succeeded
    ensures var sorted := ByTime(FinishedOf(records));
            Rank(records, i) < |sorted| && sorted[Rank(records, i)] == records[i]
  {
    hide FinishedOf, ByTime, InsertByTime, Rank, SortedByTime, CountUpTo;
    var init, last := records[..|records| - 1], records[|records| - 1];
    var finished, sorted := FinishedOf(init), ByTime(FinishedOf(init));
    FinishedNext(records);
    ByTimeSorts(finished);
    if i < |init| {
      RankPlace(init, i);
      RankSnoc(records, i);
      InsertedPlace(sorted, last, Rank(init, i));
    } else {
      RankLast(records);
      CountByTime(finished, last.base.updatedAt);
      InsertedPlace(sorted, last, |sorted|);
    }
  }

  lemma {:induction false} ByTimeUnique(records: seq<Stored>)
    requires UniqueIds(records)
    ensures UniqueIds(ByTime(records))
  {
    if records != [] {
      var init, last := records[..|records| - 1], records[|records| - 1];
      assert UniqueIds(init) && forall x | x in init :: x.base.attemptId != last.base.attemptId;
      ByTimeUnique(init);
      ByTimeSorts(init);
      InsertAt(ByTime(init), last);
      var sorted, p := ByTime(init), CountUpTo(ByTime(init), last.base.updatedAt);
      assert ByTime(records) == sorted[..p] + [last] + sorted[p..];
      hide ByTime, SortedByTime, CountUpTo, InsertByTime;
      forall x | x in sorted
        ensures x.base.attemptId != last.base.attemptId
      {
        assert x in multiset(sorted) && x in init;
      }
      SplicedUnique(sorted, last, p);
    }
  }

  lemma SplicedUnique(records: seq<Stored>, r: Stored, p: nat)
    requires UniqueIds(records) && p <= |records| && forall x | x in records :: x.base.attemptId != r.base.attemptId
    ensures UniqueIds(records[..p] + [r] + records[p..])
  {
  }

  /**
   * Exactly which records a save drops: one leaves the list if and only if the list is over the limit, its state is
   * "succeeded", and fewer succeeded records than there are records too many are older, or equally old and earlier in
   * the list.
   */
  lemma LimitDropsExactly(records: seq<Stored>, i: nat)
    requires UniqueIds(records) && i < |records|
    ensures records[i] !in Saved(records) <==>
            && |records| > MAX_RECORDS && records[i].base.state == Succeeded
            && Rank(records, i) < |records| - MAX_RECORDS
  {
    var r, n := records[i], |records| - MAX_RECORDS;
    if n > 0 {
      var sorted := ByTime(FinishedOf(records));
      FinishedByTime(records);
      FinishedMembers(records);
      ByTimeUnique(FinishedOf(records));
      WithoutMembers(records, Ids(Excess(records)));
      assert r !in Saved(records) <==> r.base.attemptId in Ids(Excess(records));
      if r.base.state == Succeeded {
        RankPlace(records, i);
      }
      hide ByTime, FinishedOf, WithoutIds, Rank, SortedByTime;
      DroppedByPlace(records, r, sorted, n, i);
    }
  }

  /** A record is dropped when its place is among the first. */
  lemma DroppedByPlace(records: seq<Stored>, r: Stored, sorted: seq<Stored>, n: nat, i: nat)
    requires UniqueIds(records) && UniqueIds(sorted) && r in records
    requires forall x :: x in sorted <==> x in records && x.base.state == Succeeded
    requires i < |records| && records[i] == r
    requires r.base.state == Succeeded ==> Rank(records, i) < |sorted| && sorted[Rank(records, i)] == r
    ensures r.base.attemptId in Ids(Take(sorted, n)) <==> r.base.state == Succeeded && Rank(records, i) < n
  {
    hide Rank;
    var first := Take(sorted, n);
    if r.base.attemptId in Ids(first) {
      var k :| 0 <= k < |first| && first[k].base.attemptId == r.base.attemptId;
      assert sorted[k] in sorted && sorted[k] in records;
      SameRecord(records, sorted[k], r);
      assert k == Rank(records, i);
    }
    if r.base.state == Succeeded && Rank(records, i) < n {
      assert first[Rank(records, i)] in first;
    }
  }

  /**
   * Exactly when a save loses a record that is not finished: if and only if one of the succeeded records it drops
   * still misses its proof.
   */
  lemma MissingProofsLostExactly(cfg: Config, records: seq<Stored>)
    requires UniqueIds(records) && forall r | r in records :: RecordOk(cfg, r)
    ensures (exists r :: r in records && !IsFinished(r) && r !in Saved(records)) <==>
            |records| > MAX_RECORDS
            && exists i: nat :: i < |records| && records[i].base.state == Succeeded && NeedsProof(records[i])
                                && Rank(records, i) < |records| - MAX_RECORDS
  {
    forall i: nat | i < |records|
      ensures records[i].base.state == Succeeded ==> (!IsFinished(records[i]) <==> NeedsProof(records[i]))
      ensures records[i] !in Saved(records) <==>
              && |records| > MAX_RECORDS && records[i].base.state == Succeeded
              && Rank(records, i) < |records| - MAX_RECORDS
    {
      assert RecordOk(cfg, records[i]);
      LimitDropsExactly(records, i);
    }
    hide RecordOk, Saved, Rank, NeedsProof, IsFinished, UniqueIds;
    if r :| r in records && !IsFinished(r) && r !in Saved(records) {
      var i: nat :| i < |records| && records[i] == r;
      assert NeedsProof(records[i]) && Rank(records, i) < |records| - MAX_RECORDS;
    }
  }

  // -------------------------------------------------------------------------
  // A post that is forgotten at once
  // -------------------------------------------------------------------------

  /** Attempt ids of 16 bytes in hex, all different. */
  function IdOf(i: nat): string
    requires i < 256
  {
    seq(32, k => if k == 0 then HEX[i / 16] else if k == 1 then HEX[i % 16] else '0')
  }

  const HEX := "0123456789abcdef"
  const LAST: nat := MAX_RECORDS

  lemma IdsAreLower(i: nat)
    requires i < 256
    ensures Lower(IdOf(i)) == IdOf(i)
  {
    assert forall k | 0 <= k < 16 :: 'A' > HEX[k] || HEX[k] > 'Z';
    assert forall k | 0 <= k < 32 :: Lower(IdOf(i))[k] == IdOf(i)[k];
  }

  lemma IdsDiffer(i: nat, j: nat)
    requires i < j < 256
    ensures IdOf(i) != IdOf(j)
  {
    assert IdOf(i)[0] == HEX[i / 16] && IdOf(i)[1] == HEX[i % 16];
    assert IdOf(j)[0] == HEX[j / 16] && IdOf(j)[1] == HEX[j % 16];
    assert forall a, b | 0 <= a < b < 16 :: HEX[a] != HEX[b];
  }

  function At(now: int, proof: ProofReply): Env {
    Env(now, Some("alice"), NotFound, NoHit, Outcome("t1", "p1", "h1"), NotFound, NoHit, proof)
  }

  /** The drafts of the side panel, and one from the host page at the end. */
  function Drafting(i: nat): Turn
    requires i < 256
  {
    Turn(AddDraft(IdOf(i), if i == LAST then Facebook else SidePanel, 0, "hello"), At(i, ProofStops))
  }

  /** As many drafts as the limit allows, one more from the host page, its publication, and the host's link. */
  function ForgettingTurns(link: string, proof: ProofReply): seq<Turn> {
    seq(LAST + 1, i requires 0 <= i < LAST + 1 => Drafting(i))
    + [Turn(ConfirmDraft(IdOf(LAST), None), At(LAST + 1, proof)),
       Turn(MarkHost(IdOf(LAST), true, link), At(LAST + 2, proof))]
  }

  /** Nothing but drafts of other attempts. */
  ghost predicate Waiting(records: seq<Stored>, id: string) {
    forall r | r in records :: r.base.state == Draft && r.base.attemptId != id
  }

  lemma {:induction false} NoneFinished(records: seq<Stored>)
    requires forall r | r in records :: r.base.state != Succeeded
    ensures FinishedOf(records) == []
  {
    if records != [] {
      var init, last := records[..|records| - 1], records[|records| - 1];
      assert last in records && forall r | r in init :: r in records;
      NoneFinished(init);
    }
  }

  lemma NothingDropped(records: seq<Stored>)
    requires forall r | r in records :: r.base.state != Succeeded
    ensures Saved(records) == records
  {
    NoneFinished(records);
    assert ByTime([]) == [];
    hide FinishedOf, ByTime, WithoutIds;
    WithoutNone(records, {});
    assert |records| > MAX_RECORDS ==> Excess(records) == [] && Ids(Excess(records)) == {};
  }

  lemma {:induction false} WithoutNone(records: seq<Stored>, drop: set<string>)
    requires forall r | r in records :: r.base.attemptId !in drop
    ensures WithoutIds(records, drop) == records
  {
    if records != [] {
      var init, last := records[..|records| - 1], records[|records| - 1];
      assert last in records && records == init + [last];
      WithoutNone(init, drop);
    }
  }

  lemma {:induction false} OneFinished(r: Stored, waiting: seq<Stored>)
    requires r.base.state == Succeeded && Waiting(waiting, r.base.attemptId)
    ensures FinishedOf([r] + waiting) == [r]
    ensures WithoutIds([r] + waiting, {r.base.attemptId}) == waiting
  {
    if waiting == [] {
      assert [r] + waiting == [r] && [r][..0] == [];
    } else {
      var init, last := waiting[..|waiting| - 1], waiting[|waiting| - 1];
      OneFinished(r, init);
      assert ([r] + waiting)[..|waiting|] == [r] + init && last in waiting;
    }
  }

  /** The only succeeded record of a full list is dropped by the save that stores it. */
  lemma StoredAndDropped(r: Stored, waiting: seq<Stored>)
    requires r.base.state == Succeeded && Waiting(waiting, r.base.attemptId) && |waiting| == MAX_RECORDS
    ensures Saved([r] + waiting) == waiting
  {
    OneFinished(r, waiting);
    assert [r][..0] == [] && ByTime([]) == [];
    assert ByTime([r]) == [r];
    assert Ids([r]) == {r.base.attemptId};
    hide FinishedOf, WithoutIds, ByTime;
    assert Excess([r] + waiting) == [r];
  }

  /** Storing a record of an attempt that is not in the list, or stands first in it. */
  lemma StoredFirst(stored: seq<Stored>, r: Stored, waiting: seq<Stored>)
    requires Waiting(waiting, r.base.attemptId) && |waiting| <= MAX_RECORDS
    requires stored == waiting
             || (|stored| > 0 && stored[0].base.attemptId == r.base.attemptId && stored[1..] == waiting)
    ensures r.base.state != Succeeded ==> Updated(stored, r) == [r] + waiting
    ensures r.base.state == Succeeded && |waiting| == MAX_RECORDS ==> Updated(stored, r) == waiting
  {
    var i := Find(stored, r.base.attemptId);
    if stored == waiting {
      assert forall k | 0 <= k < |stored| :: stored[k] in waiting;
      assert i == |stored|;
    } else {
      assert i == 0;
      assert stored[0 := r] == [r] + waiting;
    }
    hide Find, Saved;
    if r.base.state != Succeeded {
      NothingDropped([r] + waiting);
    } else if |waiting| == MAX_RECORDS {
      StoredAndDropped(r, waiting);
    }
  }

  lemma FoundFirst(r: Stored, waiting: seq<Stored>)
    ensures RecordOf([r] + waiting, r.base.attemptId) == Some(r)
  {
  }

  lemma NotFoundIn(waiting: seq<Stored>, id: string)
    requires Waiting(waiting, id)
    ensures RecordOf(waiting, id) == None
  {
    assert forall k | 0 <= k < |waiting| :: waiting[k] in waiting;
  }

  /** A new draft goes to the front. */
  lemma DraftStep(cfg: Config, waiting: seq<Stored>, i: nat)
    requires i < 256 && Waiting(waiting, IdOf(i)) && |waiting| <= MAX_RECORDS
    ensures exists r :: CallStep(cfg, waiting, Drafting(i).call, Drafting(i).env).records == [r] + waiting
                        && IsDraft(cfg, r, i)
  {
    var t := Drafting(i);
    var r := FreshDraft(cfg, IdOf(i), t.call.adapter, 0, "hello", t.env);
    IdsAreLower(i);
    NotFoundIn(waiting, IdOf(i));
    hide IdOf, Updated, RecordOf;
    assert IsDraft(cfg, r, i);
    hide FreshDraft;
    StoredFirst(waiting, r, waiting);
    assert [r][..0] == [];
    assert UpdatedAll(waiting, []) == waiting;
    assert UpdatedAll(waiting, [r]) == Updated(waiting, r);
  }

  ghost predicate IsDraft(cfg: Config, r: Stored, i: nat)
    requires i < 256
  {
    && r.base.attemptId == IdOf(i) && r.base.state == Draft && r.base.koinosStatus == Pending
    && r.base.postId.None? && r.base.hostRef.None? && r.base.koinosTxId.None?
    && r.author == Some("alice") && r.text == Some("hello") && r.proof.None?
    && (i == LAST ==> r.adapter == Facebook && r.base.hostSite == Some("facebook") && r.base.hostStatus == Pending)
  }

  /** Only drafts of the first n ids. */
  ghost predicate Drafted(records: seq<Stored>, n: nat)
    requires n <= 256
  {
    |records| == n
    && forall r | r in records :: r.base.state == Draft && exists j: nat :: j < n && r.base.attemptId == IdOf(j)
  }

  lemma DraftedWait(records: seq<Stored>, n: nat)
    requires n < 256 && Drafted(records, n)
    ensures Waiting(records, IdOf(n))
  {
    hide IdOf;
    forall r | r in records
      ensures r.base.attemptId != IdOf(n)
    {
      var j: nat :| j < n && r.base.attemptId == IdOf(j);
      IdsDiffer(j, n);
    }
  }

  lemma OneMoreDraft(cfg: Config, waiting: seq<Stored>, r: Stored, n: nat)
    requires n < 256 && Drafted(waiting, n) && IsDraft(cfg, r, n)
    ensures Drafted([r] + waiting, n + 1)
  {
    hide IdOf;
    forall x | x in [r] + waiting
      ensures x.base.state == Draft && exists j: nat :: j < n + 1 && x.base.attemptId == IdOf(j)
    {
      if x != r {
        var j: nat :| j < n && x.base.attemptId == IdOf(j);
      }
    }
  }

  lemma {:induction false} DraftsPileUp(cfg: Config, turns: seq<Turn>, n: nat)
    requires n <= LAST && n <= |turns| && forall i: nat | i < n :: turns[i] == Drafting(i)
    ensures Drafted(RecordsAt(cfg, turns, n), n)
  {
    hide CallStep, IdOf, Drafting, Drafted, IsDraft;
    if n == 0 {
      NoDrafts();
    } else {
      DraftsPileUp(cfg, turns, n - 1);
      NextDraft(cfg, turns, n - 1);
      var r :| RecordsAt(cfg, turns, n) == [r] + RecordsAt(cfg, turns, n - 1) && IsDraft(cfg, r, n - 1);
      OneMoreDraft(cfg, RecordsAt(cfg, turns, n - 1), r, n - 1);
    }
  }

  lemma NoDrafts()
    ensures Drafted([], 0)
  {
  }

  /** Turn n puts the n-th draft in front. */
  lemma NextDraft(cfg: Config, turns: seq<Turn>, n: nat)
    requires n <= LAST && n < |turns| && turns[n] == Drafting(n) && Drafted(RecordsAt(cfg, turns, n), n)
    ensures exists r :: RecordsAt(cfg, turns, n + 1) == [r] + RecordsAt(cfg, turns, n) && IsDraft(cfg, r, n)
  {
    var waiting := RecordsAt(cfg, turns, n);
    assert |waiting| == n;
    DraftedWait(waiting, n);
    DraftStep(cfg, waiting, n);
    hide CallStep, IdOf, Drafting, Drafted, IsDraft, Waiting;
    assert RecordsAt(cfg, turns, n + 1) == CallStep(cfg, waiting, Drafting(n).call, Drafting(n).env).records;
  }

  /** The Koinos side is done, the host's link still missing. */
  ghost predicate IsPosted(r: Stored) {
    && r.base.attemptId == IdOf(LAST) && r.base.state == Submitting && r.base.koinosStatus == Done
    && r.base.postId == Some(Lower("p1")) && r.base.koinosTxId.Some? && r.base.hostRef.None?
    && r.base.hostSite == Some("facebook") && r.base.hostStatus == Pending && r.adapter == Facebook && r.proof.None?
  }

  lemma PostedAtOnce(cfg: Config, r: Stored, proof: ProofReply)
    requires IsDraft(cfg, r, LAST)
    ensures var e := EffectOf(cfg, Some(r), ConfirmDraft(IdOf(LAST), None), At(LAST + 1, proof));
            && |e.stores| == 2 && IsPosted(e.stores[1])
            && e.stores[0].base.attemptId == IdOf(LAST) && e.stores[0].base.state == Submitting
  {
    hide Lower, LookupEvent, IdOf;
  }

  /** The host's link completes the record; only the proof is missing. */
  ghost predicate IsUnproved(r: Stored) {
    r.base.attemptId == IdOf(LAST) && r.base.state == Succeeded && NeedsProof(r)
  }

  lemma LinkReported(cfg: Config, r: Stored, link: string, proof: ProofReply)
    requires IsPosted(r) && 0 < |link| <= 2048 && cfg.validHostLink(Some("facebook"), link)
    ensures var stores := EffectOf(cfg, Some(r), MarkHost(IdOf(LAST), true, link), At(LAST + 2, proof)).stores;
            && (|stores| == 1 || |stores| == 2) && IsUnproved(stores[0])
            && forall x | x in stores :: x.base.attemptId == IdOf(LAST) && x.base.state == Succeeded
  {
    hide Lower, LookupEvent, IdOf;
  }

  lemma Updates(records: seq<Stored>, stores: seq<Stored>)
    requires |stores| == 1 || |stores| == 2
    ensures |stores| == 1 ==> UpdatedAll(records, stores) == Updated(records, stores[0])
    ensures |stores| == 2 ==> UpdatedAll(records, stores) == Updated(Updated(records, stores[0]), stores[1])
  {
    hide Updated;
    assert stores[..1] == [stores[0]] && stores[..1][..0] == [];
    assert UpdatedAll(records, [stores[0]]) == Updated(records, stores[0]);
  }

  /** A record in front of a full list of drafts, and two records of its attempt stored one after the other. */
  lemma StoredTwice(first: Stored, waiting: seq<Stored>, stores: seq<Stored>)
    requires |stores| == 2 && Waiting(waiting, first.base.attemptId) && |waiting| == MAX_RECORDS
    requires forall x | x in stores :: x.base.attemptId == first.base.attemptId && x.base.state != Succeeded
    ensures UpdatedAll([first] + waiting, stores) == [stores[1]] + waiting
  {
    assert stores[0] in stores && stores[1] in stores;
    hide Updated, Waiting, UpdatedAll;
    Updates([first] + waiting, stores);
    StoredFirst([first] + waiting, stores[0], waiting);
    StoredFirst([stores[0]] + waiting, stores[1], waiting);
  }

  /** Every save of a succeeded record drops it. */
  lemma DroppedEachTime(first: Stored, waiting: seq<Stored>, stores: seq<Stored>)
    requires (|stores| == 1 || |stores| == 2) && Waiting(waiting, first.base.attemptId) && |waiting| == MAX_RECORDS
    requires forall x | x in stores :: x.base.attemptId == first.base.attemptId && x.base.state == Succeeded
    ensures UpdatedAll([first] + waiting, stores) == waiting
  {
    assert stores[0] in stores && stores[|stores| - 1] in stores;
    hide Updated, Waiting, UpdatedAll;
    Updates([first] + waiting, stores);
    StoredFirst([first] + waiting, stores[0], waiting);
    if |stores| == 2 {
      StoredFirst(waiting, stores[1], waiting);
    }
  }

  /** A turn on the record in front of the list. */
  lemma FrontTurn(cfg: Config, turns: seq<Turn>, n: nat, r: Stored, waiting: seq<Stored>)
    requires n < |turns| && RecordsAt(cfg, turns, n) == [r] + waiting
    requires turns[n].call.attemptId == r.base.attemptId && !turns[n].call.DiscardAttempt?
    ensures RecordsAt(cfg, turns, n + 1) ==
            UpdatedAll([r] + waiting, EffectOf(cfg, Some(r), turns[n].call, turns[n].env).stores)
    ensures FoundAt(cfg, turns, n) == Some(r)
  {
    FoundFirst(r, waiting);
    hide EffectOf, RecordOf, UpdatedAll;
  }

  lemma TurnsAre(link: string, proof: ProofReply)
    ensures var turns := ForgettingTurns(link, proof);
            && |turns| == LAST + 3 && (forall i: nat | i <= LAST :: turns[i] == Drafting(i))
            && turns[LAST + 1] == Turn(ConfirmDraft(IdOf(LAST), None), At(LAST + 1, proof))
            && turns[LAST + 2] == Turn(MarkHost(IdOf(LAST), true, link), At(LAST + 2, proof))
            && WellFormedTurns(turns)
  {
    var turns := ForgettingTurns(link, proof);
    forall i | 0 <= i < |turns|
      ensures WellFormed(turns[i].call)
    {
      IdsAreLower(if i <= LAST then i else LAST);
    }
    hide IdOf;
  }

  /** The run up to the accepted publication. */
  lemma UntilPosted(cfg: Config, turns: seq<Turn>, proof: ProofReply)
    requires |turns| > LAST + 1 && forall i: nat | i <= LAST :: turns[i] == Drafting(i)
    requires turns[LAST + 1] == Turn(ConfirmDraft(IdOf(LAST), None), At(LAST + 1, proof))
    ensures Drafted(RecordsAt(cfg, turns, LAST), LAST)
    ensures exists r :: RecordsAt(cfg, turns, LAST + 2) == [r] + RecordsAt(cfg, turns, LAST) && IsPosted(r)
  {
    hide RecordsAt, Drafted, IdOf, EffectOf, UpdatedAll, Drafting, IsPosted, At;
    DraftsPileUp(cfg, turns, LAST);
    NextDraft(cfg, turns, LAST);
    var waiting := RecordsAt(cfg, turns, LAST);
    var r :| RecordsAt(cfg, turns, LAST + 1) == [r] + waiting && IsDraft(cfg, r, LAST);
    FrontTurn(cfg, turns, LAST + 1, r, waiting);
    PostedAtOnce(cfg, r, proof);
    DraftedFull(waiting);
    var stores := EffectOf(cfg, Some(r), ConfirmDraft(IdOf(LAST), None), At(LAST + 1, proof)).stores;
    PostedIs(stores[1]);
    StoredTwice(r, waiting, stores);
  }

  lemma PostedIs(r: Stored)
    requires IsPosted(r)
    ensures r.base.attemptId == IdOf(LAST) && r.base.state == Submitting
  {
  }

  lemma DraftedFull(waiting: seq<Stored>)
    requires Drafted(waiting, LAST)
    ensures Waiting(waiting, IdOf(LAST)) && |waiting| == MAX_RECORDS
  {
    DraftedWait(waiting, LAST);
  }

  /**
   * Even the newest record can go. With as many drafts stored as the limit allows, a post from the host page is
   * published and its link reported: the record becomes "succeeded" with its proof missing, and being the only
   * succeeded one it is dropped by the save that stores it, whatever comes of the proof.
   */
  lemma NewestMayBeForgotten(cfg: Config, link: string, proof: ProofReply)
    requires 0 < |link| <= 2048 && cfg.validHostLink(Some("facebook"), link)
    ensures var turns := ForgettingTurns(link, proof);
            var waiting := RecordsAt(cfg, turns, LAST);
            && |turns| == LAST + 3 && WellFormedTurns(turns)
            && |waiting| == MAX_RECORDS && (forall r | r in waiting :: r.base.state == Draft)
            && (exists r :: RecordsAt(cfg, turns, LAST + 2) == [r] + waiting && r.base.koinosStatus == Done
                           && r.base.postId == Some(Lower("p1")))
            && (exists x :: x in EffectOf(cfg, FoundAt(cfg, turns, LAST + 2), turns[LAST + 2].call,
                                          turns[LAST + 2].env).stores
                           && x.base.state == Succeeded && NeedsProof(x))
            && RecordsAt(cfg, turns, LAST + 3) == waiting
  {
    var turns := ForgettingTurns(link, proof);
    TurnsAre(link, proof);
    UntilPosted(cfg, turns, proof);
    var waiting := RecordsAt(cfg, turns, LAST);
    assert |waiting| == MAX_RECORDS && forall r | r in waiting :: r.base.state == Draft;
    hide RecordsAt, Drafted, IdOf, EffectOf, UpdatedAll, Drafting, At, NeedsProof, ForgettingTurns, Lower, FoundAt,
        WellFormedTurns;
    var r :| RecordsAt(cfg, turns, LAST + 2) == [r] + waiting && IsPosted(r);
    FrontTurn(cfg, turns, LAST + 2, r, waiting);
    LinkReported(cfg, r, link, proof);
    DraftedFull(waiting);
    var stores := EffectOf(cfg, Some(r), MarkHost(IdOf(LAST), true, link), At(LAST + 2, proof)).stores;
    assert stores[0] in stores && IsUnproved(stores[0]);
    DroppedEachTime(r, waiting, stores);
  }
}
