/**
 * Two runs on the edges of device resolution: 2^32 recoveries after which a device that the first of them
 * voided, authorised by an owner long gone, acts for the account again; and a device that resolves for
 * capability 0, although it shares no capability bit with the request.
 */
module IdentityEpochs {
  import opened Wrappers
  import opened Bytes
  import opened Identity
  import opened IdentityRuns
  import opened IdentityDevices

  /** An account `a` with device `d`, a guardian, and two owners that take turns. */
  datatype Cast = Cast(a: Bytes, d: Bytes, guardian: Bytes, first: Bytes, second: Bytes, key: Bytes)

  ghost predicate Fits(c: Cast) {
    && IsAddress(c.a) && IsAddress(c.d) && IsAddress(c.guardian) && IsAddress(c.first) && IsAddress(c.second)
    && c.d != c.a && c.guardian != c.a && c.first != c.a && c.second != c.a && c.first != c.second
    && |c.key| == ENCRYPTION_KEY_LENGTH
  }

  function PolicyOf(c: Cast): Policy {
    Policy([c.guardian], 1, 0)
  }

  /** The account registers, names its guardian and authorises the device. */
  function Setup(c: Cast): seq<Tx> {
    var ctx := Context(1, {c.a});
    [
      Tx(ctx, Call.Register(c.a, c.key, 1, [], "")),
      Tx(ctx, Call.SetRecoveryPolicy(c.a, Some(PolicyOf(c)))),
      Tx(ctx, Call.AuthorizeDevice(c.a, c.d, CAPABILITY_PROFILE, DAY_MS, ""))
    ]
  }

  function OwnerAfter(c: Cast, rounds: nat): Bytes {
    if rounds == 0 then c.a else if rounds % 2 == 1 then c.first else c.second
  }

  /** Transaction i of the rounds: the guardian proposes the next owner, then the recovery is executed. */
  function RoundTx(c: Cast, i: nat): Tx {
    if i % 2 == 0 then
      Tx(Context(1, {c.guardian}), Call.ProposeRecovery(c.a, c.guardian, OwnerAfter(c, i / 2 + 1)))
    else Tx(Context(1, {}), Call.ExecuteRecovery(c.a))
  }

  function History(c: Cast, rounds: nat): (txs: seq<Tx>)
    ensures |txs| == 3 + 2 * rounds
  {
    Setup(c) + seq(2 * rounds, i requires 0 <= i < 2 * rounds => RoundTx(c, i))
  }

  /** The account between two recoveries. */
  ghost predicate IsBetween(s: Storage, c: Cast, owner: Bytes, epoch: u32) {
    && c.a in s.identities && s.identities[c.a].owner == owner && s.identities[c.a].deviceEpoch == epoch
    && RecoveryOf(s, c.a) == RecoveryState(Some(PolicyOf(c)), None, None)
    && DeviceKey(c.a, c.d) in s.devices
    && s.devices[DeviceKey(c.a, c.d)] == DeviceRecord(c.a, c.d, CAPABILITY_PROFILE, DAY_MS, 0, false, "", 1)
  }

  lemma SetupWorks(c: Cast)
    requires Fits(c)
    ensures var s1 := After(EmptyStorage, Step(EmptyStorage, Setup(c)[0]));
            var s2 := After(s1, Step(s1, Setup(c)[1]));
            IsBetween(After(s2, Step(s2, Setup(c)[2])), c, c.a, 0)
  {
    assert Grants(CAPABILITY_PROFILE, CAPABILITY_PROFILE);
  }

  /** One round installs the next owner and counts the epoch up. */
  lemma RoundWorks(s: Storage, c: Cast, rounds: nat, epoch: u32)
    requires Fits(c) && IsBetween(s, c, OwnerAfter(c, rounds), epoch)
    ensures var propose, execute := RoundTx(c, 2 * rounds), RoundTx(c, 2 * rounds + 1);
            var s' := After(s, Step(s, propose));
            && Step(s, propose).Committed? && Step(s', execute).Committed?
            && IsBetween(After(s', Step(s', execute)), c, OwnerAfter(c, rounds + 1), IncU32(epoch))
  {
    assert 2 * rounds / 2 + 1 == rounds + 1;
    assert OwnerAfter(c, rounds + 1) != OwnerAfter(c, rounds) && IsAddress(OwnerAfter(c, rounds + 1));
    hide OwnerAfter;
  }

  lemma HistoryAt(c: Cast, rounds: nat, k: nat)
    requires k < rounds
    ensures var txs, n := History(c, rounds), 3 + 2 * k;
            txs[n] == RoundTx(c, 2 * k) && txs[n + 1] == RoundTx(c, 2 * k + 1)
  {
    hide RoundTx;
  }

  lemma AfterSetup(c: Cast, rounds: nat)
    requires Fits(c)
    ensures var txs := History(c, rounds); IsBetween(StateAt(txs, 3), c, c.a, 0) && Recoveries(txs, 3, c.a) == 0
  {
    var txs := History(c, rounds);
    assert txs[0] == Setup(c)[0] && txs[1] == Setup(c)[1] && txs[2] == Setup(c)[2];
    SetupWorks(c);
    hide Step, IsBetween, History;
    assert StateAt(txs, 0) == EmptyStorage;
    assert StateAt(txs, 3) == After(StateAt(txs, 2), Step(StateAt(txs, 2), txs[2]));
    assert Recoveries(txs, 3, c.a) == Recoveries(txs, 2, c.a) == Recoveries(txs, 1, c.a) == 0;
  }

  /** Two transactions of a run. */
  lemma TwoSteps(txs: seq<Tx>, n: nat)
    requires n + 1 < |txs|
    ensures var s := StateAt(txs, n);
            var s' := After(s, Step(s, txs[n]));
            StateAt(txs, n + 1) == s' && StateAt(txs, n + 2) == After(s', Step(s', txs[n + 1]))
  {
    hide Step;
  }

  lemma TwoCounts(txs: seq<Tx>, n: nat, a: Bytes)
    requires n + 1 < |txs| && txs[n].call.ProposeRecovery? && txs[n + 1].call == Call.ExecuteRecovery(a)
    ensures Recoveries(txs, n + 2, a) == Recoveries(txs, n, a) + (if Succeeds(txs, n + 1) then 1 else 0)
  {
    hide Succeeds, StateAt, Step;
    assert Recoveries(txs, n + 1, a) == Recoveries(txs, n, a);
  }

  lemma AfterRound(txs: seq<Tx>, c: Cast, n: nat, k: nat)
    requires Fits(c) && n + 1 < |txs| && txs[n] == RoundTx(c, 2 * k) && txs[n + 1] == RoundTx(c, 2 * k + 1)
    requires IsBetween(StateAt(txs, n), c, OwnerAfter(c, k), k % U32_MODULUS)
    ensures IsBetween(StateAt(txs, n + 2), c, OwnerAfter(c, k + 1), (k + 1) % U32_MODULUS)
    ensures Recoveries(txs, n + 2, c.a) == Recoveries(txs, n, c.a) + 1
  {
    hide Step, IsBetween, OwnerAfter, StateAt, Recoveries, Fits;
    TwoSteps(txs, n);
    TwoCounts(txs, n, c.a);
    RoundWorks(StateAt(txs, n), c, k, k % U32_MODULUS);
  }

  /** After every round of the history: the owner and the epoch, and how many recoveries there were. */
  lemma {:induction false} AfterRounds(c: Cast, rounds: nat, k: nat)
    requires Fits(c) && k <= rounds
    ensures var txs := History(c, rounds);
            && IsBetween(StateAt(txs, 3 + 2 * k), c, OwnerAfter(c, k), k % U32_MODULUS)
            && Recoveries(txs, 3 + 2 * k, c.a) == k
  {
    hide IsBetween, StateAt, Recoveries;
    if k == 0 {
      AfterSetup(c, rounds);
    } else {
      AfterRounds(c, rounds, k - 1);
      HistoryAt(c, rounds, k - 1);
      AfterRound(History(c, rounds), c, 3 + 2 * (k - 1), k - 1);
    }
  }

  lemma HistoryIsValid(c: Cast, rounds: nat)
    ensures ValidRun(History(c, rounds))
  {
    var txs := History(c, rounds);
    forall i | 0 <= i < |txs|
      ensures txs[i].ctx.now == 1
    {
      if i >= 3 {
        assert txs[i] == RoundTx(c, i - 3);
      }
    }
  }

  /** Whether the device is accepted depends on the epoch alone. */
  lemma EpochDecides(s: Storage, c: Cast, owner: Bytes, epoch: u32)
    requires Fits(c) && IsBetween(s, c, owner, epoch)
    ensures Resolve(s, c.a, c.d, CAPABILITY_PROFILE, 1) == if epoch == 0 then Resolved(c.d) else Refused(EpochExpired)
  {
    assert Grants(CAPABILITY_PROFILE, CAPABILITY_PROFILE);
    assert c.a != [] && c.d != [];
  }

  /** Only the first owner ever authorised a device. */
  lemma OnlyFirstAuthorised(c: Cast, rounds: nat, i: nat)
    requires Fits(c) && i < |History(c, rounds)|
    ensures History(c, rounds)[i].call.AuthorizeDevice? ==> c.second !in History(c, rounds)[i].ctx.signers
  {
    if i < 3 {
      assert History(c, rounds)[i] == Setup(c)[i];
    } else {
      assert History(c, rounds)[i] == RoundTx(c, i - 3);
    }
  }

  lemma NobodyAuthorised(c: Cast, rounds: nat, n: nat)
    requires Fits(c) && n <= |History(c, rounds)| && OwnerAt(History(c, rounds), n, c.a) == Some(c.second)
    ensures forall i: nat :: !Authority(History(c, rounds), n, c.a, c.d, CAPABILITY_PROFILE, 1, i)
  {
    var txs := History(c, rounds);
    hide StateAt, History, OwnerAt, Step, Grants, Succeeds;
    forall i: nat
      ensures !Authority(txs, n, c.a, c.d, CAPABILITY_PROFILE, 1, i)
    {
      if i < n {
        OnlyFirstAuthorised(c, rounds, i);
      }
    }
  }

  /** The account and the device after k rounds. */
  lemma DeviceAfter(c: Cast, rounds: nat, k: nat)
    requires Fits(c) && k <= rounds
    ensures var txs := History(c, rounds);
            && OwnerAt(txs, 3 + 2 * k, c.a) == Some(OwnerAfter(c, k)) && Recoveries(txs, 3 + 2 * k, c.a) == k
            && Resolve(StateAt(txs, 3 + 2 * k), c.a, c.d, CAPABILITY_PROFILE, 1) ==
               if k % U32_MODULUS == 0 then Resolved(c.d) else Refused(EpochExpired)
  {
    var txs := History(c, rounds);
    AfterRounds(c, rounds, k);
    hide StateAt, Resolve, History, Recoveries, Step, Grants, OwnerAfter, Fits;
    EpochDecides(StateAt(txs, 3 + 2 * k), c, OwnerAfter(c, k), k % U32_MODULUS);
  }

  /** A device with one capability is accepted for capability 0 right after its authorisation. */
  lemma CapabilityZeroPasses(c: Cast)
    requires Fits(c)
    ensures var txs := History(c, 0);
            && |txs| == 3 && ValidRun(txs)
            && Resolve(StateAt(txs, 3), c.a, c.d, 0, 1) == Resolved(c.d)
            && !Described(StateAt(txs, 3), c.a, c.d, 0, 1)
  {
    var txs := History(c, 0);
    HistoryIsValid(c, 0);
    AfterSetup(c, 0);
    var s := StateAt(txs, 3);
    assert c.a != [] && c.d != [] && c.d != c.a;
    hide StateAt, ValidRun, History, Resolve, Described;
    assert DeviceInForce(s, c.a, c.d, 1);
    CapabilityZeroDiffers(s, c.a, c.d, 0, 1);
    ResolvedToDevice(s, c.a, c.d, 0, 1);
  }

  lemma ResolvedToDevice(s: Storage, a: Bytes, d: Bytes, capability: bv32, now: u64)
    requires d != [] && d != a && Resolve(s, a, d, capability, now).Resolved?
    ensures Resolve(s, a, d, capability, now) == Resolved(d)
  {
  }

  /**
   * The wrap-around at its first input: the device is refused after one recovery and accepted after 2^32 of them,
   * for an owner who never authorised it.
   */
  lemma VoidedDeviceReturns(c: Cast)
    requires Fits(c)
    ensures var txs := History(c, U32_MODULUS);
            var n := |txs|;
            && ValidRun(txs) && Recoveries(txs, n, c.a) == U32_MODULUS
            && Resolve(StateAt(txs, 5), c.a, c.d, CAPABILITY_PROFILE, 1) == Refused(EpochExpired)
            && Resolve(StateAt(txs, n), c.a, c.d, CAPABILITY_PROFILE, 1) == Resolved(c.d)
            && OwnerAt(txs, n, c.a) == Some(c.second)
            && forall i: nat :: !Authority(txs, n, c.a, c.d, CAPABILITY_PROFILE, 1, i)
  {
    hide StateAt, Resolve, ValidRun, Recoveries, Step, Grants, OwnerAt, Fits, Authority, History;
    HistoryIsValid(c, U32_MODULUS);
    DeviceAfter(c, U32_MODULUS, 1);
    DeviceAfter(c, U32_MODULUS, U32_MODULUS);
    NobodyAuthorised(c, U32_MODULUS, |History(c, U32_MODULUS)|);
  }
}
