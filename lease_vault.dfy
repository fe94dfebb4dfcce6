/**
 * The LeaseVault Soroban contract: one lease per contract instance, kept in
 * two instance-storage slots, the lease record and the deposit balance.
 *
 * A call that panics (a failed `require_auth`, an `unwrap` of an empty slot,
 * the "Insufficient deposit amount" panic) reverts the transaction, so it is
 * modelled as a `Fail` outcome that leaves both slots as they were.
 */
module LeaseVault {
  import opened Wrappers

  /** Soroban's `i128`, the type of amounts and of the stored balance. */
  type I128 = x: int | -0x8000_0000_0000_0000_0000_0000_0000_0000 <= x < 0x8000_0000_0000_0000_0000_0000_0000_0000

  /** Soroban's `u64`, the type of the start and end dates. */
  type U64 = x: int | 0 <= x < 0x1_0000_0000_0000_0000

  /** An account address; only compared for identity here. */
  type Address = string

  datatype LeaseState = Created | DepositPaid | Active | InDispute | Closed

  datatype LeaseInfo = LeaseInfo(
    tenant: Address,
    landlord: Address,
    depositAmount: I128,
    monthlyRent: I128,
    startDate: U64,
    endDate: U64,
    state: LeaseState,
    propertyAddress: string)

  /** Why a call reverts. */
  datatype VaultError =
    | Unauthorized          // `require_auth` on an address that did not sign
    | NotInitialized        // `unwrap` of the empty lease slot
    | BalanceMissing        // `unwrap` of the empty balance slot
    | InsufficientDeposit   // the explicit panic in `deposit`

  /** The contract's instance storage: the `LeaseInfo` and `DepositBalance` slots. */
  datatype Storage = Storage(lease: Option<LeaseInfo>, balance: Option<I128>)

  /** The storage of a freshly deployed contract: both slots empty. */
  const Empty := Storage(None, None)

  /** The storage after a call, and whether the call succeeded. */
  datatype Step = Step(post: Storage, outcome: Outcome<VaultError>)

  /** `a` and `b` agree on every field of the lease except its state. */
  predicate SameTerms(a: LeaseInfo, b: LeaseInfo) {
    && a.tenant == b.tenant
    && a.landlord == b.landlord
    && a.depositAmount == b.depositAmount
    && a.monthlyRent == b.monthlyRent
    && a.startDate == b.startDate
    && a.endDate == b.endDate
    && a.propertyAddress == b.propertyAddress
  }

  // ---------------------------------------------------------------------------
  // The entry points as transitions of the storage
  // ---------------------------------------------------------------------------

  /** `initialize`: both slots are overwritten, whatever they held; no argument is validated. */
  function InitializeStep(s: Storage, tenant: Address, landlord: Address, depositAmount: I128,
                          monthlyRent: I128, startDate: U64, endDate: U64,
                          propertyAddress: string): (r: Step)
    ensures r.outcome == Pass
    ensures r.post.balance == Some(0)
    ensures r.post.lease.Some?
    ensures var info := r.post.lease.value;
      && info.tenant == tenant && info.landlord == landlord
      && info.depositAmount == depositAmount && info.monthlyRent == monthlyRent
      && info.startDate == startDate && info.endDate == endDate
      && info.propertyAddress == propertyAddress
      && info.state == Created
  {
    var info := LeaseInfo(tenant, landlord, depositAmount, monthlyRent, startDate, endDate,
                          Created, propertyAddress);
    Step(Storage(Some(info), Some(0)), Pass)
  }

  /**
   * `deposit`: `from` must have signed (it is not compared with the tenant),
   * the lease must exist and `amount` must reach the declared deposit. The
   * balance is then replaced by `amount` and the state set to DepositPaid,
   * whatever the previous balance and state were.
   */
  function DepositStep(s: Storage, signers: set<Address>, from: Address, amount: I128): (r: Step)
    ensures r.outcome == Pass <==>
              from in signers && s.lease.Some? && amount >= s.lease.value.depositAmount
    ensures from !in signers ==> r.outcome == Fail(Unauthorized)
    ensures from in signers && s.lease.None? ==> r.outcome == Fail(NotInitialized)
    ensures from in signers && s.lease.Some? && amount < s.lease.value.depositAmount ==>
              r.outcome == Fail(InsufficientDeposit)
    ensures r.outcome.Fail? ==> r.post == s
    ensures r.outcome.Pass? ==>
              && r.post.balance == Some(amount)
              && r.post.lease.Some?
              && r.post.lease.value.state == DepositPaid
              && SameTerms(r.post.lease.value, s.lease.value)
  {
    if from !in signers then Step(s, Fail(Unauthorized))
    else match s.lease
      case None => Step(s, Fail(NotInitialized))
      case Some(info) =>
        if amount < info.depositAmount then Step(s, Fail(InsufficientDeposit))
        else Step(Storage(Some(info.(state := DepositPaid)), Some(amount)), Pass)
  }

  /**
   * `confirm_move_in`: `landlord` must have signed (it is not compared with the
   * stored landlord) and the lease must exist; the state becomes Active from
   * any state, Closed included, and the balance is not touched.
   */
  function ConfirmMoveInStep(s: Storage, signers: set<Address>, landlord: Address): (r: Step)
    ensures r.outcome == Pass <==> landlord in signers && s.lease.Some?
    ensures landlord !in signers ==> r.outcome == Fail(Unauthorized)
    ensures landlord in signers && s.lease.None? ==> r.outcome == Fail(NotInitialized)
    ensures r.outcome.Fail? ==> r.post == s
    ensures r.outcome.Pass? ==>
              && r.post.balance == s.balance
              && r.post.lease.Some?
              && r.post.lease.value.state == Active
              && SameTerms(r.post.lease.value, s.lease.value)
  {
    if landlord !in signers then Step(s, Fail(Unauthorized))
    else match s.lease
      case None => Step(s, Fail(NotInitialized))
      case Some(info) => Step(Storage(Some(info.(state := Active)), s.balance), Pass)
  }

  /**
   * `release_deposit`: nobody has to sign; both slots must be present; the
   * balance becomes 0 and the state Closed. `to` is never used.
   */
  function ReleaseDepositStep(s: Storage, to: Address): (r: Step)
    ensures r.outcome == Pass <==> s.lease.Some? && s.balance.Some?
    ensures s.lease.None? ==> r.outcome == Fail(NotInitialized)
    ensures s.lease.Some? && s.balance.None? ==> r.outcome == Fail(BalanceMissing)
    ensures r.outcome.Fail? ==> r.post == s
    ensures r.outcome.Pass? ==>
              && r.post.balance == Some(0)
              && r.post.lease.Some?
              && r.post.lease.value.state == Closed
              && SameTerms(r.post.lease.value, s.lease.value)
  {
    match s.lease
    case None => Step(s, Fail(NotInitialized))
    case Some(info) =>
      if s.balance.None? then Step(s, Fail(BalanceMissing))
      else Step(Storage(Some(info.(state := Closed)), Some(0)), Pass)
  }

  /** `get_lease_info`: the stored record, or a revert when there is none. */
  function LeaseInfoOf(s: Storage): (r: Result<LeaseInfo, VaultError>)
    ensures r.Ok? <==> s.lease.Some?
    ensures r.Ok? ==> r.value == s.lease.value
    ensures r.Err? ==> r.error == NotInitialized
  {
    match s.lease
    case None => Err(NotInitialized)
    case Some(info) => Ok(info)
  }

  /** `get_balance`: the stored balance, 0 when the slot is empty. */
  function BalanceOf(s: Storage): (r: I128)
    ensures s.balance.Some? ==> r == s.balance.value
    ensures s.balance.None? ==> r == 0
  {
    match s.balance
    case None => 0
    case Some(b) => b
  }

  // ---------------------------------------------------------------------------
  // The contract instance
  // ---------------------------------------------------------------------------

  /** One deployed LeaseVault; its fields are the two instance-storage slots. */
  class Vault {
    var lease: Option<LeaseInfo>
    var balance: Option<I128>

    function Snapshot(): Storage
      reads this
    {
      Storage(lease, balance)
    }

    /** A contract just deployed, before `initialize`. */
    constructor ()
      ensures Snapshot() == Empty
    {
      lease := None;
      balance := None;
    }

    method Initialize(tenant: Address, landlord: Address, depositAmount: I128, monthlyRent: I128,
                      startDate: U64, endDate: U64, propertyAddress: string)
      modifies this
      ensures Snapshot() == InitializeStep(old(Snapshot()), tenant, landlord, depositAmount,
                                           monthlyRent, startDate, endDate, propertyAddress).post
    {
      var info := LeaseInfo(tenant, landlord, depositAmount, monthlyRent, startDate, endDate,
                            Created, propertyAddress);
      lease := Some(info);
      balance := Some(0);
    }

    method Deposit(signers: set<Address>, from: Address, amount: I128) returns (r: Outcome<VaultError>)
      modifies this
      ensures Snapshot() == DepositStep(old(Snapshot()), signers, from, amount).post
      ensures r == DepositStep(old(Snapshot()), signers, from, amount).outcome
    {
      if from !in signers {
        return Fail(Unauthorized);
      }
      if lease.None? {
        return Fail(NotInitialized);
      }
      var info := lease.value;
      if amount < info.depositAmount {
        return Fail(InsufficientDeposit);
      }
      balance := Some(amount);
      info := info.(state := DepositPaid);
      lease := Some(info);
      r := Pass;
    }

    method ConfirmMoveIn(signers: set<Address>, landlord: Address) returns (r: Outcome<VaultError>)
      modifies this
      ensures Snapshot() == ConfirmMoveInStep(old(Snapshot()), signers, landlord).post
      ensures r == ConfirmMoveInStep(old(Snapshot()), signers, landlord).outcome
    {
      if landlord !in signers {
        return Fail(Unauthorized);
      }
      if lease.None? {
        return Fail(NotInitialized);
      }
      var info := lease.value;
      info := info.(state := Active);
      lease := Some(info);
      r := Pass;
    }

    method ReleaseDeposit(to: Address) returns (r: Outcome<VaultError>)
      modifies this
      ensures Snapshot() == ReleaseDepositStep(old(Snapshot()), to).post
      ensures r == ReleaseDepositStep(old(Snapshot()), to).outcome
    {
      if lease.None? {
        return Fail(NotInitialized);
      }
      var info := lease.value;
      if balance.None? {
        return Fail(BalanceMissing);
      }
      balance := Some(0);
      info := info.(state := Closed);
      lease := Some(info);
      r := Pass;
    }

    /** A read: no `modifies` clause, so the storage is unchanged. */
    method GetLeaseInfo() returns (r: Result<LeaseInfo, VaultError>)
      ensures r == LeaseInfoOf(Snapshot())
    {
      if lease.None? {
        return Err(NotInitialized);
      }
      r := Ok(lease.value);
    }

    /** A read: no `modifies` clause, so the storage is unchanged. */
    method GetBalance() returns (b: I128)
      ensures b == BalanceOf(Snapshot())
    {
      b := if balance.Some? then balance.value else 0;
    }
  }

  // ---------------------------------------------------------------------------
  // Sequences of calls
  // ---------------------------------------------------------------------------

  /** A call to one of the contract's state-changing entry points. */
  datatype Call =
    | InitializeCall(tenant: Address, landlord: Address, depositAmount: I128, monthlyRent: I128,
                     startDate: U64, endDate: U64, propertyAddress: string)
    | DepositCall(depositSigners: set<Address>, from: Address, amount: I128)
    | ConfirmMoveInCall(confirmSigners: set<Address>, confirmer: Address)
    | ReleaseDepositCall(to: Address)

  function Apply(s: Storage, c: Call): Storage {
    match c
    case InitializeCall(t, l, d, m, sd, ed, p) => InitializeStep(s, t, l, d, m, sd, ed, p).post
    case DepositCall(sig, from, amount) => DepositStep(s, sig, from, amount).post
    case ConfirmMoveInCall(sig, who) => ConfirmMoveInStep(s, sig, who).post
    case ReleaseDepositCall(to) => ReleaseDepositStep(s, to).post
  }

  /** The storage after the calls `cs`, in order, starting from `s`. */
  function Run(s: Storage, cs: seq<Call>): Storage
    decreases |cs|
  {
    if cs == [] then s else Run(Apply(s, cs[0]), cs[1..])
  }

  predicate NotInDispute(s: Storage) {
    s.lease.None? || s.lease.value.state != InDispute
  }

  /** No entry point ever assigns InDispute, so no sequence of calls enters it. */
  lemma {:induction false} InDisputeUnreachable(s: Storage, cs: seq<Call>)
    requires NotInDispute(s)
    ensures NotInDispute(Run(s, cs))
    decreases |cs|
  {
    if cs != [] {
      InDisputeUnreachable(Apply(s, cs[0]), cs[1..]);
    }
  }

  /** In particular, InDispute is unreachable from a freshly deployed contract. */
  lemma NeverInDisputeFromDeployment(cs: seq<Call>)
    ensures NotInDispute(Run(Empty, cs))
  {
    InDisputeUnreachable(Empty, cs);
  }

  /** Both slots are written together: either both are present or neither is. */
  predicate SlotsPaired(s: Storage) {
    s.lease.Some? <==> s.balance.Some?
  }

  lemma {:induction false} SlotsStayPaired(s: Storage, cs: seq<Call>)
    requires SlotsPaired(s)
    ensures SlotsPaired(Run(s, cs))
    decreases |cs|
  {
    if cs != [] {
      SlotsStayPaired(Apply(s, cs[0]), cs[1..]);
    }
  }

  /** No call in `cs` is an `initialize`. */
  predicate NoInitialize(cs: seq<Call>) {
    forall i :: 0 <= i < |cs| ==> !cs[i].InitializeCall?
  }

  /**
   * Only `initialize` fills the lease slot, and no call empties it: after the
   * calls `cs` the slot is empty exactly when it was empty before and no call
   * in `cs` was an `initialize`.
   */
  lemma {:induction false} LeaseAbsentIffNoInitialize(s: Storage, cs: seq<Call>)
    ensures Run(s, cs).lease.None? <==> s.lease.None? && NoInitialize(cs)
    decreases |cs|
  {
    if cs != [] {
      LeaseAbsentIffNoInitialize(Apply(s, cs[0]), cs[1..]);
      assert NoInitialize(cs) <==> !cs[0].InitializeCall? && NoInitialize(cs[1..]) by {
        if !cs[0].InitializeCall? && NoInitialize(cs[1..]) {
          forall i | 0 <= i < |cs| ensures !cs[i].InitializeCall? {
            if i > 0 {
              assert cs[i] == cs[1..][i - 1];
            }
          }
        }
        if NoInitialize(cs) {
          forall i | 0 <= i < |cs[1..]| ensures !cs[1..][i].InitializeCall? {
            assert cs[1..][i] == cs[i + 1];
          }
        }
      }
    }
  }

  /**
   * Hence, after deployment, `release_deposit` fails exactly when no call so
   * far was an `initialize`, and then with NotInitialized: the unwrap of the
   * balance slot never fails.
   */
  lemma ReleaseFailsOnlyBeforeInitialize(cs: seq<Call>, to: Address)
    ensures ReleaseDepositStep(Run(Empty, cs), to).outcome ==
              (if NoInitialize(cs) then Fail(NotInitialized) else Pass)
  {
    SlotsStayPaired(Empty, cs);
    LeaseAbsentIffNoInitialize(Empty, cs);
  }

  /** Every lease stored has a non-negative declared deposit, and the balance is non-negative. */
  predicate FundsNonNegative(s: Storage) {
    && (s.lease.Some? ==> s.lease.value.depositAmount >= 0)
    && (s.balance.Some? ==> s.balance.value >= 0)
  }

  /** Every `InitializeCall` in `cs` declares a non-negative deposit. */
  predicate NonNegativeTerms(cs: seq<Call>) {
    forall i :: 0 <= i < |cs| && cs[i].InitializeCall? ==> cs[i].depositAmount >= 0
  }

  /**
   * Because `deposit` accepts any amount at least the declared deposit, the
   * balance stays non-negative as long as no lease is initialised with a
   * negative deposit; nothing in the contract rules such a lease out.
   */
  lemma {:induction false} BalanceNonNegative(s: Storage, cs: seq<Call>)
    requires FundsNonNegative(s)
    requires NonNegativeTerms(cs)
    ensures FundsNonNegative(Run(s, cs))
    decreases |cs|
  {
    if cs != [] {
      assert NonNegativeTerms(cs[1..]) by {
        forall i | 0 <= i < |cs[1..]| && cs[1..][i].InitializeCall?
          ensures cs[1..][i].depositAmount >= 0
        {
          assert cs[1..][i] == cs[i + 1];
        }
      }
      BalanceNonNegative(Apply(s, cs[0]), cs[1..]);
    }
  }

  /** With a negative declared deposit, a negative amount is accepted and becomes the balance. */
  lemma NegativeDepositAccepted(signers: set<Address>, from: Address, t: Address, l: Address)
    requires from in signers
    ensures Run(Empty, [InitializeCall(t, l, -5, 0, 0, 0, ""), DepositCall(signers, from, -3)]).balance
            == Some(-3)
  {
    var cs := [InitializeCall(t, l, -5, 0, 0, 0, ""), DepositCall(signers, from, -3)];
    var s1 := Apply(Empty, cs[0]);
    assert Run(Empty, cs) == Run(s1, cs[1..]);
    assert cs[1..] == [DepositCall(signers, from, -3)];
  }

  /** Two successful deposits leave the last amount as balance, not their sum. */
  lemma DepositOverwrites(s: Storage, signers: set<Address>, from: Address, a1: I128, a2: I128)
    requires DepositStep(s, signers, from, a1).outcome == Pass
    requires DepositStep(DepositStep(s, signers, from, a1).post, signers, from, a2).outcome == Pass
    ensures DepositStep(DepositStep(s, signers, from, a1).post, signers, from, a2).post.balance == Some(a2)
  {
  }

  /** The `to` argument of `release_deposit` has no influence on the result. */
  lemma ReleaseIgnoresRecipient(s: Storage, to1: Address, to2: Address)
    ensures ReleaseDepositStep(s, to1) == ReleaseDepositStep(s, to2)
  {
  }
}
