/**
 * The payment service: a class over three tables (payments, payment accounts,
 * payouts), its state-changing operations as methods and its queries as
 * functions of the tables.
 *
 * The clock and the payment gateway are parameters: `now` is the time of the
 * call, and each gateway call is an Option whose None means the call threw.
 */
module Payments {
  import opened Wrappers
  import opened Query
  import opened Entities
  import opened Ledger

  const ReleaseAfterDays := 15
  const ApproveAfterDays := 3
  /** In cents. */
  const MinimumReleaseAmount := 50 * 100
  const MillisPerDay := 86_400_000

  function HasId(id: int): Payment -> bool
  {
    (p: Payment) => p.id == id
  }

  /** `findOne` by primary key: with numbered rows, the row with id `id` sits at position `id - 1`. */
  function RowOf(ps: seq<Payment>, id: int): (r: Option<nat>)
    ensures PaymentRowsNumbered(ps) ==> r == if 1 <= id <= |ps| then Some(id - 1) else None
  {
    assert 1 <= id <= |ps| && ps[id - 1].id == id ==> HasId(id)(ps[id - 1]);
    Find(ps, HasId(id))
  }

  /** A DRAFT payment once approved by a client. */
  function Approved(p: Payment, now: Timestamp): Payment
  {
    p.(status := Pending, approvedAt := Some(now), releasedAt := Some(now + ReleaseAfterDays * MillisPerDay))
  }

  function Cancelled(p: Payment, now: Timestamp): Payment
  {
    p.(status := Canceled, cancelledAt := Some(now))
  }

  /** A DRAFT payment edited by a client, and approved too when the request says so. */
  function Edited(p: Payment, request: UpdatePaymentRequest, user: Principal, now: Timestamp): Payment
  {
    var e := p.(amount := request.amount, description := request.description,
                updatedAt := Some(now), updatedBy := Some(user.username));
    if request.approve then e.(status := Pending, approvedAt := Some(now)) else e
  }

  function NewPayment(id: nat, request: CreatePaymentRequest, user: Principal, now: Timestamp): Payment
  {
    Payment(id, request.userId, request.amount, request.description, Draft, None, Some(now),
            None, None, None, None, None, Some(user.username), None, request.externalId, None)
  }

  /** A DRAFT payment created strictly before `cutoff`. */
  function Stale(cutoff: Timestamp): Payment -> bool
  {
    (p: Payment) => p.status == Draft && p.createdAt.Some? && p.createdAt.value < cutoff
  }

  /** The bulk update `SET status = PENDING, approvedAt = now WHERE status = DRAFT AND createdAt < cutoff`. */
  function AutoApproved(ps: seq<Payment>, cutoff: Timestamp, now: Timestamp): (r: seq<Payment>)
    ensures |r| == |ps|
    ensures forall i :: 0 <= i < |ps| ==>
      r[i] == if Stale(cutoff)(ps[i]) then ps[i].(status := Pending, approvedAt := Some(now)) else ps[i]
  {
    seq(|ps|, i requires 0 <= i < |ps| =>
      if Stale(cutoff)(ps[i]) then ps[i].(status := Pending, approvedAt := Some(now)) else ps[i])
  }

  function Connect(a: PaymentAccount, now: Timestamp): PaymentAccount
  {
    a.(accountStatus := AccountConnected, connectedAt := Some(now))
  }

  /** The row saved for a user's first onboarding request; the service sets no creation time on it. */
  function NewAccount(id: nat, userId: string, accountId: string): PaymentAccount
  {
    PaymentAccount(id, userId, accountId, AccountCreated, None, None)
  }

  /** The payments a user's listing shows. */
  function Listed(userId: string): Payment -> bool
  {
    (p: Payment) => p.userId == userId && (p.status == Pending || p.status == Paid)
  }

  /**
   * The payments a reference lookup shows: DRAFT, PENDING or PAID, carrying
   * one of the references, and, unless the caller is a client, the caller's own.
   */
  function Visible(referenceIds: seq<string>, user: Principal): Payment -> bool
  {
    (p: Payment) =>
      p.externalId.Some? && p.externalId.value in referenceIds && p.status != Canceled
      && (user.isClient || p.userId == user.id)
  }

  /** What callers see of a query: the details of exactly the rows it selects. */
  lemma ProjectedRows(ps: seq<Payment>, f: Payment -> bool)
    ensures forall i :: 0 <= i < |Filter(ps, f)| ==>
      Project(Filter(ps, f))[i] == Details(Filter(ps, f)[i]) && f(Filter(ps, f)[i])
    ensures forall i :: 0 <= i < |ps| && f(ps[i]) ==> Details(ps[i]) in Project(Filter(ps, f))
    ensures |Project(Filter(ps, f))| <= |ps|
    ensures forall i :: 0 <= i < |Filter(ps, f)| ==>
      exists k :: 0 <= k < |ps| && Project(Filter(ps, f))[i] == Details(ps[k])
  {
    var rows := Filter(ps, f);
    FilterMembers(ps, f);
    forall i | 0 <= i < |rows|
      ensures exists k :: 0 <= k < |ps| && Project(rows)[i] == Details(ps[k])
    {
      var k :| 0 <= k < |ps| && ps[k] == rows[i];
      assert Project(rows)[i] == Details(ps[k]);
    }
    forall i | 0 <= i < |ps| && f(ps[i])
      ensures Details(ps[i]) in Project(rows)
    {
      var j :| 0 <= j < |rows| && rows[j] == ps[i];
      assert Project(rows)[j] == Details(ps[i]);
    }
  }

  /**
   * The users whose payouts the batch attempts, as the database is meant to
   * report them: each user whose PENDING total reaches the minimum, once, in
   * an order the database chooses.
   */
  ghost predicate IsCandidateList(ps: seq<Payment>, candidates: seq<string>)
  {
    && (forall i, j :: 0 <= i < j < |candidates| ==> candidates[i] != candidates[j])
    && (forall u :: u in candidates <==> StatusTotal(ps, u, Pending) >= MinimumReleaseAmount)
  }

  class PaymentService {
    var payments: seq<Payment>
    var accounts: seq<PaymentAccount>
    var payouts: seq<Payout>

    ghost predicate Valid()
      reads this
    {
      Consistent(payments, accounts, payouts)
    }

    constructor ()
      ensures Valid() && payments == [] && accounts == [] && payouts == []
    {
      payments := [];
      accounts := [];
      payouts := [];
    }

    // ------------------------------------------------------------ payment accounts

    /**
     * The caller's own account. A CREATED account is checked at the gateway
     * (`payoutsEnabled`) and becomes CONNECTED once payouts are enabled.
     */
    method GetPaymentAccount(userId: string, user: Principal, now: Timestamp, payoutsEnabled: Option<bool>)
      returns (r: Result<Option<PaymentAccount>, Failure>)
      requires Valid()
      modifies this
      ensures Valid() && AccountsEvolve(old(accounts), accounts)
      ensures payments == old(payments) && payouts == old(payouts)
      ensures user.id != userId ==> r == Err(Forbidden) && accounts == old(accounts)
      ensures user.id == userId && Find(old(accounts), HeldBy(userId)).None? ==>
        r == Ok(None) && accounts == old(accounts)
      ensures user.id == userId && Find(old(accounts), HeldBy(userId)).Some? ==>
        var k := Find(old(accounts), HeldBy(userId)).value;
        var a := old(accounts)[k];
        if a.accountStatus == AccountConnected then r == Ok(Some(a)) && accounts == old(accounts)
        else if payoutsEnabled.None? then r == Err(GatewayError) && accounts == old(accounts)
        else if payoutsEnabled.value then r == Ok(Some(Connect(a, now))) && accounts == old(accounts)[k := Connect(a, now)]
        else r == Ok(None) && accounts == old(accounts)
    {
      if user.id != userId {
        return Err(Forbidden);
      }
      var k := Find(accounts, HeldBy(userId));
      if k.None? {
        return Ok(None);
      }
      var a := accounts[k.value];
      if a.accountStatus == AccountConnected {
        return Ok(Some(a));
      }
      if payoutsEnabled.None? {
        return Err(GatewayError);
      }
      if payoutsEnabled.value {
        a := Connect(a, now);
        ConnectKeepsConsistent(payments, accounts, payouts, k.value, a);
        accounts := accounts[k.value := a];
        return Ok(Some(a));
      }
      return Ok(None);
    }

    /**
     * The onboarding link for the caller's account, creating the account at
     * the gateway (`createdAccountId`) and saving it first when the caller has
     * none. `onboardingUrl` is the gateway's answer to the link request.
     */
    method GetPaymentAccountUrl(userId: string, user: Principal, createdAccountId: Option<string>, onboardingUrl: Option<string>)
      returns (r: Result<Option<string>, Failure>)
      requires Valid()
      modifies this
      ensures Valid() && AccountsEvolve(old(accounts), accounts)
      ensures payments == old(payments) && payouts == old(payouts)
      ensures user.id != userId ==> r == Err(Forbidden) && accounts == old(accounts)
      ensures user.id == userId && Find(old(accounts), HeldBy(userId)).None? ==>
        if createdAccountId.None? then r == Err(GatewayError) && accounts == old(accounts)
        else
          && accounts == old(accounts) + [NewAccount(|old(accounts)| + 1, userId, createdAccountId.value)]
          && r == (if onboardingUrl.Some? then Ok(Some(onboardingUrl.value)) else Err(GatewayError))
      ensures user.id == userId && Find(old(accounts), HeldBy(userId)).Some? ==>
        var a := old(accounts)[Find(old(accounts), HeldBy(userId)).value];
        && accounts == old(accounts)
        && r == if a.accountStatus == AccountConnected then Ok(None)
                else if onboardingUrl.Some? then Ok(Some(onboardingUrl.value))
                else Err(GatewayError)
    {
      if user.id != userId {
        return Err(Forbidden);
      }
      var k := Find(accounts, HeldBy(userId));
      var a: PaymentAccount;
      if k.None? {
        if createdAccountId.None? {
          return Err(GatewayError);
        }
        a := NewAccount(|accounts| + 1, userId, createdAccountId.value);
        NewAccountKeepsConsistent(payments, accounts, payouts, a);
        accounts := accounts + [a];
      } else {
        a := accounts[k.value];
      }
      if a.accountStatus == AccountConnected {
        return Ok(None);
      }
      if onboardingUrl.None? {
        return Err(GatewayError);
      }
      return Ok(Some(onboardingUrl.value));
    }

    // ------------------------------------------------------------ queries

    /** Page `page` (from 1) of the user's PENDING and PAID payments, `perPage` to a page, in table order. */
    function GetPayments(userId: string, page: int, perPage: int, user: Principal): (r: Result<seq<PaymentDetails>, Failure>)
      reads this
      requires page >= 1 && perPage >= 1
      ensures r.Err? <==> !user.isClient && user.id != userId
      ensures r.Err? ==> r.error == Forbidden
      ensures r.Ok? ==> |r.value| <= perPage
      ensures r.Ok? ==> forall i :: 0 <= i < |r.value| ==>
        r.value[i].userId == userId && (r.value[i].status == Pending || r.value[i].status == Paid)
      ensures r.Ok? ==>
        var rows := Filter(payments, Listed(userId));
        var offset := (page - 1) * perPage;
        && |r.value| == (if offset >= |rows| then 0 else Min(perPage, |rows| - offset))
        && forall i :: 0 <= i < |r.value| ==> r.value[i] == Details(rows[offset + i])
    {
      if !user.isClient && user.id != userId then Err(Forbidden)
      else
        FilterMembers(payments, Listed(userId));
        Ok(Project(Window(Filter(payments, Listed(userId)), (page - 1) * perPage, perPage)))
    }

    /** The DRAFT, PENDING and PAID payments carrying one of the references; a non-client sees only their own. */
    function GetReferencePayments(referenceIds: seq<string>, user: Principal): (r: seq<PaymentDetails>)
      reads this
      ensures |r| <= |payments|
      ensures forall i :: 0 <= i < |r| ==> exists k :: 0 <= k < |payments| && r[i] == Details(payments[k])
      ensures forall i :: 0 <= i < |r| ==>
        && r[i].externalId.Some? && r[i].externalId.value in referenceIds
        && r[i].status in {Draft, Pending, Paid}
        && (!user.isClient ==> r[i].userId == user.id)
      ensures forall i :: 0 <= i < |payments| ==>
        (&& payments[i].externalId.Some? && payments[i].externalId.value in referenceIds
         && payments[i].status in {Draft, Pending, Paid}
         && (user.isClient || payments[i].userId == user.id)
         ==> Details(payments[i]) in r)
    {
      ProjectedRows(payments, Visible(referenceIds, user));
      Project(Filter(payments, Visible(referenceIds, user)))
    }

    /** The user's DRAFT, PENDING and PAID totals. */
    function GetPaymentStats(userId: string, user: Principal): (r: Result<PaymentStats, Failure>)
      reads this
      ensures r.Err? <==> !user.isClient && user.id != userId
      ensures r.Err? ==> r.error == Forbidden
      ensures r.Ok? ==> r.value == PaymentStats(StatusTotal(payments, userId, Draft),
                                                StatusTotal(payments, userId, Pending),
                                                StatusTotal(payments, userId, Paid))
    {
      if !user.isClient && user.id != userId then Err(Forbidden)
      else Ok(PaymentStats(StatusTotal(payments, userId, Draft),
                           StatusTotal(payments, userId, Pending),
                           StatusTotal(payments, userId, Paid)))
    }

    /** For clients: the total of all PAID payments, with the other two figures 0. */
    function GetClientPaymentStats(user: Principal): (r: Result<PaymentStats, Failure>)
      reads this
      ensures r.Err? <==> !user.isClient
      ensures r.Err? ==> r.error == Forbidden
      ensures r.Ok? ==> r.value.draftPaymentsAmount == 0 && r.value.pendingPaymentsAmount == 0
    {
      if !user.isClient then Err(Forbidden)
      else Ok(PaymentStats(0, 0, PaidTotal(payments)))
    }

    /** What clients are told was earned is exactly what the payouts carry. */
    lemma ClientEarningsArePaidOut(user: Principal)
      requires Valid() && user.isClient
      ensures GetClientPaymentStats(user) == Ok(PaymentStats(0, 0, PayoutTotal(payouts)))
    {
      PaidTotalIsPayoutTotal(payments, accounts, payouts);
    }

    // ------------------------------------------------------------ the payment lifecycle

    method ApprovePayment(paymentId: int, user: Principal, now: Timestamp) returns (r: Result<Payment, Failure>)
      requires Valid()
      modifies this
      ensures Valid() && PaymentsEvolve(old(payments), payments)
      ensures accounts == old(accounts) && payouts == old(payouts)
      ensures !user.isClient ==> r == Err(Forbidden) && payments == old(payments)
      ensures user.isClient && !(1 <= paymentId <= |old(payments)|) ==> r == Err(NotFound) && payments == old(payments)
      ensures user.isClient && 1 <= paymentId <= |old(payments)| ==>
        var p := old(payments)[paymentId - 1];
        if p.status == Draft
        then r == Ok(Approved(p, now)) && payments == old(payments)[paymentId - 1 := Approved(p, now)]
        else r == Err(WrongState) && payments == old(payments)
    {
      if !user.isClient {
        return Err(Forbidden);
      }
      var k := RowOf(payments, paymentId);
      if k.None? {
        return Err(NotFound);
      }
      var p := payments[k.value];
      if p.status == Draft {
        p := Approved(p, now);
        EditOneKeepsConsistent(payments, accounts, payouts, k.value, p);
        payments := payments[k.value := p];
        return Ok(p);
      }
      return Err(WrongState);
    }

    method CancelPayment(paymentId: int, user: Principal, now: Timestamp) returns (r: Result<Payment, Failure>)
      requires Valid()
      modifies this
      ensures Valid() && PaymentsEvolve(old(payments), payments)
      ensures accounts == old(accounts) && payouts == old(payouts)
      ensures !user.isClient ==> r == Err(Forbidden) && payments == old(payments)
      ensures user.isClient && !(1 <= paymentId <= |old(payments)|) ==> r == Err(NotFound) && payments == old(payments)
      ensures user.isClient && 1 <= paymentId <= |old(payments)| ==>
        var p := old(payments)[paymentId - 1];
        if p.status == Draft || p.status == Pending
        then r == Ok(Cancelled(p, now)) && payments == old(payments)[paymentId - 1 := Cancelled(p, now)]
        else r == Err(WrongState) && payments == old(payments)
    {
      if !user.isClient {
        return Err(Forbidden);
      }
      var k := RowOf(payments, paymentId);
      if k.None? {
        return Err(NotFound);
      }
      var p := payments[k.value];
      if p.status == Draft || p.status == Pending {
        p := Cancelled(p, now);
        EditOneKeepsConsistent(payments, accounts, payouts, k.value, p);
        payments := payments[k.value := p];
        return Ok(p);
      }
      return Err(WrongState);
    }

    method CreatePayment(request: CreatePaymentRequest, user: Principal, now: Timestamp) returns (r: Result<Payment, Failure>)
      requires Valid()
      modifies this
      ensures Valid() && PaymentsEvolve(old(payments), payments)
      ensures accounts == old(accounts) && payouts == old(payouts)
      ensures !user.isClient && !user.isServiceAccount ==> r == Err(Forbidden) && payments == old(payments)
      ensures user.isClient || user.isServiceAccount ==>
        var p := NewPayment(|old(payments)| + 1, request, user, now);
        r == Ok(p) && payments == old(payments) + [p]
    {
      if !user.isClient && !user.isServiceAccount {
        return Err(Forbidden);
      }
      var p := NewPayment(|payments| + 1, request, user, now);
      NewDraftKeepsConsistent(payments, accounts, payouts, p);
      payments := payments + [p];
      return Ok(p);
    }

    method UpdatePayment(request: UpdatePaymentRequest, user: Principal, now: Timestamp) returns (r: Result<Payment, Failure>)
      requires Valid()
      modifies this
      ensures Valid() && PaymentsEvolve(old(payments), payments)
      ensures accounts == old(accounts) && payouts == old(payouts)
      ensures !user.isClient ==> r == Err(Forbidden) && payments == old(payments)
      ensures user.isClient && !(1 <= request.id <= |old(payments)|) ==> r == Err(NotFound) && payments == old(payments)
      ensures user.isClient && 1 <= request.id <= |old(payments)| ==>
        var p := old(payments)[request.id - 1];
        if p.status == Draft
        then r == Ok(Edited(p, request, user, now)) && payments == old(payments)[request.id - 1 := Edited(p, request, user, now)]
        else r == Err(WrongState) && payments == old(payments)
    {
      if !user.isClient {
        return Err(Forbidden);
      }
      var k := RowOf(payments, request.id);
      if k.None? {
        return Err(NotFound);
      }
      var p := payments[k.value];
      if p.status == Draft {
        p := Edited(p, request, user, now);
        EditOneKeepsConsistent(payments, accounts, payouts, k.value, p);
        payments := payments[k.value := p];
        return Ok(p);
      }
      return Err(WrongState);
    }

    /** Approves every DRAFT payment created more than three days before `now`. */
    method AutoApprovePayments(now: Timestamp)
      requires Valid()
      modifies this
      ensures Valid() && PaymentsEvolve(old(payments), payments)
      ensures accounts == old(accounts) && payouts == old(payouts)
      ensures payments == AutoApproved(old(payments), now - ApproveAfterDays * MillisPerDay, now)
    {
      var approved := AutoApproved(payments, now - ApproveAfterDays * MillisPerDay, now);
      OpenEditsKeepConsistent(payments, approved, accounts, payouts);
      payments := approved;
    }

    /**
     * The payout batch. First, for each candidate user in turn, one CREATED
     * payout of the user's released PENDING payments, which become PAID; a
     * candidate without a CONNECTED account is skipped. Then every CREATED
     * payout is transferred: `transferIds` maps the id of each payout whose
     * transfer succeeded to the transfer's id.
     */
    method TransferPendingPayments(now: Timestamp, candidates: seq<string>, transferIds: map<nat, string>)
      requires Valid() && IsCandidateList(payments, candidates)
      modifies this
      ensures Valid() && PaymentsEvolve(old(payments), payments)
      ensures accounts == old(accounts)
      ensures var r := ClaimAll(old(payments), old(accounts), old(payouts), candidates, now);
        payments == r.0 && payouts == Settle(r.1, transferIds)
    {
      ClaimPayouts(now, candidates);
      SettlePayouts(transferIds);
    }

    /** The batch's first loop, over the candidate users. */
    method ClaimPayouts(now: Timestamp, candidates: seq<string>)
      requires Valid()
      modifies this
      ensures Valid() && PaymentsEvolve(old(payments), payments)
      ensures accounts == old(accounts)
      ensures (payments, payouts) == ClaimAll(old(payments), old(accounts), old(payouts), candidates, now)
    {
      ghost var goal := ClaimAll(payments, accounts, payouts, candidates, now);
      ClaimAllKeepsConsistent(payments, accounts, payouts, candidates, now);
      var i := 0;
      while i < |candidates|
        invariant 0 <= i <= |candidates|
        invariant accounts == old(accounts)
        invariant ClaimAll(payments, accounts, payouts, candidates[i..], now) == goal
      {
        var u := candidates[i];
        assert candidates[i..][0] == u && candidates[i..][1..] == candidates[i + 1..];
        var k := Find(accounts, ConnectedAccountOf(u));
        if k.Some? {
          var selected := Filter(payments, ReleasedPendingOf(u, now));
          var payout := Payout(|payouts| + 1, accounts[k.value].id, Some(now), SumAmounts(selected), PayoutCreated, None);
          payouts := payouts + [payout];
          payments := MarkPaid(payments, IdsOf(selected), payout.id);
        }
        i := i + 1;
      }
      assert candidates[i..] == [];
    }

    /** The batch's second loop: a transfer for each CREATED payout, each attempt independent of the others. */
    method SettlePayouts(transferIds: map<nat, string>)
      requires Valid()
      modifies this
      ensures Valid()
      ensures payments == old(payments) && accounts == old(accounts)
      ensures payouts == Settle(old(payouts), transferIds)
    {
      var table := payouts;
      var created := Filter(table, Unsettled);
      var j := 0;
      while j < |created|
        invariant j <= |created|
        invariant SettledUpTo(payouts, created, j, transferIds, table)
        modifies {}
      {
        var o := created[j];
        SettleAdvance(payouts, created, j, transferIds, table);
        if o.id in transferIds {
          table := table[o.id - 1 := o.(status := PayoutPaid, transferId := Some(transferIds[o.id]))];
        }
        j := j + 1;
      }
      SettledAll(payouts, created, transferIds, table);
      payouts := table;
      SettleKeepsConsistent(payments, accounts, old(payouts), transferIds);
    }
  }
}
