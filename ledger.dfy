/**
 * The bookkeeping behind the payment service, over table values: sums of
 * payment amounts, the invariant that ties payments, accounts and payouts
 * together, the one-way payment lifecycle, and the payout batch
 * (`transferPendingPayments`) as functions of the tables it reads.
 */
module Ledger {
  import opened Wrappers
  import opened Query
  import opened Entities

  // ---------------------------------------------------------------- sums

  /** The sum of the rows' amounts; 0 for no rows (the service's `SUM(...) || 0` and its `reduce` from 0). */
  function SumAmounts(ps: seq<Payment>): int
  {
    if ps == [] then 0 else ps[0].amount + SumAmounts(ps[1..])
  }

  function OfUserWithStatus(u: string, st: PaymentStatus): Payment -> bool
  {
    (p: Payment) => p.userId == u && p.status == st
  }

  function WithStatus(st: PaymentStatus): Payment -> bool
  {
    (p: Payment) => p.status == st
  }

  function ClaimedBy(payoutId: nat): Payment -> bool
  {
    (p: Payment) => p.payout == Some(payoutId)
  }

  /** PENDING payments of `u` whose release date has passed at `now`; a missing release date never matches. */
  function ReleasedPendingOf(u: string, now: Timestamp): Payment -> bool
  {
    (p: Payment) => p.userId == u && p.status == Pending && p.releasedAt.Some? && p.releasedAt.value <= now
  }

  function StatusTotal(ps: seq<Payment>, u: string, st: PaymentStatus): int
  {
    SumAmounts(Filter(ps, OfUserWithStatus(u, st)))
  }

  function PaidTotal(ps: seq<Payment>): int
  {
    SumAmounts(Filter(ps, WithStatus(Paid)))
  }

  function ClaimedTotal(ps: seq<Payment>, payoutId: nat): int
  {
    SumAmounts(Filter(ps, ClaimedBy(payoutId)))
  }

  function PayoutTotal(os: seq<Payout>): int
  {
    if os == [] then 0 else os[0].amount + PayoutTotal(os[1..])
  }

  /** Two tables whose rows agree, position by position, on whether they count and, if so, on their amount have the same total. */
  lemma {:induction false} FilteredSumFrame(ps: seq<Payment>, qs: seq<Payment>, f: Payment -> bool, g: Payment -> bool)
    requires |ps| == |qs|
    requires forall i :: 0 <= i < |ps| ==> f(ps[i]) == g(qs[i])
    requires forall i :: 0 <= i < |ps| && f(ps[i]) ==> ps[i].amount == qs[i].amount
    ensures SumAmounts(Filter(ps, f)) == SumAmounts(Filter(qs, g))
  {
    if ps != [] {
      FilteredSumFrame(ps[1..], qs[1..], f, g);
      FilteredSumCons(ps, f);
      FilteredSumCons(qs, g);
    }
  }

  lemma FilteredSumCons(ps: seq<Payment>, f: Payment -> bool)
    requires ps != []
    ensures SumAmounts(Filter(ps, f)) == (if f(ps[0]) then ps[0].amount else 0) + SumAmounts(Filter(ps[1..], f))
  {
    SumAppend(if f(ps[0]) then [ps[0]] else [], Filter(ps[1..], f));
  }

  lemma {:induction false} SumAppend(a: seq<Payment>, b: seq<Payment>)
    ensures SumAmounts(a + b) == SumAmounts(a) + SumAmounts(b)
  {
    if a == [] {
      assert a + b == b;
    } else {
      assert (a + b)[1..] == a[1..] + b;
      SumAppend(a[1..], b);
    }
  }

  /** Replacing one row changes a filtered total by what the old row contributed and the new row contributes. */
  lemma {:induction false} FilteredSumUpdate(ps: seq<Payment>, k: nat, q: Payment, f: Payment -> bool)
    requires k < |ps|
    ensures SumAmounts(Filter(ps[k := q], f))
         == SumAmounts(Filter(ps, f)) - (if f(ps[k]) then ps[k].amount else 0) + (if f(q) then q.amount else 0)
  {
    var qs := ps[k := q];
    FilteredSumCons(ps, f);
    FilteredSumCons(qs, f);
    if k > 0 {
      assert qs[1..] == ps[1..][k - 1 := q];
      FilteredSumUpdate(ps[1..], k - 1, q, f);
    } else {
      assert qs[1..] == ps[1..];
    }
  }

  /** Appending a row adds its amount to exactly the totals it counts in. */
  lemma {:induction false} FilteredSumAppend(ps: seq<Payment>, p: Payment, f: Payment -> bool)
    ensures SumAmounts(Filter(ps + [p], f)) == SumAmounts(Filter(ps, f)) + (if f(p) then p.amount else 0)
  {
    FilterAppend(ps, [p], f);
    SumAppend(Filter(ps, f), Filter([p], f));
    assert Filter([p], f) == (if f(p) then [p] else []) + Filter([p][1..], f);
    assert [p][1..] == [];
  }

  /** A total over rows matching either of two disjoint conditions is the sum of the two totals. */
  lemma {:induction false} FilteredSumSplit(ps: seq<Payment>, f: Payment -> bool, g: Payment -> bool, h: Payment -> bool)
    requires forall i :: 0 <= i < |ps| ==> f(ps[i]) == (g(ps[i]) || h(ps[i]))
    requires forall i :: 0 <= i < |ps| ==> !(g(ps[i]) && h(ps[i]))
    ensures SumAmounts(Filter(ps, f)) == SumAmounts(Filter(ps, g)) + SumAmounts(Filter(ps, h))
  {
    if ps != [] {
      FilteredSumSplit(ps[1..], f, g, h);
      FilteredSumCons(ps, f);
      FilteredSumCons(ps, g);
      FilteredSumCons(ps, h);
    }
  }

  /** Moving one payment of `u` from one status to another moves its amount between the two per-status totals of `u` and leaves the others alone. */
  lemma StatusChangeShiftsTotals(ps: seq<Payment>, k: nat, q: Payment, st: PaymentStatus)
    requires k < |ps|
    requires q.userId == ps[k].userId && q.amount == ps[k].amount && q.status != ps[k].status
    ensures StatusTotal(ps[k := q], q.userId, ps[k].status) == StatusTotal(ps, q.userId, ps[k].status) - q.amount
    ensures StatusTotal(ps[k := q], q.userId, q.status) == StatusTotal(ps, q.userId, q.status) + q.amount
    ensures st != ps[k].status && st != q.status ==> StatusTotal(ps[k := q], q.userId, st) == StatusTotal(ps, q.userId, st)
  {
    FilteredSumUpdate(ps, k, q, OfUserWithStatus(q.userId, ps[k].status));
    FilteredSumUpdate(ps, k, q, OfUserWithStatus(q.userId, q.status));
    FilteredSumUpdate(ps, k, q, OfUserWithStatus(q.userId, st));
  }

  // ---------------------------------------------------------------- the invariant

  ghost predicate PaymentRowsNumbered(ps: seq<Payment>)
  {
    forall i :: 0 <= i < |ps| ==> ps[i].id == i + 1
  }

  ghost predicate AccountRowsNumbered(accounts: seq<PaymentAccount>)
  {
    forall i :: 0 <= i < |accounts| ==> accounts[i].id == i + 1
  }

  ghost predicate PayoutRowsNumbered(os: seq<Payout>)
  {
    forall i :: 0 <= i < |os| ==> os[i].id == i + 1
  }

  ghost predicate OneAccountPerUser(accounts: seq<PaymentAccount>)
  {
    forall i, j :: 0 <= i < j < |accounts| ==> accounts[i].userId != accounts[j].userId
  }

  /** An account carries a connection time exactly when it is CONNECTED. */
  ghost predicate ConnectedStamped(accounts: seq<PaymentAccount>)
  {
    forall i :: 0 <= i < |accounts| ==>
      (accounts[i].accountStatus == AccountConnected <==> accounts[i].connectedAt.Some?)
  }

  /** A payment references a payout exactly when it is PAID, and then one of the `payoutCount` payouts. */
  ghost predicate ClaimedIffPaid(ps: seq<Payment>, payoutCount: nat)
  {
    forall i :: 0 <= i < |ps| ==>
      (ps[i].payout.Some? <==> ps[i].status == Paid)
      && (ps[i].payout.Some? ==> 1 <= ps[i].payout.value <= payoutCount)
  }

  /** Every payout goes to an existing CONNECTED account. */
  ghost predicate PayoutsToConnected(accounts: seq<PaymentAccount>, os: seq<Payout>)
  {
    forall j :: 0 <= j < |os| ==>
      1 <= os[j].paymentAccount <= |accounts|
      && accounts[os[j].paymentAccount - 1].accountStatus == AccountConnected
  }

  /** A payout's amount is the sum of the payments that reference it. */
  ghost predicate PayoutsMatchClaims(ps: seq<Payment>, os: seq<Payout>)
  {
    forall j :: 0 <= j < |os| ==> os[j].amount == ClaimedTotal(ps, os[j].id)
  }

  ghost predicate Consistent(ps: seq<Payment>, accounts: seq<PaymentAccount>, os: seq<Payout>)
  {
    && PaymentRowsNumbered(ps)
    && AccountRowsNumbered(accounts)
    && PayoutRowsNumbered(os)
    && OneAccountPerUser(accounts)
    && ConnectedStamped(accounts)
    && ClaimedIffPaid(ps, |os|)
    && PayoutsToConnected(accounts, os)
    && PayoutsMatchClaims(ps, os)
  }

  // ---------------------------------------------------------------- the lifecycle

  /**
   * The payment lifecycle: DRAFT -> PENDING -> PAID, and DRAFT or PENDING -> CANCELED,
   * closed under taking several steps. Nothing leads back to DRAFT and nothing leaves PAID or CANCELED.
   */
  predicate StatusReachable(from: PaymentStatus, to: PaymentStatus)
  {
    || from == to
    || (from == Draft && to != Draft)
    || (from == Pending && (to == Paid || to == Canceled))
  }

  /**
   * `after` is `before` changed only along the lifecycle: rows keep their id
   * and move forward, and PAID and CANCELED rows stay exactly as they were.
   * Rows past the end of `before` are new.
   */
  ghost predicate PaymentsEvolve(before: seq<Payment>, after: seq<Payment>)
  {
    && |before| <= |after|
    && (forall i :: 0 <= i < |before| ==>
          after[i].id == before[i].id && StatusReachable(before[i].status, after[i].status))
    && (forall i :: 0 <= i < |before| && (before[i].status == Paid || before[i].status == Canceled) ==>
          after[i] == before[i])
  }

  /** No sequence of lifecycle steps moves a payment into DRAFT, or out of PAID or CANCELED. */
  lemma LifecycleIsOneWay(from: PaymentStatus, to: PaymentStatus)
    requires StatusReachable(from, to)
    ensures to == Draft ==> from == Draft
    ensures from == Paid || from == Canceled ==> to == from
  {
  }

  lemma {:induction false} EvolveTransitive(a: seq<Payment>, b: seq<Payment>, c: seq<Payment>)
    requires PaymentsEvolve(a, b) && PaymentsEvolve(b, c)
    ensures PaymentsEvolve(a, c)
  {
  }

  /** Edits that touch only unpaid rows and leave them unpaid keep the invariant. */
  ghost predicate OpenEdit(p: Payment, q: Payment)
  {
    p.status != Paid && q.status != Paid && q.id == p.id && q.payout.None?
  }

  lemma OpenEditsKeepConsistent(ps: seq<Payment>, qs: seq<Payment>, accounts: seq<PaymentAccount>, os: seq<Payout>)
    requires Consistent(ps, accounts, os)
    requires |qs| == |ps|
    requires forall i :: 0 <= i < |ps| ==> qs[i] == ps[i] || OpenEdit(ps[i], qs[i])
    ensures Consistent(qs, accounts, os)
  {
    forall j | 0 <= j < |os|
      ensures os[j].amount == ClaimedTotal(qs, os[j].id)
    {
      FilteredSumFrame(ps, qs, ClaimedBy(os[j].id), ClaimedBy(os[j].id));
    }
  }

  /** Appending a fresh DRAFT payment keeps the invariant. */
  lemma NewDraftKeepsConsistent(ps: seq<Payment>, accounts: seq<PaymentAccount>, os: seq<Payout>, p: Payment)
    requires Consistent(ps, accounts, os)
    requires p.id == |ps| + 1 && p.status == Draft && p.payout.None?
    ensures Consistent(ps + [p], accounts, os)
  {
    forall j | 0 <= j < |os|
      ensures os[j].amount == ClaimedTotal(ps + [p], os[j].id)
    {
      FilteredSumAppend(ps, p, ClaimedBy(os[j].id));
    }
  }

  /** Replacing one unpaid, uncanceled row by a forward step of it keeps the invariant and follows the lifecycle. */
  lemma EditOneKeepsConsistent(ps: seq<Payment>, accounts: seq<PaymentAccount>, os: seq<Payout>, k: nat, q: Payment)
    requires Consistent(ps, accounts, os)
    requires k < |ps| && ps[k].status != Paid && ps[k].status != Canceled
    requires q.id == ps[k].id && q.status != Paid && q.payout == ps[k].payout
    requires StatusReachable(ps[k].status, q.status)
    ensures Consistent(ps[k := q], accounts, os) && PaymentsEvolve(ps, ps[k := q])
  {
    OpenEditsKeepConsistent(ps, ps[k := q], accounts, os);
  }

  /**
   * How the accounts table may change: rows are only appended, keep their
   * identity, owner and gateway id, and a CONNECTED row never changes again.
   */
  ghost predicate AccountsEvolve(before: seq<PaymentAccount>, after: seq<PaymentAccount>)
  {
    && |before| <= |after|
    && (forall i :: 0 <= i < |before| ==>
          after[i].id == before[i].id && after[i].userId == before[i].userId
          && after[i].accountId == before[i].accountId)
    && (forall i :: 0 <= i < |before| && before[i].accountStatus == AccountConnected ==> after[i] == before[i])
  }

  function HeldBy(u: string): PaymentAccount -> bool
  {
    (a: PaymentAccount) => a.userId == u
  }

  /** Connecting a CREATED account keeps the invariant. */
  lemma ConnectKeepsConsistent(ps: seq<Payment>, accounts: seq<PaymentAccount>, os: seq<Payout>, k: nat, a: PaymentAccount)
    requires Consistent(ps, accounts, os)
    requires k < |accounts| && accounts[k].accountStatus == AccountCreated
    requires a == accounts[k].(accountStatus := AccountConnected, connectedAt := a.connectedAt) && a.connectedAt.Some?
    ensures Consistent(ps, accounts[k := a], os) && AccountsEvolve(accounts, accounts[k := a])
  {
  }

  /** Adding a CREATED account for a user who has none keeps the invariant. */
  lemma NewAccountKeepsConsistent(ps: seq<Payment>, accounts: seq<PaymentAccount>, os: seq<Payout>, a: PaymentAccount)
    requires Consistent(ps, accounts, os)
    requires Find(accounts, HeldBy(a.userId)).None?
    requires a.id == |accounts| + 1 && a.accountStatus == AccountCreated && a.connectedAt.None?
    ensures Consistent(ps, accounts + [a], os) && AccountsEvolve(accounts, accounts + [a])
  {
    var accs := accounts + [a];
    assert forall x :: 0 <= x < |accounts| ==> accs[x] == accounts[x];
    assert accs[|accounts|] == a;
    assert OneAccountPerUser(accs) by {
      forall i, j | 0 <= i < j < |accs| ensures accs[i].userId != accs[j].userId {
        if j == |accounts| {
          assert !HeldBy(a.userId)(accounts[i]);
        }
      }
    }
    assert AccountRowsNumbered(accs) && ConnectedStamped(accs);
    assert PayoutsToConnected(accs, os);
  }

  /** A user's total in a status is zero when the user has no payment in it. */
  lemma NoRowsNoTotal(ps: seq<Payment>, u: string, st: PaymentStatus)
    requires forall i :: 0 <= i < |ps| ==> ps[i].userId != u || ps[i].status != st
    ensures StatusTotal(ps, u, st) == 0
  {
    FilterNone(ps, OfUserWithStatus(u, st));
  }

  // ---------------------------------------------------------------- the payout batch

  function IdsOf(rows: seq<Payment>): set<nat>
  {
    set p | p in rows :: p.id
  }

  /** The bulk update `SET status = PAID, payout = ... WHERE id IN ids`; it sets neither `paidAt` nor re-checks the status. */
  function MarkPaid(ps: seq<Payment>, ids: set<nat>, payoutId: nat): (r: seq<Payment>)
    ensures |r| == |ps|
    ensures forall i :: 0 <= i < |ps| ==>
      r[i] == if ps[i].id in ids then ps[i].(status := Paid, payout := Some(payoutId)) else ps[i]
  {
    seq(|ps|, i requires 0 <= i < |ps| =>
      if ps[i].id in ids then ps[i].(status := Paid, payout := Some(payoutId)) else ps[i])
  }

  function ConnectedAccountOf(u: string): PaymentAccount -> bool
  {
    (a: PaymentAccount) => a.userId == u && a.accountStatus == AccountConnected
  }

  /**
   * One user's turn in the batch: select the released PENDING payments of `u`,
   * create a CREATED payout of their total for `account`, and mark the
   * selected payments PAID and owned by it.
   */
  function Claim(ps: seq<Payment>, os: seq<Payout>, account: PaymentAccount, u: string, now: Timestamp)
    : (r: (seq<Payment>, seq<Payout>))
    ensures |r.0| == |ps| && |r.1| == |os| + 1 && r.1[..|os|] == os
    ensures r.1[|os|].id == |os| + 1 && r.1[|os|].paymentAccount == account.id && r.1[|os|].status == PayoutCreated
  {
    var selected := Filter(ps, ReleasedPendingOf(u, now));
    var payout := Payout(|os| + 1, account.id, Some(now), SumAmounts(selected), PayoutCreated, None);
    (MarkPaid(ps, IdsOf(selected), payout.id), os + [payout])
  }

  /**
   * The first loop of the batch over the candidate users, with a candidate
   * who has no CONNECTED account skipped.
   */
  function ClaimAll(ps: seq<Payment>, accounts: seq<PaymentAccount>, os: seq<Payout>, candidates: seq<string>, now: Timestamp)
    : (r: (seq<Payment>, seq<Payout>))
    ensures |r.0| == |ps| && |os| <= |r.1| <= |os| + |candidates|
    decreases |candidates|
  {
    if candidates == [] then (ps, os)
    else match Find(accounts, ConnectedAccountOf(candidates[0]))
      case None => ClaimAll(ps, accounts, os, candidates[1..], now)
      case Some(k) =>
        var (ps', os') := Claim(ps, os, accounts[k], candidates[0], now);
        ClaimAll(ps', accounts, os', candidates[1..], now)
  }

  /** A payout still waiting for its transfer. */
  predicate Unsettled(o: Payout)
  {
    o.status == PayoutCreated
  }

  /** One payout's turn in the transfer loop: only its status and transfer id can change. */
  function SettleOne(o: Payout, transferIds: map<nat, string>): (r: Payout)
    ensures r.id == o.id && r.paymentAccount == o.paymentAccount && r.amount == o.amount && r.createdAt == o.createdAt
    ensures r.status == PayoutPaid <==> o.status == PayoutPaid || (o.status == PayoutCreated && o.id in transferIds)
    ensures r.transferId == if o.status == PayoutCreated && o.id in transferIds then Some(transferIds[o.id]) else o.transferId
  {
    if o.status == PayoutCreated && o.id in transferIds
    then o.(status := PayoutPaid, transferId := Some(transferIds[o.id]))
    else o
  }

  /** The second loop: each CREATED payout the gateway transferred becomes PAID with the transfer's id. */
  function Settle(os: seq<Payout>, transferIds: map<nat, string>): (r: seq<Payout>)
    ensures |r| == |os|
    ensures forall j :: 0 <= j < |os| ==> r[j] == SettleOne(os[j], transferIds)
  {
    seq(|os|, j requires 0 <= j < |os| => SettleOne(os[j], transferIds))
  }

  /** With numbered rows, a row is among those the batch updates by id exactly when it was selected. */
  lemma SelectedIds(ps: seq<Payment>, f: Payment -> bool)
    requires PaymentRowsNumbered(ps)
    ensures forall i :: 0 <= i < |ps| ==> (ps[i].id in IdsOf(Filter(ps, f)) <==> f(ps[i]))
  {
    var sel := Filter(ps, f);
    FilterMembers(ps, f);
    forall i | 0 <= i < |ps|
      ensures ps[i].id in IdsOf(sel) <==> f(ps[i])
    {
      if f(ps[i]) {
        assert ps[i] in sel;
      }
      if ps[i].id in IdsOf(sel) {
        var p :| p in sel && p.id == ps[i].id;
        var m :| 0 <= m < |sel| && sel[m] == p;
        assert p in ps && f(p);
        var j :| 0 <= j < |ps| && ps[j] == p;
        assert j == i;
      }
    }
  }

  /**
   * The rows the bulk update marks PAID are exactly the released PENDING
   * payments of `u` selected before it, every other row is untouched, and the
   * new payout's amount is their total.
   */
  lemma ClaimEffect(ps: seq<Payment>, os: seq<Payout>, account: PaymentAccount, u: string, now: Timestamp)
    requires PaymentRowsNumbered(ps)
    ensures var (ps', os') := Claim(ps, os, account, u, now);
      && |ps'| == |ps|
      && (forall i :: 0 <= i < |ps| ==>
            ps'[i] == if ReleasedPendingOf(u, now)(ps[i])
                      then ps[i].(status := Paid, payout := Some(|os| + 1))
                      else ps[i])
      && os' == os + [Payout(|os| + 1, account.id, Some(now),
                             SumAmounts(Filter(ps, ReleasedPendingOf(u, now))), PayoutCreated, None)]
  {
    SelectedIds(ps, ReleasedPendingOf(u, now));
  }

  /** What the invariant needs of one user's turn, given its effect row by row. */
  lemma ClaimedRowsKeepShape(ps: seq<Payment>, accounts: seq<PaymentAccount>, os: seq<Payout>,
                             ps': seq<Payment>, os': seq<Payout>, k: nat, released: Payment -> bool)
    requires Consistent(ps, accounts, os)
    requires k < |accounts| && accounts[k].accountStatus == AccountConnected
    requires |ps'| == |ps|
    requires forall i :: 0 <= i < |ps| ==>
      ps'[i] == if released(ps[i]) then ps[i].(status := Paid, payout := Some(|os| + 1)) else ps[i]
    requires forall i :: 0 <= i < |ps| && released(ps[i]) ==> ps[i].status == Pending
    requires |os'| == |os| + 1 && os'[..|os|] == os
    requires os'[|os|].id == |os| + 1 && os'[|os|].paymentAccount == accounts[k].id
    ensures PaymentRowsNumbered(ps') && PayoutRowsNumbered(os')
    ensures ClaimedIffPaid(ps', |os'|) && PayoutsToConnected(accounts, os')
    ensures PaymentsEvolve(ps, ps')
  {
    forall j | 0 <= j < |os'|
      ensures os'[j].id == j + 1
    {
      if j < |os| { assert os'[j] == os[j]; }
    }
    forall j | 0 <= j < |os'|
      ensures 1 <= os'[j].paymentAccount <= |accounts|
      ensures accounts[os'[j].paymentAccount - 1].accountStatus == AccountConnected
    {
      if j < |os| { assert os'[j] == os[j]; }
    }
  }

  /** An earlier payout still claims the same payments, since the newly claimed ones had no payout. */
  lemma EarlierPayoutKeepsTotal(ps: seq<Payment>, ps': seq<Payment>, n: nat, pid: nat, released: Payment -> bool)
    requires |ps'| == |ps| && pid != n
    requires forall i :: 0 <= i < |ps| ==>
      ps'[i] == if released(ps[i]) then ps[i].(status := Paid, payout := Some(n)) else ps[i]
    requires forall i :: 0 <= i < |ps| && released(ps[i]) ==> ps[i].payout.None?
    ensures ClaimedTotal(ps', pid) == ClaimedTotal(ps, pid)
  {
    forall i | 0 <= i < |ps|
      ensures ClaimedBy(pid)(ps[i]) == ClaimedBy(pid)(ps'[i])
    {
    }
    FilteredSumFrame(ps, ps', ClaimedBy(pid), ClaimedBy(pid));
  }

  /** The new payout claims exactly the selected payments. */
  lemma NewPayoutClaimsSelected(ps: seq<Payment>, ps': seq<Payment>, n: nat, released: Payment -> bool)
    requires |ps'| == |ps|
    requires forall i :: 0 <= i < |ps| ==>
      ps'[i] == if released(ps[i]) then ps[i].(status := Paid, payout := Some(n)) else ps[i]
    requires forall i :: 0 <= i < |ps| && ps[i].payout.Some? ==> ps[i].payout.value < n
    ensures ClaimedTotal(ps', n) == SumAmounts(Filter(ps, released))
  {
    forall i | 0 <= i < |ps|
      ensures released(ps[i]) == ClaimedBy(n)(ps'[i])
    {
    }
    FilteredSumFrame(ps, ps', released, ClaimedBy(n));
  }

  lemma EarlierPayoutsKeepTotals(ps: seq<Payment>, os: seq<Payout>, ps': seq<Payment>, n: nat, released: Payment -> bool)
    requires PayoutsMatchClaims(ps, os) && PayoutRowsNumbered(os) && |os| < n
    requires |ps'| == |ps|
    requires forall i :: 0 <= i < |ps| ==>
      ps'[i] == if released(ps[i]) then ps[i].(status := Paid, payout := Some(n)) else ps[i]
    requires forall i :: 0 <= i < |ps| && released(ps[i]) ==> ps[i].payout.None?
    ensures PayoutsMatchClaims(ps', os)
  {
    forall j | 0 <= j < |os|
      ensures os[j].amount == ClaimedTotal(ps', os[j].id)
    {
      EarlierPayoutKeepsTotal(ps, ps', n, os[j].id, released);
    }
  }

  lemma AppendedPayoutMatches(ps: seq<Payment>, os: seq<Payout>, o: Payout)
    requires PayoutsMatchClaims(ps, os) && o.amount == ClaimedTotal(ps, o.id)
    ensures PayoutsMatchClaims(ps, os + [o])
  {
    forall j | 0 <= j < |os + [o]|
      ensures (os + [o])[j].amount == ClaimedTotal(ps, (os + [o])[j].id)
    {
      if j < |os| { assert (os + [o])[j] == os[j]; }
    }
  }

  /** Before a turn, no selected (PENDING) payment references a payout, and every reference is to an existing payout. */
  lemma ClaimsBelow(ps: seq<Payment>, payoutCount: nat, released: Payment -> bool)
    requires ClaimedIffPaid(ps, payoutCount)
    requires forall i :: 0 <= i < |ps| && released(ps[i]) ==> ps[i].status == Pending
    ensures forall i :: 0 <= i < |ps| && released(ps[i]) ==> ps[i].payout.None?
    ensures forall i :: 0 <= i < |ps| && ps[i].payout.Some? ==> ps[i].payout.value < payoutCount + 1
  {
  }

  /** The new payout's amount is what it claims, and older payouts keep theirs. */
  lemma ClaimedRowsKeepTotals(ps: seq<Payment>, os: seq<Payout>, ps': seq<Payment>, o: Payout,
                              released: Payment -> bool)
    requires PayoutsMatchClaims(ps, os) && ClaimedIffPaid(ps, |os|) && PayoutRowsNumbered(os)
    requires |ps'| == |ps|
    requires forall i :: 0 <= i < |ps| ==>
      ps'[i] == if released(ps[i]) then ps[i].(status := Paid, payout := Some(|os| + 1)) else ps[i]
    requires forall i :: 0 <= i < |ps| && released(ps[i]) ==> ps[i].status == Pending
    requires o.id == |os| + 1 && o.amount == SumAmounts(Filter(ps, released))
    ensures PayoutsMatchClaims(ps', os + [o])
  {
    var n := |os| + 1;
    ClaimsBelow(ps, |os|, released);
    NewPayoutClaimsSelected(ps, ps', n, released);
    EarlierPayoutsKeepTotals(ps, os, ps', n, released);
    AppendedPayoutMatches(ps', os, o);
  }

  /** One user's turn keeps the invariant and moves payments only along the lifecycle. */
  lemma ClaimKeepsConsistent(ps: seq<Payment>, accounts: seq<PaymentAccount>, os: seq<Payout>, k: nat, u: string, now: Timestamp)
    requires Consistent(ps, accounts, os)
    requires k < |accounts| && accounts[k].accountStatus == AccountConnected
    ensures Consistent(Claim(ps, os, accounts[k], u, now).0, accounts, Claim(ps, os, accounts[k], u, now).1)
    ensures PaymentsEvolve(ps, Claim(ps, os, accounts[k], u, now).0)
  {
    var released := ReleasedPendingOf(u, now);
    var c := Claim(ps, os, accounts[k], u, now);
    ClaimEffect(ps, os, accounts[k], u, now);
    assert c.1[..|os|] == os;
    ClaimedRowsKeepShape(ps, accounts, os, c.0, c.1, k, released);
    ClaimedRowsKeepTotals(ps, os, c.0, c.1[|os|], released);
  }

  lemma {:induction false} ClaimAllKeepsConsistent(ps: seq<Payment>, accounts: seq<PaymentAccount>, os: seq<Payout>, candidates: seq<string>, now: Timestamp)
    requires Consistent(ps, accounts, os)
    ensures var r := ClaimAll(ps, accounts, os, candidates, now);
      Consistent(r.0, accounts, r.1) && PaymentsEvolve(ps, r.0)
    decreases |candidates|
  {
    if candidates != [] {
      match Find(accounts, ConnectedAccountOf(candidates[0]))
      case None =>
        ClaimAllKeepsConsistent(ps, accounts, os, candidates[1..], now);
      case Some(k) =>
        var (ps', os') := Claim(ps, os, accounts[k], candidates[0], now);
        ClaimKeepsConsistent(ps, accounts, os, k, candidates[0], now);
        ClaimAllKeepsConsistent(ps', accounts, os', candidates[1..], now);
        EvolveTransitive(ps, ps', ClaimAll(ps', accounts, os', candidates[1..], now).0);
    }
  }

  /**
   * Every released PENDING payment of a candidate who has a CONNECTED account
   * ends up PAID, whatever the other candidates are.
   */
  lemma {:induction false} ClaimAllPaysConnected(ps: seq<Payment>, accounts: seq<PaymentAccount>, os: seq<Payout>,
                                                 candidates: seq<string>, now: Timestamp, i: nat)
    requires Consistent(ps, accounts, os)
    requires i < |ps| && ps[i].userId in candidates
    requires Find(accounts, ConnectedAccountOf(ps[i].userId)).Some?
    requires ReleasedPendingOf(ps[i].userId, now)(ps[i])
    ensures ClaimAll(ps, accounts, os, candidates, now).0[i].status == Paid
    decreases |candidates|
  {
    var u, c := ps[i].userId, candidates[0];
    match Find(accounts, ConnectedAccountOf(c))
    case None =>
      assert c != u;
      assert u in candidates[1..];
      ClaimAllPaysConnected(ps, accounts, os, candidates[1..], now, i);
    case Some(k) =>
      var (ps', os') := Claim(ps, os, accounts[k], c, now);
      ClaimEffect(ps, os, accounts[k], c, now);
      ClaimKeepsConsistent(ps, accounts, os, k, c, now);
      if c == u {
        ClaimAllKeepsConsistent(ps', accounts, os', candidates[1..], now);
      } else {
        assert ps'[i] == ps[i];
        assert u in candidates[1..];
        ClaimAllPaysConnected(ps', accounts, os', candidates[1..], now, i);
      }
  }

  /** A turn in which nothing is released still creates a payout, of amount 0, and changes no payment. */
  lemma ClaimWithNothingReleased(ps: seq<Payment>, os: seq<Payout>, account: PaymentAccount, u: string, now: Timestamp)
    requires forall i :: 0 <= i < |ps| ==> !ReleasedPendingOf(u, now)(ps[i])
    ensures Claim(ps, os, account, u, now) == (ps, os + [Payout(|os| + 1, account.id, Some(now), 0, PayoutCreated, None)])
  {
    FilterNone(ps, ReleasedPendingOf(u, now));
    assert IdsOf([]) == {};
    assert MarkPaid(ps, {}, |os| + 1) == ps;
  }

  /** A payment without a release date is never claimed by the batch, whoever the candidates are. */
  lemma {:induction false} UnreleasedStayPut(ps: seq<Payment>, accounts: seq<PaymentAccount>, os: seq<Payout>,
                                             candidates: seq<string>, now: Timestamp, i: nat)
    requires Consistent(ps, accounts, os)
    requires i < |ps| && ps[i].releasedAt.None?
    ensures ClaimAll(ps, accounts, os, candidates, now).0[i] == ps[i]
    decreases |candidates|
  {
    if candidates != [] {
      match Find(accounts, ConnectedAccountOf(candidates[0]))
      case None =>
        UnreleasedStayPut(ps, accounts, os, candidates[1..], now, i);
      case Some(k) =>
        var (ps', os') := Claim(ps, os, accounts[k], candidates[0], now);
        ClaimEffect(ps, os, accounts[k], candidates[0], now);
        ClaimKeepsConsistent(ps, accounts, os, k, candidates[0], now);
        UnreleasedStayPut(ps', accounts, os', candidates[1..], now, i);
    }
  }

  /**
   * The batch's only change to a payment row: a released PENDING payment of a
   * candidate with a CONNECTED account becomes PAID and points at a payout;
   * every other row, the payments of a skipped candidate among them, is left alone.
   */
  lemma {:induction false} ClaimAllOnlyPaysReleased(ps: seq<Payment>, accounts: seq<PaymentAccount>, os: seq<Payout>,
                                                    candidates: seq<string>, now: Timestamp, i: nat)
    requires Consistent(ps, accounts, os)
    requires i < |ps|
    ensures var q := ClaimAll(ps, accounts, os, candidates, now).0[i];
      || q == ps[i]
      || (&& ReleasedPendingOf(ps[i].userId, now)(ps[i])
          && ps[i].userId in candidates
          && Find(accounts, ConnectedAccountOf(ps[i].userId)).Some?
          && q.payout.Some?
          && q == ps[i].(status := Paid, payout := q.payout))
    decreases |candidates|
  {
    if candidates != [] {
      var c := candidates[0];
      assert forall u :: u in candidates[1..] ==> u in candidates;
      match Find(accounts, ConnectedAccountOf(c))
      case None =>
        ClaimAllOnlyPaysReleased(ps, accounts, os, candidates[1..], now, i);
      case Some(k) =>
        var (ps', os') := Claim(ps, os, accounts[k], c, now);
        ClaimEffect(ps, os, accounts[k], c, now);
        ClaimKeepsConsistent(ps, accounts, os, k, c, now);
        ClaimAllOnlyPaysReleased(ps', accounts, os', candidates[1..], now, i);
    }
  }

  /** A payment of a user without a CONNECTED account is never touched: the batch skips that user. */
  lemma SkippedCandidateUntouched(ps: seq<Payment>, accounts: seq<PaymentAccount>, os: seq<Payout>,
                                  candidates: seq<string>, now: Timestamp, i: nat)
    requires Consistent(ps, accounts, os)
    requires i < |ps| && Find(accounts, ConnectedAccountOf(ps[i].userId)).None?
    ensures ClaimAll(ps, accounts, os, candidates, now).0[i] == ps[i]
  {
    ClaimAllOnlyPaysReleased(ps, accounts, os, candidates, now, i);
  }

  /** A candidate the batch does not skip: one with a CONNECTED account. */
  function HasConnectedAccount(accounts: seq<PaymentAccount>): string -> bool
  {
    (u: string) => Find(accounts, ConnectedAccountOf(u)).Some?
  }

  /** The batch creates exactly one payout per candidate with a CONNECTED account, and none for the others. */
  lemma {:induction false} ClaimAllPayoutCount(ps: seq<Payment>, accounts: seq<PaymentAccount>, os: seq<Payout>,
                                               candidates: seq<string>, now: Timestamp)
    ensures |ClaimAll(ps, accounts, os, candidates, now).1| == |os| + |Filter(candidates, HasConnectedAccount(accounts))|
    decreases |candidates|
  {
    if candidates != [] {
      var c := candidates[0];
      match Find(accounts, ConnectedAccountOf(c))
      case None =>
        ClaimAllPayoutCount(ps, accounts, os, candidates[1..], now);
      case Some(k) =>
        var (ps', os') := Claim(ps, os, accounts[k], c, now);
        ClaimAllPayoutCount(ps', accounts, os', candidates[1..], now);
    }
  }

  /**
   * The transfer loop's state after the first `j` fetched payouts: each row
   * fetched so far is settled, every other row is as it was.
   */
  ghost predicate SettledUpTo(os: seq<Payout>, created: seq<Payout>, j: nat, transferIds: map<nat, string>, cur: seq<Payout>)
  {
    && j <= |created|
    && |cur| == |os|
    && forall x :: 0 <= x < |os| ==>
         cur[x] == if os[x] in created[..j] then SettleOne(os[x], transferIds) else os[x]
  }

  /**
   * One turn of the transfer loop over the CREATED payouts fetched from `os`:
   * the fetched row is saved back at position id - 1, as PAID with its
   * transfer id when the transfer succeeded, and no other row changes.
   */
  lemma SettleAdvance(os: seq<Payout>, created: seq<Payout>, j: nat, transferIds: map<nat, string>, cur: seq<Payout>)
    requires PayoutRowsNumbered(os) && created == Filter(os, Unsettled) && j < |created|
    requires SettledUpTo(os, created, j, transferIds, cur)
    ensures 1 <= created[j].id <= |os|
    ensures SettledUpTo(os, created, j + 1, transferIds,
      if created[j].id in transferIds
      then cur[created[j].id - 1 := created[j].(status := PayoutPaid, transferId := Some(transferIds[created[j].id]))]
      else cur)
  {
    var o := created[j];
    CreatedRow(os, created, j);
    RowsDistinct(os, o.id - 1);
    PrefixGrows(created, j);
    var next := if o.id in transferIds then cur[o.id - 1 := o.(status := PayoutPaid, transferId := Some(transferIds[o.id]))] else cur;
    forall x | 0 <= x < |os|
      ensures next[x] == if os[x] in created[..j + 1] then SettleOne(os[x], transferIds) else os[x]
    {
      if x != o.id - 1 {
        assert os[x] != o;
        assert os[x] in created[..j + 1] <==> os[x] in created[..j];
      }
    }
  }

  /** When every fetched payout has had its turn, the table is `Settle` of the old one. */
  lemma SettledAll(os: seq<Payout>, created: seq<Payout>, transferIds: map<nat, string>, cur: seq<Payout>)
    requires created == Filter(os, Unsettled)
    requires SettledUpTo(os, created, |created|, transferIds, cur)
    ensures cur == Settle(os, transferIds)
  {
    FilterMembers(os, Unsettled);
    assert created[..|created|] == created;
    var r := Settle(os, transferIds);
    forall x | 0 <= x < |os|
      ensures cur[x] == r[x]
    {
      if os[x] !in created {
        assert !Unsettled(os[x]);
      }
    }
  }

  /** Numbered rows are pairwise different. */
  lemma RowsDistinct(os: seq<Payout>, x: nat)
    requires PayoutRowsNumbered(os) && x < |os|
    ensures forall y :: 0 <= y < |os| && y != x ==> os[y] != os[x]
  {
    forall y | 0 <= y < |os| && y != x
      ensures os[y] != os[x]
    {
      assert os[y].id == y + 1 && os[x].id == x + 1;
    }
  }

  /** A fetched CREATED payout is the row stored at position id - 1. */
  lemma CreatedRow(os: seq<Payout>, created: seq<Payout>, j: nat)
    requires PayoutRowsNumbered(os) && created == Filter(os, Unsettled) && j < |created|
    ensures 1 <= created[j].id <= |os| && os[created[j].id - 1] == created[j]
    ensures created[j].status == PayoutCreated
  {
    FilterMembers(os, Unsettled);
    var o := created[j];
    assert o in os && Unsettled(o);
    var x :| 0 <= x < |os| && os[x] == o;
    assert o.id == x + 1;
  }

  lemma SettleKeepsConsistent(ps: seq<Payment>, accounts: seq<PaymentAccount>, os: seq<Payout>, transferIds: map<nat, string>)
    requires Consistent(ps, accounts, os)
    ensures Consistent(ps, accounts, Settle(os, transferIds))
  {
  }

  // ---------------------------------------------------------------- conservation

  function IdSet(os: seq<Payout>): set<nat>
  {
    if os == [] then {} else {os[0].id} + IdSet(os[1..])
  }

  function ClaimedByOneOf(ids: set<nat>): Payment -> bool
  {
    (p: Payment) => p.payout.Some? && p.payout.value in ids
  }

  lemma {:induction false} IdSetMembers(os: seq<Payout>)
    ensures forall j :: 0 <= j < |os| ==> os[j].id in IdSet(os)
    ensures forall x :: x in IdSet(os) ==> exists j :: 0 <= j < |os| && os[j].id == x
  {
    if os != [] {
      IdSetMembers(os[1..]);
      forall x | x in IdSet(os)
        ensures exists j :: 0 <= j < |os| && os[j].id == x
      {
        if x != os[0].id {
          var j :| 0 <= j < |os[1..]| && os[1..][j].id == x;
          assert os[j + 1].id == x;
        }
      }
    }
  }

  lemma {:induction false} PayoutTotalIsClaimedTotal(ps: seq<Payment>, os: seq<Payout>)
    requires PayoutsMatchClaims(ps, os)
    requires forall i, j :: 0 <= i < j < |os| ==> os[i].id != os[j].id
    ensures PayoutTotal(os) == SumAmounts(Filter(ps, ClaimedByOneOf(IdSet(os))))
  {
    if os == [] {
      FilterNone(ps, ClaimedByOneOf({}));
    } else {
      var rest := os[1..];
      PayoutTotalIsClaimedTotal(ps, rest);
      IdSetMembers(rest);
      forall j | 0 <= j < |rest|
        ensures rest[j].id != os[0].id
      {
        assert rest[j] == os[j + 1];
      }
      assert os[0].id !in IdSet(rest);
      FilteredSumSplit(ps, ClaimedByOneOf(IdSet(os)), ClaimedBy(os[0].id), ClaimedByOneOf(IdSet(rest)));
    }
  }

  /** All money recorded as paid out in payments is exactly the money in payouts. */
  lemma PaidTotalIsPayoutTotal(ps: seq<Payment>, accounts: seq<PaymentAccount>, os: seq<Payout>)
    requires Consistent(ps, accounts, os)
    ensures PaidTotal(ps) == PayoutTotal(os)
  {
    PayoutTotalIsClaimedTotal(ps, os);
    IdSetMembers(os);
    forall i | 0 <= i < |ps| && ps[i].payout.Some?
      ensures ps[i].payout.value in IdSet(os)
    {
      assert os[ps[i].payout.value - 1].id == ps[i].payout.value;
    }
    FilteredSumFrame(ps, ps, WithStatus(Paid), ClaimedByOneOf(IdSet(os)));
  }
}
