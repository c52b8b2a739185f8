/**
 * The payout batch's two loops as written, next to the corrected ones the
 * service model uses.
 *
 * First loop: the first candidate without a CONNECTED account ends the whole
 * call, so later candidates get no payout and the transfer loop does not run.
 * `ClaimAll` in the ledger skips such a candidate instead, which is what the
 * batch's own log line ("Skipping payments") describes.
 *
 * Second loop: the payouts are fetched without their account relation, so
 * every transfer attempt fails before reaching the gateway. `Settle` in the
 * ledger settles each payout the gateway transfers.
 */
module BatchFindings {
  import opened Wrappers
  import opened Query
  import opened Entities
  import opened Ledger

  /** The outcome of the loop as written; `completed` is false when it returned early. */
  datatype Batch = Batch(payments: seq<Payment>, payouts: seq<Payout>, completed: bool)

  function ClaimAllAsWritten(ps: seq<Payment>, accounts: seq<PaymentAccount>, os: seq<Payout>, candidates: seq<string>, now: Timestamp)
    : (b: Batch)
    ensures |b.payments| == |ps|
    ensures !b.completed ==> exists j :: 0 <= j < |candidates| && Find(accounts, ConnectedAccountOf(candidates[j])).None?
    decreases |candidates|
  {
    if candidates == [] then Batch(ps, os, true)
    else match Find(accounts, ConnectedAccountOf(candidates[0]))
      case None => Batch(ps, os, false)
      case Some(k) =>
        var (ps', os') := Claim(ps, os, accounts[k], candidates[0], now);
        var b := ClaimAllAsWritten(ps', accounts, os', candidates[1..], now);
        assert !b.completed ==> exists j :: 0 <= j < |candidates| && Find(accounts, ConnectedAccountOf(candidates[j])).None? by {
          if !b.completed {
            var j :| 0 <= j < |candidates[1..]| && Find(accounts, ConnectedAccountOf(candidates[1..][j])).None?;
            assert candidates[1..][j] == candidates[j + 1];
          }
        }
        b
  }

  /**
   * The first candidate without a CONNECTED account ends the call: the
   * payouts claimed for the candidates before it stay, and nobody after it
   * is visited.
   */
  lemma {:induction false} AsWrittenStopsAtFirstUnconnected(ps: seq<Payment>, accounts: seq<PaymentAccount>, os: seq<Payout>,
                                                            candidates: seq<string>, now: Timestamp, j: nat)
    requires j < |candidates| && Find(accounts, ConnectedAccountOf(candidates[j])).None?
    requires forall i :: 0 <= i < j ==> Find(accounts, ConnectedAccountOf(candidates[i])).Some?
    ensures ClaimAllAsWritten(ps, accounts, os, candidates, now)
      == Batch(ClaimAll(ps, accounts, os, candidates[..j], now).0, ClaimAll(ps, accounts, os, candidates[..j], now).1, false)
    decreases j
  {
    if j > 0 {
      var k := Find(accounts, ConnectedAccountOf(candidates[0])).value;
      var (ps', os') := Claim(ps, os, accounts[k], candidates[0], now);
      assert candidates[..j][0] == candidates[0];
      assert candidates[..j][1..] == candidates[1..][..j - 1];
      forall i | 0 <= i < j - 1
        ensures Find(accounts, ConnectedAccountOf(candidates[1..][i])).Some?
      {
        assert candidates[1..][i] == candidates[i + 1];
      }
      AsWrittenStopsAtFirstUnconnected(ps', accounts, os', candidates[1..], now, j - 1);
    }
  }

  /** When every candidate has a CONNECTED account the early return never fires and the two loops agree. */
  lemma {:induction false} AsWrittenAgreesWhenAllConnected(ps: seq<Payment>, accounts: seq<PaymentAccount>, os: seq<Payout>,
                                                           candidates: seq<string>, now: Timestamp)
    requires forall j :: 0 <= j < |candidates| ==> Find(accounts, ConnectedAccountOf(candidates[j])).Some?
    ensures ClaimAllAsWritten(ps, accounts, os, candidates, now)
      == Batch(ClaimAll(ps, accounts, os, candidates, now).0, ClaimAll(ps, accounts, os, candidates, now).1, true)
    decreases |candidates|
  {
    if candidates != [] {
      assert Find(accounts, ConnectedAccountOf(candidates[0])).Some?;
      var k := Find(accounts, ConnectedAccountOf(candidates[0])).value;
      var (ps', os') := Claim(ps, os, accounts[k], candidates[0], now);
      forall j | 0 <= j < |candidates[1..]|
        ensures Find(accounts, ConnectedAccountOf(candidates[1..][j])).Some?
      {
        assert candidates[1..][j] == candidates[j + 1];
      }
      AsWrittenAgreesWhenAllConnected(ps', accounts, os', candidates[1..], now);
    }
  }

  /**
   * Candidates `a` (no account) then `b` (CONNECTED, with a released PENDING
   * payment), with an earlier payout `o` still CREATED: as written, `b`'s
   * payment stays PENDING, no payout is created and the transfer loop takes
   * up no payout, not even `o`; with `a` skipped, the payment is PAID.
   */
  lemma EarlyReturnStrandsLaterCandidates(p: Payment, acct: PaymentAccount, o: Payout)
    requires p == Payment(1, "b", 5000, "work", Pending, None, Some(0), Some(0), Some(0),
                          None, None, None, None, None, None, None)
    requires acct == PaymentAccount(1, "b", "acct_b", AccountConnected, None, Some(0))
    requires o == Payout(1, 1, Some(0), 2500, PayoutCreated, None)
    ensures ClaimAllAsWritten([p], [acct], [], ["a", "b"], 0) == Batch([p], [], false)
    ensures TransferPendingAsWritten([p], [acct], [o], ["a", "b"], 0, map[1 := "tr_1"]) == BatchRun([p], [o], [])
    ensures ClaimAll([p], [acct], [], ["a", "b"], 0).0[0].status == Paid
  {
    assert Find([acct], ConnectedAccountOf("a")).None? by {
      assert !ConnectedAccountOf("a")(acct);
    }
    assert Find([acct], ConnectedAccountOf("b")) == Some(0) by {
      assert ConnectedAccountOf("b")(acct);
    }
    assert ReleasedPendingOf("b", 0)(p);
    ClaimAllPaysConnected([p], [acct], [], ["a", "b"], 0, 0);
  }

  // ---------------------------------------------------------------- the transfer loop as written

  /**
   * One turn of the transfer loop when the payout's account relation is
   * `account`: without it, reading the destination account id throws before
   * the gateway is called, the error is caught and logged, and the row stays
   * as it was. The loop as written only ever passes `None`; the `Some` case
   * is kept to show that the loaded relation is the only difference from `SettleOne`.
   */
  function SettleOneAsWritten(o: Payout, account: Option<PaymentAccount>, transferIds: map<nat, string>): (r: Payout)
    ensures account.None? ==> r == o
    ensures account.Some? ==> r == SettleOne(o, transferIds)
  {
    match account
    case None => o
    case Some(_) => SettleOne(o, transferIds)
  }

  /**
   * The transfer loop as written: the CREATED payouts are fetched without
   * their account relation, so no row is ever settled, whatever the gateway
   * would have answered.
   */
  function SettleAsWritten(os: seq<Payout>, transferIds: map<nat, string>): (r: seq<Payout>)
    ensures r == os
  {
    seq(|os|, j requires 0 <= j < |os| => SettleOneAsWritten(os[j], None, transferIds))
  }

  /**
   * The tables after the whole batch as written, with the payouts its
   * transfer loop takes up (`visited`); the loop runs only when the first
   * loop did not return early.
   */
  datatype BatchRun = BatchRun(payments: seq<Payment>, payouts: seq<Payout>, visited: seq<Payout>)

  function TransferPendingAsWritten(ps: seq<Payment>, accounts: seq<PaymentAccount>, os: seq<Payout>,
                                    candidates: seq<string>, now: Timestamp, transferIds: map<nat, string>): (r: BatchRun)
    ensures var b := ClaimAllAsWritten(ps, accounts, os, candidates, now);
      && r.payments == b.payments
      && r.payouts == b.payouts
      && (!b.completed ==> r.visited == [])
      && (b.completed ==> r.visited == Filter(b.payouts, Unsettled))
  {
    var b := ClaimAllAsWritten(ps, accounts, os, candidates, now);
    if b.completed then
      var visited := Filter(b.payouts, Unsettled);
      BatchRun(b.payments, SettleAsWritten(b.payouts, transferIds), visited)
    else
      BatchRun(b.payments, b.payouts, [])
  }

  /**
   * A CREATED payout whose transfer the gateway would accept: as written it
   * stays CREATED; settled as intended it is PAID with the transfer's id.
   */
  lemma TransferNeverReached(o: Payout, transferIds: map<nat, string>)
    requires o == Payout(1, 1, Some(0), 5000, PayoutCreated, None)
    requires transferIds == map[1 := "tr_1"]
    ensures SettleAsWritten([o], transferIds)[0].status == PayoutCreated
    ensures Settle([o], transferIds)[0] == o.(status := PayoutPaid, transferId := Some("tr_1"))
  {
  }
}
