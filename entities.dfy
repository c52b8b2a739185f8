/**
 * The records of the payment service: payments, payment accounts at the
 * payment gateway, payouts, the caller's identity and the shapes handed back
 * to callers. Timestamps are integers (milliseconds); a nullable column is an
 * Option.
 */
module Entities {
  import opened Wrappers

  type Timestamp = int

  /**
   * Payment.status. The service compares it both with enum constants and
   * with the literals 'Draft', 'Pending' and 'Paid'; the enum's own file is
   * not part of this model, and the literals are taken to be the enum's
   * values, so one datatype serves for both.
   */
  datatype PaymentStatus = Draft | Pending | Paid | Canceled

  /** PaymentAccount.accountStatus; the literals 'Created' and 'Connected' are taken to be its values. */
  datatype AccountStatus = AccountCreated | AccountConnected

  datatype PayoutStatus = PayoutCreated | PayoutPaid

  /** A payment from a client to the user `userId`; `payout` is the id of the payout that claimed it. */
  datatype Payment = Payment(
    id: nat,
    userId: string,
    amount: int,
    description: string,
    status: PaymentStatus,
    originalAmount: Option<int>,
    createdAt: Option<Timestamp>,
    releasedAt: Option<Timestamp>,
    approvedAt: Option<Timestamp>,
    updatedAt: Option<Timestamp>,
    paidAt: Option<Timestamp>,
    cancelledAt: Option<Timestamp>,
    createdBy: Option<string>,
    updatedBy: Option<string>,
    externalId: Option<string>,
    payout: Option<nat>)

  /** A user's account at the payment gateway; `accountId` is the gateway's own id for it. */
  datatype PaymentAccount = PaymentAccount(
    id: nat,
    userId: string,
    accountId: string,
    accountStatus: AccountStatus,
    createdAt: Option<Timestamp>,
    connectedAt: Option<Timestamp>)

  /** One transfer of funds to the account with id `paymentAccount`. */
  datatype Payout = Payout(
    id: nat,
    paymentAccount: nat,
    createdAt: Option<Timestamp>,
    amount: int,
    status: PayoutStatus,
    transferId: Option<string>)

  /** The authenticated caller. */
  datatype Principal = Principal(id: string, isClient: bool, isServiceAccount: bool, username: string)

  datatype CreatePaymentRequest = CreatePaymentRequest(
    userId: string, amount: int, description: string, externalId: Option<string>)

  datatype UpdatePaymentRequest = UpdatePaymentRequest(
    id: int, amount: int, description: string, approve: bool)

  /** What callers see of a payment; the service renders the two dates as ISO-8601 strings. */
  datatype PaymentDetails = PaymentDetails(
    id: nat,
    userId: string,
    amount: int,
    description: string,
    status: PaymentStatus,
    originalAmount: Option<int>,
    approvedAt: Option<Timestamp>,
    paidAt: Option<Timestamp>,
    externalId: Option<string>)

  datatype PaymentStats = PaymentStats(draftPaymentsAmount: int, pendingPaymentsAmount: int, totalEarnings: int)

  /**
   * Why an operation failed. The service throws plain errors told apart only
   * by their message; the variants name the messages' kinds.
   */
  datatype Failure =
    | Forbidden     // the caller may not do this
    | NotFound      // no payment with this id
    | WrongState    // the payment's status does not allow the operation
    | GatewayError  // the payment gateway reported an error

  function Details(p: Payment): PaymentDetails
  {
    PaymentDetails(p.id, p.userId, p.amount, p.description, p.status, p.originalAmount,
                   p.approvedAt, p.paidAt, p.externalId)
  }

  function Project(ps: seq<Payment>): (r: seq<PaymentDetails>)
    ensures |r| == |ps| && forall i :: 0 <= i < |ps| ==> r[i] == Details(ps[i])
  {
    seq(|ps|, i requires 0 <= i < |ps| => Details(ps[i]))
  }
}
