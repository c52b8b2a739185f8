# Payment service — a Dafny model

This project models the core of a small payment service. Clients create payments to users. A payment
starts as DRAFT and is approved to PENDING, either by a client or automatically after three days. A payment
approved through `approvePayment` becomes eligible for release fifteen days later; the other two
approval paths set no release date. A batch job then gathers each user's
released payments into one payout to the user's connected gateway account, marks those payments PAID, and
transfers the payouts. A user's gateway account moves from CREATED to CONNECTED once the gateway reports
that payouts are enabled.

The model also covers three helpers: `snakeCase`, the ORM naming strategy built on it, and
`filterKeysGetFirst`.

Files:

- `wrappers.dfy`: `Option` and `Result`.
- `query.dfy`: the three ways the service reads a table.
  - `Filter` models `find` with a where clause.
  - `Find` models `findOne`.
  - `Window` models `skip`/`take`.
  - Tables are sequences in insertion order.
- `entities.dfy`: the records.
  - Payment, PaymentAccount, Payout, the caller, the requests and `PaymentDetails`.
  - Timestamps are integers (milliseconds), and a nullable column is an `Option`.
- `ledger.dfy`: everything about the tables' contents.
  - Sums over payments.
  - The invariant `Consistent`:
    - row ids are 1, 2, 3, … as the auto-increment keys give them;
    - there is one account per user;
    - an account has a connection time exactly when it is CONNECTED;
    - a payment has a payout exactly when it is PAID;
    - every payout goes to a CONNECTED account;
    - a payout's amount is the sum of the payments that reference it.
  - The payment lifecycle `StatusReachable` / `PaymentsEvolve`.
  - The batch as functions (`Claim`, `ClaimAll`, `Settle`) and the lemmas about them.
- `payment_service.dfy`: class `PaymentService`.
  - It holds the three tables as fields.
  - Each mutator is a method that keeps `Valid()`, states the exact new tables, and moves payments only
    forward in the lifecycle.
  - The queries are functions of the tables.
- `strings.dfy`, `naming.dfy`, `objects.dfy`: the helpers.
- `findings.dfy`: the batch's two loops as written, next to the corrected ones.

The environment is passed in as parameters:

- the clock is `now`;
- each payment-gateway call is an `Option` parameter, where `None` means the call threw;
- the transfer results are a map from payout id to transfer id, where a missing id means the transfer
  failed;
- the users the batch visits are a `candidates` parameter. Its precondition describes the users the
  grouping query is meant to return: those whose PENDING total is at least 5000, each once.

Behaviour of the code that the model keeps:

- A payout is created even when none of the user's payments is released yet; its amount is then 0
  (`Ledger.ClaimWithNothingReleased`).
- The PAID update does not set `paidAt` and does not re-check the status.
- `updatePayment`'s approve path and `autoApprovePayments` never set `releasedAt`.
  - A payment approved that way never becomes eligible for payout.
  - The batch never touches a payment without a release date (`Ledger.UnreleasedStayPut`).
- In these three places the code and the written description of the service disagree, and the model follows
  the code (for the payout batch, see "## Findings"):
  - `getPaymentAccount` returns `null` (here `Ok(None)`) for a missing account, and for a CREATED account
    whose payouts are not enabled. It does not fail.
  - `getPaymentAccountUrl` returns `null` for a CONNECTED account.
  - `updatePayment`'s approval sets neither the release date nor anything beyond status and `approvedAt`.
- The service throws plain errors that are told apart only by their messages. `Failure` names the kind of
  each message; the code itself does not distinguish them.

## Model

| member | source | states |
|---|---|---|
| Query.Filter | src/services/payment.service.ts:168-178 | a query returns no more rows than the table holds |
| Query.FilterMembers | src/services/payment.service.ts:168-178 | a query returns exactly the rows satisfying its where clause: every returned row is in the table and satisfies it, and every satisfying row is returned |
| Query.FilterNone | src/services/payment.service.ts:305-312 | a where clause no row satisfies returns no rows |
| Query.Find | src/services/payment.service.ts:242-247 | `findOne` gives the first matching row, and nothing exactly when no row matches |
| Query.Window | src/services/payment.service.ts:176-177 | `take` bounds the page size; a `skip` past the end gives an empty page |
| Query.PagesArePrefix | src/services/payment.service.ts:176-177 | reading pages 1..n in turn yields the first n·perPage rows once each, in order |
| Entities.Project | src/services/payment.service.ts:180-190 | the returned list has one `PaymentDetails` per row, in row order, carrying that row's fields |
| Payments.ProjectedRows | src/services/payment.service.ts:221-231 | the caller sees the details of exactly the rows the query selected: no more entries than table rows, each entry the details of a table row |
| Payments.RowOf | src/services/payment.service.ts:242-247 | with auto-increment ids, looking up id n finds row n, and nothing when n is out of range |
| Payments.PaymentService.GetPaymentAccount | src/services/payment.service.ts:71-107 | rejects a caller who is not `userId`; no account gives null. A CONNECTED account is returned unchanged. A CREATED account becomes CONNECTED with `connectedAt = now` when payouts are enabled; otherwise null, or an error if the gateway failed; both of these leave the account unchanged |
| Ledger.ConnectKeepsConsistent | src/services/payment.service.ts:87-98 | connecting a CREATED account keeps every table invariant and changes accounts only as allowed |
| Payments.PaymentService.GetPaymentAccountUrl | src/services/payment.service.ts:109-155 | rejects a caller who is not `userId`. A user with no account gets a new CREATED row holding the gateway's account id; if the gateway failed to create one, there is an error and no row. The row is saved before the link is requested, so a failed link still leaves it. CONNECTED gives null; CREATED gives the onboarding URL, or an error if the gateway failed. No other change |
| Ledger.NewAccountKeepsConsistent | src/services/payment.service.ts:124-138 | a row is added only for a user who has none, so each user keeps at most one account |
| Payments.PaymentService.GetPayments | src/services/payment.service.ts:157-191 | fails exactly for a non-client asking about another user. Otherwise gives at most `perPage` rows, all that user's PENDING or PAID payments: the rows at positions (page−1)·perPage, … of that listing, as many as exist |
| Payments.PaymentService.GetReferencePayments | src/services/payment.service.ts:193-232 | returns at most as many rows as the table holds, each the details of a table row. Every returned row is DRAFT, PENDING or PAID, carries one of the references, and is the caller's own unless the caller is a client. Every such payment is returned |
| Payments.PaymentService.ApprovePayment | src/services/payment.service.ts:234-266 | non-client: forbidden; unknown id: not found; both change nothing. A DRAFT payment becomes PENDING with `approvedAt = now` and `releasedAt = now + 15 days`, and nothing else changes. Any other status fails with no change |
| Payments.PaymentService.CancelPayment | src/services/payment.service.ts:268-295 | non-client or unknown id fails with no change. DRAFT or PENDING becomes CANCELED with `cancelledAt = now`, and nothing else changes. PAID or CANCELED fails with no change |
| Ledger.EditOneKeepsConsistent | src/services/payment.service.ts:250-261 | a forward status step on one unpaid row keeps the invariant and the lifecycle |
| Payments.PaymentService.GetPaymentStats | src/services/payment.service.ts:297-337 | fails exactly for a non-client asking about another user; otherwise the user's DRAFT, PENDING and PAID totals |
| Ledger.NoRowsNoTotal | src/services/payment.service.ts:332-335 | a total over no matching rows is 0 |
| Ledger.StatusChangeShiftsTotals | src/services/payment.service.ts:305-330 | moving one payment between statuses moves its amount between the two totals and leaves the other totals alone |
| Payments.PaymentService.GetClientPaymentStats | src/services/payment.service.ts:339-359 | fails exactly for a non-client; the draft and pending figures are 0 |
| Payments.PaymentService.ClientEarningsArePaidOut | src/services/payment.service.ts:346-357 | the clients' total of PAID payments equals the total of all payouts |
| Ledger.PaidTotalIsPayoutTotal | src/services/payment.service.ts:477-495 | under the invariant, money recorded as paid in payments is exactly the money in payouts |
| Ledger.PayoutTotalIsClaimedTotal | src/services/payment.service.ts:477-495 | the payouts' total is the total of the payments that reference one of them |
| Payments.PaymentService.CreatePayment | src/services/payment.service.ts:362-384 | only clients and service accounts may create. Exactly one row is appended: DRAFT, with the request's fields, `createdAt = now`, `createdBy` = the caller's username, no `originalAmount`. Other rows are unchanged |
| Ledger.NewDraftKeepsConsistent | src/services/payment.service.ts:372-382 | appending a new DRAFT row keeps every invariant |
| Payments.PaymentService.UpdatePayment | src/services/payment.service.ts:386-417 | non-client or unknown id fails with no change. A DRAFT row gets the new amount, description, `updatedAt` and `updatedBy`, and with `approve` also PENDING and `approvedAt = now`; `releasedAt` is left as it was. Any other status fails with no change |
| Payments.AutoApproved | src/services/payment.service.ts:423-435 | exactly the DRAFT rows created strictly before the cut-off become PENDING with `approvedAt = now`; every other row and field is unchanged |
| Payments.PaymentService.AutoApprovePayments | src/services/payment.service.ts:419-438 | the table becomes `AutoApproved` with the cut-off now − 3 days; the invariant and lifecycle are kept |
| Ledger.OpenEditsKeepConsistent | src/services/payment.service.ts:419-435 | changes confined to unpaid rows that stay unpaid keep every invariant |
| Ledger.LifecycleIsOneWay | src/services/payment.service.ts:250-294 | no sequence of steps leads into DRAFT, or out of PAID or CANCELED |
| Ledger.EvolveTransitive | src/services/payment.service.ts:440-502 | lifecycle-respecting changes compose |
| Payments.PaymentService.TransferPendingPayments | src/services/payment.service.ts:440-528 | the tables become exactly the claim pass over the candidates followed by the transfer pass; the invariant and lifecycle are kept |
| Payments.PaymentService.ClaimPayouts | src/services/payment.service.ts:453-502 | the loop's result is `ClaimAll` of the old tables: candidates without a CONNECTED account are skipped (`Ledger.SkippedCandidateUntouched`, `Ledger.ClaimAllPayoutCount`) |
| Ledger.MarkPaid | src/services/payment.service.ts:488-495 | exactly the rows whose id was selected become PAID and reference the payout; `paidAt` is not set |
| Ledger.SelectedIds | src/services/payment.service.ts:494 | with auto-increment ids, the update by ids touches exactly the selected rows |
| Ledger.Claim | src/services/payment.service.ts:466-495 | one user's turn keeps every payment row's position and appends exactly one CREATED payout, numbered next and to that user's account; `ClaimEffect` gives its amount and the payments it claims |
| Ledger.ClaimAll | src/services/payment.service.ts:453-502 | the corrected claim loop keeps the payments table's length and adds at most one payout per candidate; `ClaimAllKeepsConsistent` and `ClaimAllPaysConnected` state what it achieves |
| Ledger.ClaimEffect | src/services/payment.service.ts:466-495 | one user's turn adds one CREATED payout whose amount is the sum of the user's PENDING payments with `releasedAt ≤ now`; exactly those payments become PAID and reference it, and every other payment is unchanged |
| Ledger.ClaimWithNothingReleased | src/services/payment.service.ts:466-486 | a user with nothing released still gets a payout, of amount 0, and no payment changes |
| Ledger.ClaimKeepsConsistent | src/services/payment.service.ts:466-495 | one user's turn keeps every invariant, including payout amount = sum of claimed payments |
| Ledger.ClaimAllKeepsConsistent | src/services/payment.service.ts:453-502 | the whole claim pass keeps every invariant and moves payments only forward |
| Ledger.ClaimAllPaysConnected | src/services/payment.service.ts:453-502 | every released PENDING payment of a candidate with a CONNECTED account ends PAID |
| Ledger.ClaimAllOnlyPaysReleased | src/services/payment.service.ts:466-496 | the claim pass changes a payment only if it was a released PENDING payment of a candidate with a CONNECTED account, and then only to PAID with a payout |
| Ledger.SkippedCandidateUntouched | src/services/payment.service.ts:456-464 | a payment of a user without a CONNECTED account is left as it was: that candidate is skipped |
| Ledger.ClaimAllPayoutCount | src/services/payment.service.ts:453-502 | the claim pass appends exactly one payout per candidate with a CONNECTED account, and none for a skipped one |
| Ledger.UnreleasedStayPut | src/services/payment.service.ts:466-475 | a payment without a release date is never touched by the claim pass |
| Payments.PaymentService.SettlePayouts | src/services/payment.service.ts:504-527 | every CREATED payout, older ones included, whose transfer succeeded becomes PAID with its transfer id; the rest stay exactly as they were, whatever happened to the others |
| Ledger.SettleOne | src/services/payment.service.ts:512-520 | one payout's turn changes only its status and transfer id: it ends PAID exactly when it was PAID already or was CREATED and the transfer succeeded, and then carries that transfer's id |
| Ledger.Settle | src/services/payment.service.ts:509-527 | the transfer pass acts on each payout independently |
| Ledger.SettleAdvance | src/services/payment.service.ts:509-527 | one turn of the transfer loop saves the fetched payout back at its own row, PAID with the transfer id when the transfer succeeded, and changes no other row; afterwards every payout fetched so far is settled and the rest are as before |
| Ledger.SettledAll | src/services/payment.service.ts:504-527 | once every CREATED payout fetched has had its turn, the table is each payout settled independently |
| Ledger.SettleKeepsConsistent | src/services/payment.service.ts:504-527 | the transfer pass keeps every invariant |
| BatchFindings.ClaimAllAsWritten | src/services/payment.service.ts:453-502 | as written, the loop stops early only when some candidate has no CONNECTED account |
| BatchFindings.AsWrittenStopsAtFirstUnconnected | src/services/payment.service.ts:461-464 | as written, the first candidate without a CONNECTED account ends the call: the result is the claims made for the candidates before it, and the call reports that it stopped early |
| BatchFindings.AsWrittenAgreesWhenAllConnected | src/services/payment.service.ts:461-464 | when every candidate has a CONNECTED account, the loop as written and the corrected loop agree |
| BatchFindings.EarlyReturnStrandsLaterCandidates | src/services/payment.service.ts:461-464 | as written, an unconnected first candidate leaves a later candidate's released payment PENDING, creates no payout, and the transfer loop takes up no payout, not even an earlier CREATED one; corrected, the payment is paid |
| BatchFindings.TransferPendingAsWritten | src/services/payment.service.ts:453-527 | as written, the whole batch leaves the payouts as its first loop left them; its transfer loop takes up the CREATED payouts only when the first loop did not return early, and none otherwise |
| BatchFindings.SettleAsWritten | src/services/payment.service.ts:504-527 | as written, the transfer loop leaves the payouts table unchanged, because the destination account is read through a relation the query did not load |
| BatchFindings.TransferNeverReached | src/services/payment.service.ts:504-520 | a CREATED payout whose transfer the gateway would accept stays CREATED as written, and becomes PAID with the transfer's id when settled as intended |
| Strings.ToLower | src/commons/helpers/strings.ts:11 | a capital becomes the lower-case letter at the same place in the alphabet; any other character is unchanged; no capital comes out |
| Strings.Lower | src/commons/helpers/strings.ts:11 | lower-casing works character by character and keeps the length |
| Strings.SplitAcronyms | src/commons/helpers/strings.ts:8 | the global scan for the first pattern; it never shortens its input, and `SplitAcronymsIsPointwise` shows it matches the pointwise definition |
| Strings.SplitCamel | src/commons/helpers/strings.ts:10 | the global scan for the second pattern; it never shortens its input, and `SplitCamelIsPointwise` shows it matches the pointwise definition |
| Strings.SplitAcronymsIsPointwise | src/commons/helpers/strings.ts:8 | the first global replacement puts `_` after exactly every position where capital, capital, lower-case begins |
| Strings.SplitCamelIsPointwise | src/commons/helpers/strings.ts:10 | the second global replacement puts `_` after exactly every position where lower-case-or-digit, capital begins |
| Strings.SnakeCaseInserts | src/commons/helpers/strings.ts:5-11 | the result is the lower-cased input with only underscores inserted, so it is never shorter |
| Strings.SnakeCase | src/commons/helpers/strings.ts:5-11 | the result has no capitals and is never shorter than the input; `SnakeCaseInserts` shows it is the lower-cased input with only underscores inserted |
| Strings.NoUpperUnchanged | src/commons/helpers/strings.ts:8-11 | an input without capitals is returned unchanged |
| Strings.SnakeCaseIdempotent | src/commons/helpers/strings.ts:5-11 | applying it twice is applying it once |
| Strings.NoAdjacentCapitals | src/commons/helpers/strings.ts:8 | without two capitals in a row the first replacement changes nothing |
| Strings.CamelJoin | src/commons/helpers/strings.ts:10 | a lower-case word followed by a capitalised word gets exactly one `_` between them |
| Strings.CamelWords | src/commons/helpers/strings.ts:8-11 | `snakeCase` of such a pair is the two words lower-cased joined by `_` |
| Strings.CamelCaseExample | src/commons/helpers/strings.ts:9-10 | `paymentAccount` becomes `payment_account` |
| Strings.AcronymExample | src/commons/helpers/strings.ts:7-8 | `ABc` becomes `a_bc` |
| NamingStrategy.OrElse | src/commons/typeorm/snake-case-naming-strategy.ts:10 | a present, non-empty custom name wins; otherwise the fallback |
| NamingStrategy.TableName | src/commons/typeorm/snake-case-naming-strategy.ts:9-11 | the custom name when non-empty, else `snakeCase(className)`, which has no capitals |
| NamingStrategy.ColumnName | src/commons/typeorm/snake-case-naming-strategy.ts:13-22 | the column name as written ends in the column's own name (custom or snake-cased); with no custom name, or an empty one, it has no capitals. `PrefixedColumnNames` shows that nothing separates the prefix from the name |
| NamingStrategy.ColumnNameWithoutPrefixes | src/commons/typeorm/snake-case-naming-strategy.ts:13-22 | with no embedded prefixes, the column name is the custom name, or else the snake-cased property name |
| NamingStrategy.PrefixedColumnNames | src/commons/typeorm/snake-case-naming-strategy.ts:18-21 | for lower-case parts, the name as written is prefix and property run together; the corrected name has `_` between them |
| NamingStrategy.EmbeddedColumnExample | src/commons/typeorm/snake-case-naming-strategy.ts:18-21 | property `city` under embedded `address`: `addresscity` as written, `address_city` corrected |
| NamingStrategy.ColumnNameSeparatedJoins | src/commons/typeorm/snake-case-naming-strategy.ts:18-21 | the corrected name is the snake-cased prefixes, `_`, then the column's own name |
| NamingStrategy.ColumnNameSeparatedWithoutPrefixes | src/commons/typeorm/snake-case-naming-strategy.ts:13-22 | with no prefixes, the corrected and as-written names agree |
| NamingStrategy.RelationName | src/commons/typeorm/snake-case-naming-strategy.ts:24-26 | `snakeCase(propertyName)`: no capitals, and unchanged by `snakeCase` again |
| NamingStrategy.DerivedNamesHaveNoUpper | src/commons/typeorm/snake-case-naming-strategy.ts:9-26 | table, column and relation names derived without a custom name, or with an empty one, have no capitals |
| Objects.FilterKeysGetFirst | src/commons/helpers/objects.ts:27-38 | the result's keys are exactly the keys of `obj` that `exclude` lacks, each with its value in `obj` |
| Objects.ExcludeNothing | src/commons/helpers/objects.ts:27-38 | with nothing to exclude the result equals `obj` |
| Objects.FilterKeysIdempotent | src/commons/helpers/objects.ts:27-38 | filtering twice by the same keys is filtering once |
| Objects.FilterKeysNoLarger | src/commons/helpers/objects.ts:27-38 | the result has no more keys than `obj` |

## Left out

- HTTP routing, dependency injection, configuration, logging and the error classes are not modelled. The
  logger calls only write messages.
- The payment-gateway SDK is not modelled; each call's outcome is a parameter.
- Persistence is not modelled: the ORM, SQL, transactions and concurrent requests are left out.
  - Each operation runs alone on one state of the tables.
  - A failed save is not modelled.
  - The three stats queries are taken over a single state.
- The batch's grouping query is not modelled. It puts `SUM(...)` in a WHERE clause, which a database
  rejects. With the snake-case naming strategy, its raw rows would also carry the column under the alias
  `payment_user_id`, not `userId`. The
  candidate users are a parameter whose precondition gives the query's evident meaning.
- Calendar arithmetic is not modelled.
  - "15 days later" and "3 days earlier" are 86 400 000 ms per day, so daylight-saving shifts are ignored.
  - The ISO-8601 rendering of `approvedAt` and `paidAt` is not modelled; they stay timestamps.
- A null `accountStatus` is left out. Only CREATED and CONNECTED are modelled, so the code's fall-through
  `null` for other statuses does not arise.
- Nullable text columns are modelled as plain strings: `Payment.description`, `PaymentAccount.userId` and
  `PaymentAccount.accountId`. A null there is not distinguished from a string value. A null payment
  `status` is left out, like a null `accountStatus`.
- Raw `SUM` results are modelled as integers. `sum || 0` is taken to give 0 exactly when no row matches.
- `page` and `perPage` are preconditions (`>= 1`); the route's defaulting is not modelled.
- The static stub methods are left out: they only throw "Method not implemented".
- `transformKeysToCamelCase` is left out: it wraps a library.
- The random helpers are left out: they use floating point.
- Strings are modelled as ASCII only. `toLowerCase` on other characters is not modelled.
- `filterKeysGetFirst` is modelled without the prototype chain that JavaScript's `in` consults, and
  without key order.
- Payments.PaymentService.TransferPendingPayments: it runs the two corrected loops, `ClaimPayouts` and
  `SettlePayouts` below. The loops as written are in `findings.dfy`.
- Payments.PaymentService.ClaimPayouts: this is the corrected loop, which skips a candidate without a
  CONNECTED account. The early return as written is `BatchFindings.ClaimAllAsWritten`.
- Payments.PaymentService.SettlePayouts: it settles each payout the gateway transfers. As written, the
  destination account is read through a relation that the query does not load, so every attempt fails
  before the gateway is called. That loop is `BatchFindings.SettleAsWritten`.
- Payments.PaymentService.SettlePayouts: it collects the per-payout saves in a local copy of the table and
  writes it back once. The saves are not observable one at a time, because database failures are left out.
- Payments.PaymentService.GetPayments: the order is table order; the query sets no ORDER BY.
- Payments.PaymentService.GetReferencePayments: the order is table order; the query sets no ORDER BY.

## Findings

| source | as written | input that shows it | evidently intended | confidence | as-written member | corrected member |
|---|---|---|---|---|---|---|
| src/services/payment.service.ts:461-464 | `return` ends the whole batch at the first candidate without a CONNECTED account, so later candidates get no payout and no transfer runs | candidates `a` (no account), then `b` (CONNECTED, one released PENDING payment) | skip that candidate and go on, as the log line "Skipping payments" says | high (not executed) | BatchFindings.AsWrittenStopsAtFirstUnconnected | Ledger.ClaimAllPaysConnected |
| src/commons/typeorm/snake-case-naming-strategy.ts:18-21 | the embedded prefix and the column name are concatenated with no separator | property `city` of an embedded `address` gives `addresscity` | `address_city`, a snake-case name | medium (not executed) | NamingStrategy.EmbeddedColumnExample | NamingStrategy.ColumnNameSeparatedJoins |
| src/services/payment.service.ts:504-520 | the CREATED payouts are fetched without their account relation, so reading `paymentAccount.accountId` throws before the transfer is requested and every payout stays CREATED | one CREATED payout (id 1, amount 5000) whose transfer the gateway would accept | load the account with the payouts and transfer each one | medium (not executed) | BatchFindings.TransferNeverReached | Ledger.SettledAll |
