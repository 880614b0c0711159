# Verification of the gateway's money machine

The repository is a model gateway with prepaid wallets. The same fact is kept in several
places: wallet columns, request and budget rows, order and refund statuses, and an
append-only double-entry journal. This project models every committed transaction of the
money services as one atomic step on the whole database, lets steps of all users, operators,
the sweep and the payment provider interleave in any order, and proves what holds in every
reachable state and over every run. The side protocols (refund claims, the provider failover
loop, the event-stream tracker, the replay maps, the path normal form, operator tokens) are
modelled on their own and proved against independent definitions.

How the modules build on each other:

- `Schema`, `Json`, `Text`: the rows, the journal, JSON values, bytes and splitting.
- `Pricing`, `JournalBooks`, `Budgets`, `Identity`, `Billing`, `Payments`: what one transaction
  leaves behind and answers, as functions on the tables.
- `Store`, `GatewayServices`, `IdentityServices`, `PaymentServices`, `RouteServices`: the same
  transactions as the services run them, on a session whose tables are changed column by column
  and then committed or rolled back; each method is proved to leave exactly what its function says.
- `Machine`: all commands, runs, reachable states. `Moves` and `Classify` reduce every command
  to one of thirteen small moves; `Books`, `BudgetSpend`, `Orders`, `Access` prove that each move
  keeps its part of the invariant; `Evolution` says how rows may change.
- `Reachability`, `Constraints`, `History`, `Anomalies`, `Consequences`: the theorems over reachable
  states and runs.
- `Charges`, `Acceptance`, `Claiming`, `Credentials`: what each service call means, stated on the rows and
  entries alone: exactly when it is granted, and everything it then changes.
- `Interleaving`, `Failover`, `RefundClaims`: protocols that look at the database more than once.
- `Streaming`, `Synthesis`, `ReplayCache`, `Paths`, `TokenText`, `OpsTokens`: the side cores.
  `StreamMeaning`, `PathMeaning`, `TokenSoundness` say what they mean without naming how they compute it.

`dafny verify dfyconfig.toml` checks everything.

## Results that differ from what one might expect

- A float charge is the integer ceiling up to a product of 2^34 * 10^6, which covers every product
  below 2^53, and one unit further it is one microUSD short (`Pricing.TokenCostIsExact`,
  `Pricing.TokenCostFirstShortfall`).
- A transaction id is not write-once for every order: an order placed under the provider name
  `test_hmac` can be credited by a test event, which rewrites it. `Consequences.TransactionIdIsRewritable`
  gives the exact condition, `History.TransactionIdRewritten` a reachable case. One configuration of
  the service cannot get there: app/config.py:319-320 refuses live payments together with test payments.
  It takes a payment bridge that is handed to the application while test payments are on, or the same
  database served first under one configuration and then under the other.
- Refund claiming is not mutually exclusive for equal snapshots once the command went back to
  reconciliation: the update then compares the status alone (`RefundClaims.OneSnapshotWinsTwice`);
  without such a move it is (`RefundClaims.SnapshotWinsOnce`). With a clock that advances strictly, only a
  snapshot taken in reconciliation can win twice (`RefundClaims.StrictClockExcludes`); that the clock never
  goes back is not enough, because two equal readings bring the same row back
  (`RefundClaims.EqualReadingsDoNotExclude`).
- A stream line longer than 1 MiB is refused or accepted depending on how the stream is cut
  (`Streaming.LongLinesDependOnChunks`).
- Minting does not look at the size of the clock reading, so with an absurdly large one it makes a token
  its own verifier finds too long (`OpsTokens.HugeClockDoesNotFit`); the exact condition is
  `OpsTokens.MintedTokenFits`.
- The missing-wallet rejections are unreachable except for a budget that is asked for on behalf of no
  existing user (`Anomalies.NoAnomaly`).
- The two path implementations differ on a lone percent sign (`Paths.PythonAllowsMore`), exactly when a
  round meets one (`Paths.TypeScriptAllowsIff`), and beyond ASCII the normal form is not idempotent
  (`Paths.FoldingCanMakeAnEscape`).

## Modelling assumptions

- Each service call is one atomic transaction. Where the code takes a row lock first or writes by a guarded
  update, that follows from the database. Four functions read a row without a lock and then write by its key,
  so for them atomicity is an assumption that the code does not enforce:
  - `settle_model_request` and `release_model_request` (app/services/gateway_billing.py:263, 350) decide on
    the request's status as they read it;
  - `mark_pending_reconciliation` (app/services/gateway_billing.py:398-408) decides on `reserved` and writes by
    primary key. Were the request swept and settled by an operator between its read and its write, the finished
    request would be back in reconciliation with its hold gone, and a release uses another journal key than a
    settlement; `Reachability.FinishedAtMostOnce` and `Failover.SuspendedStays` rest on this not happening;
  - `login` (app/__init__.py:631-645) reads the user's status and inserts the session later. Were a freeze
    committed in between, a session of a frozen user would stay unrevoked; the session clause of
    `Reachability.RiskFreezes` rests on this not happening.

  `prepare_refund` also reads before it swaps, but there the interleavings are modelled and atomicity is
  proved harmless (`RefundClaims.SwapIsAtomicClaim`). The unlocked reads of `process_test_webhook`
  (app/services/payments.py:85-102), `apply_webhook` (app/services/payment_domain.py:256-271) and
  `issue_email_verification` (app/services/identity.py:177) are followed by guarded updates, unique
  constraints or bulk updates that decide again; each is modelled as one step all the same.
- Within one transaction the methods write the journal posting last; the source sets some columns of the
  request, order and refund rows after the posting, before the same commit.
- A row's id is its position in its table: ids are fresh and never reused.
- An exception that leaves a service closes the session, which rolls back; the methods say so with
  an explicit rollback. A unique constraint that fails at a flush or commit is a test at that point.
- A model's price, the outcome of a password check and every clock reading are arguments. A look-up by
  token, e-mail address or digest is an argument that names the row it finds.
- Journal idempotency keys are structured values instead of formatted strings, so a provider name
  that contains a colon cannot make two of them equal.
- HMAC, UTF-8 decoding, case mapping beyond ASCII, and JSON printing and parsing are function
  arguments with stated laws. For operator tokens the printer is defined here, and the parser's law speaks of
  a reader that is defined here too (`TokenText.ReadText`): it does not mention what is printed.

## Model

| member | source | states |
|---|---|---|
| Pricing.TokenCostMonotone | app/services/gateway_billing.py:69-72 | more tokens never cost less, through the rounded binary64 quotient, at every size and price |
| Pricing.TokenCostIsExact | app/services/gateway_billing.py:69-72 | the ceiling of the rounded quotient is the integer ceiling for every product up to 2^34 * 10^6 |
| Pricing.TokenCostFirstShortfall | app/services/gateway_billing.py:69-72 | at the next product the charge is one microUSD below the true ceiling: the bound is the largest possible |
| Pricing.NearestIff | app/services/gateway_billing.py:69-72 | the rounded quotient is the nearest integer, and the even one of two that are equally near; no other integer is |
| Pricing.InputTokenReservationUpperBound | app/services/gateway_billing.py:50-66 | the loop over the two list fields computes the bound, and the bound is at least the token estimate |
| Pricing.EstimateWithinBound | app/services/gateway_billing.py:44-66 | the estimated input never exceeds the input a hold is sized for |
| Pricing.HoldCoversUsage | app/services/gateway_billing.py:97-101 | usage within the input bound and the output limit costs no more than the hold |
| Charges.ExactIsLeast | app/services/gateway_billing.py:69-72 | the exact price is the least whole number of microUSD that covers the tokens |
| Charges.BytesByWidth | app/services/gateway_billing.py:59-66 | the bytes of a text are one for each character, and one more from each of U+0080, U+0800 and U+10000 on |
| Charges.EstimateIs | app/services/gateway_billing.py:44-47 | the estimate is a quarter of the characters, rounded up, and never nothing |
| Charges.HoldIs | app/services/gateway_billing.py:50-101 | the hold is the exact price of the bytes, 4096 and 32 for each message and tool, plus the exact price of the whole output limit, and at least one |
| Charges.ReservationIsGrantedIff | app/services/gateway_billing.py:82-203 | in a reachable state a reservation is granted if and only if account, key, price, output limit, client key, balance and both readings of the budget admit it; refused, it changes nothing |
| Charges.ReservationSetsAside | app/services/gateway_billing.py:132-210 | a granted reservation moves the hold in wallet and bound budget, and writes the row with the prices, the estimate and the creation time it was given, and changes nothing else |
| Charges.SettlementIsGrantedIff | app/services/gateway_billing.py:263-281 | in a reachable state a settlement is granted exactly to the caller whose turn it is, unless a negative cost is stated; refused, it changes nothing |
| Charges.SettlementIsPriced | app/services/gateway_billing.py:266-338 | for products up to 2^34 * 10^6 the charge is the smaller of the hold and the exact price of the reported or stored input plus the exact price of the output; tokens, upstream cost at the provider's two prices, status and estimated flag are recorded with it |
| Charges.SettlementMovesHold | app/services/gateway_billing.py:297-338 | the hold leaves wallet and budget, what is not charged returns to the balance, the charge is spent in the budget, and no other column changes |
| Charges.SettlementBooksPrice | app/services/gateway_billing.py:282-296 | revenue is the whole price whatever part of it was charged, the difference is platform risk, and the provider's price is expense and payable |
| Charges.ReleaseGivesBack | app/services/gateway_billing.py:341-387 | in a reachable state a release by the caller whose turn it is gives the whole hold back and charges nothing; any other changes nothing |
| JournalBooks.NormalizeKeepsTotals | app/services/ledger.py:32-34 | dropping zero amounts changes no sum, in total or of any account, and leaves only nonzero entries |
| Store.Session.PostTransaction | app/services/ledger.py:23-54 | filter, balance check, key check, header and entry loop append exactly one normalized transaction, or report the error and append nothing |
| Budgets.BoundsAreMonth | app/services/budget.py:21-28 | the two computed bounds are the starts of two consecutive calendar months, across year ends |
| Budgets.MonthsTile | app/services/budget.py:21-28 | two months that share an instant or a start are the same month |
| Budgets.MonthLengths | app/services/budget.py:21-28 | the two bounds are 28 to 31 days apart, as the month and the leap year say |
| Consequences.BudgetIsSetIff | app/services/budget.py:31-68 | in a reachable state a budget is set if and only if the amount is positive and the month's current one holds nothing and has spent no more; it starts with everything charged in the month and replaces the current one |
| GatewayServices.ReserveModelRequest | app/services/gateway_billing.py:82-210 | the statements of the reservation leave in the database, and answer, exactly what `Billing.Reserve` says, on every error path too |
| GatewayServices.HoldFunds | app/services/gateway_billing.py:141-171 | the guarded wallet and budget updates take the same hold from both, or report which of them refuses |
| GatewayServices.InsertRequest | app/services/gateway_billing.py:172-203 | request row and balanced posting are committed together, or the duplicate client key undoes everything |
| GatewayServices.ListEntries | app/services/gateway_billing.py:282-296 | the conditionally grown entry list writes the same journal as the full six-entry settlement |
| GatewayServices.SettleModelRequest | app/services/gateway_billing.py:250-338 | the settlement leaves exactly what `Billing.Settle` says for gateway and operator |
| GatewayServices.TakeHold | app/services/gateway_billing.py:297-318 | both guarded updates give up the hold, or name the column that lost it |
| GatewayServices.CloseRequest | app/services/gateway_billing.py:353-387 | wallet, budget, journal and request row change together or not at all |
| GatewayServices.ReleaseModelRequest | app/services/gateway_billing.py:341-387 | the release leaves exactly what `Billing.Release` says, and nothing when the request is not the caller's |
| GatewayServices.MarkPendingReconciliation | app/services/gateway_billing.py:390-408 | only a reserved request is suspended |
| GatewayServices.RecoverStaleModelReservations | app/services/reconciliation_maintenance.py:14-45 | the bulk update suspends exactly the reservations at or before the cutoff and counts them |
| GatewayServices.CreateBudgetFor | app/services/budget.py:31-68 | the replacement leaves exactly what `Budgets.CreateBudget` says, spend carried over |
| IdentityServices.RevokeActiveKeys | app/services/identity.py:163-166 | the bulk update deactivates all keys of the user, no others, and counts those that were active |
| IdentityServices.ApplyUserFreeze | app/services/identity.py:335-360 | the user and every key, session, verification and reset token of the user are shut off, nobody else's |
| IdentityServices.UpdateAccountStatus | app/__init__.py:1518-1561 | freezing and unfreezing leave exactly what `Identity.Freeze` and `Identity.Unfreeze` say |
| IdentityServices.IssueEmailVerification | app/services/identity.py:176-190 | earlier tokens are consumed before the new one is issued |
| IdentityServices.ConsumeEmailVerification | app/services/identity.py:200-223 | an unexpired unconsumed token activates a pending account once |
| IdentityServices.RequestPasswordReset | app/services/identity.py:226-241 | only an active account gets a token, and earlier ones are consumed |
| IdentityServices.ResetPasswordWith | app/services/identity.py:254-309 | a usable token is spent; for an active account every session and key dies with it |
| IdentityServices.CreateApiKey | app/services/identity.py:319-332 | a key is added only to a verified active account below its limit |
| Credentials.RegisteredIs | app/__init__.py:440-462 | registration makes an account that is active and verified or waits for its address, with an empty wallet |
| Credentials.SessionIsOpenedIff | app/__init__.py:625-645 | a session is opened exactly for the right password of an active account, verified where that is required, and lasts until its time |
| Credentials.LogoutEndsAll | app/__init__.py:650-658 | every session of the user is ended, no other, and over any run stays ended |
| Credentials.KeyIsCreatedIff | app/services/identity.py:319-332 | a key is created exactly for a verified active account below its limit |
| Credentials.KeyIsRevokedIff | app/__init__.py:692-709 | a key is revoked exactly by its owner while it is active, and no run makes it active again |
| Credentials.AddressIsVerifiedIff | app/services/identity.py:200-223 | an address is verified exactly by an unspent token within its time of an account that waits for it |
| Credentials.NewVerificationReplacesOld | app/services/identity.py:176-190 | over any run, only the newest verification token can work |
| Credentials.ResetIsAcceptedIff | app/services/identity.py:254-309 | a reset is accepted exactly for a good token of an active owner and an acceptable password; token, keys and sessions end with it; the token of an inactive owner is spent all the same |
| Credentials.ResetWorksOnce | app/services/identity.py:254-309 | over any run a used reset token is refused at every clock reading, and what the reset ended stays ended |
| Credentials.NewResetReplacesOld | app/services/identity.py:226-241 | over any run, only the newest reset token can work |
| Credentials.CancelledNeverWorks | app/services/identity.py:192-197 | a token whose message was not delivered never works, over any run |
| Credentials.FreezeShutsOff | app/services/identity.py:335-360 | a freeze shuts off exactly the user's keys, sessions and tokens of both kinds and counts the active keys; a second one changes nothing |
| Credentials.UnfrozenIff | app/__init__.py:1532-1549 | in a reachable state an account is unfrozen exactly when it is frozen and verified with no refund at risk, and it still has no credential |
| PaymentServices.PaymentDomainService.PlaceOrder | app/services/payment_domain.py:71-166 | the statements leave exactly what `Payments.CreateOrder` says, idempotency and cap included |
| PaymentServices.PaymentDomainService.ClaimCheckout | app/services/payment_domain.py:168-244 | the claim leaves exactly what `Payments.PrepareCheckout` says; an expired claim is committed as suspended and still refused |
| PaymentServices.PaymentDomainService.ReceiveWebhook | app/services/payment_domain.py:246-413 | an event leaves exactly what `Payments.ApplyWebhook` says; a refused one leaves no row |
| PaymentServices.PaymentDomainService.ReceiveProgress | app/services/payment_domain.py:346-368 | pending, failed and closed events change an open order and move no money |
| PaymentServices.PaymentDomainService.ReceivePayment | app/services/payment_domain.py:369-413 | a paid event credits an open order in one commit with its event row |
| PaymentServices.PaymentDomainService.ReceiveRefund | app/services/payment_domain.py:306-345 | a refunded event completes the command in flight or reverses a paid order, in one commit with its event row |
| PaymentServices.PaymentDomainService.ClaimRefund | app/services/payment_domain.py:415-492 | the claim leaves exactly what `Payments.PrepareRefund` says |
| PaymentServices.PaymentDomainService.TakeCredit | app/services/payment_domain.py:561-573 | a covered refund takes the whole credit and posts its reversal |
| PaymentServices.PaymentDomainService.TakeBalance | app/services/payment_domain.py:574-587 | an uncovered refund takes what is there, freezes the account and posts the shortfall as risk |
| PaymentServices.PaymentDomainService.ReverseCredit | app/services/payment_domain.py:494-601 | the reversal answers what `Payments.ApplyRefund` says and leaves it, or leaves the database as committed |
| PaymentServices.PaymentDomainService.DisposeRefundRisk | app/services/payment_domain.py:603-721 | the disposition leaves exactly what `Payments.ResolveRisk` says; a repeated one is read out of the journal |
| PaymentServices.PaymentDomainService.WriteDisposition | app/services/payment_domain.py:684-705 | wallet, journal and refund row of a disposition, with the conditional entry list |
| PaymentServices.PlaceTestOrder | app/services/payments.py:29-42 | test orders within the amount range |
| PaymentServices.ProcessTestWebhook | app/services/payments.py:65-152 | a test event leaves exactly what `Payments.TestWebhook` says |
| RouteServices.RecordCheckout | app/__init__.py:819-869 | the provider's checkout answer is recorded only on an order still requesting it |
| RouteServices.LeaseReconciliation | app/__init__.py:1581-1639 | the operator's lease leaves exactly what `Payments.ClaimReconciliation` says |
| RouteServices.RecordInconclusive | app/__init__.py:1650-1678 | an inconclusive answer keeps an open order with the operators |
| RouteServices.RecordRefundUncertain | app/__init__.py:1802-1829 | an uncertain refund answer suspends the claimed command |
| RouteServices.ReconcileRequest | app/__init__.py:1942-1995 | an operator releases or settles only a request that awaits reconciliation |
| RouteServices.OneClaimIsTheOnly | app/services/payment_domain.py:201-244 | a run that holds a claim of an order holds the only one of every history it is part of, whatever comes before it from any reachable state and whatever comes after it |
| Claiming.OrderIsPlacedIff | app/services/payment_domain.py:71-166 | a new order is placed if and only if the quote is sellable, the account active, the key free and there is room under the cap |
| Claiming.TestOrderIsPlacedIff | app/services/payments.py:29-42 | a test order is placed exactly for 100 to 100,000,000 microUSD |
| Claiming.PlacementRepeats | app/services/payment_domain.py:98-109 | however much later, the same key gets the same order for the same quote and is refused for any other |
| Claiming.CheckoutIsClaimedIff | app/services/payment_domain.py:168-244 | leave to call the provider is given exactly for a pending order of an active account that knows no transaction and no address, and the known address is answered exactly when both are known |
| Claiming.CheckoutIsLeased | app/services/payment_domain.py:204-219 | a claim younger than the lease keeps everyone else out; from then on the next caller hands the order to the operators and is refused all the same |
| Claiming.CheckoutAnswerIsKept | app/__init__.py:819-869 | a pending answer gives the order its transaction and address, which every later caller is sent to; any other leaves the order to the operators, and nobody can claim it again |
| Claiming.LateAnswerChangesNothing | app/__init__.py:819-869 | an answer that comes after the order moved on, or for another order's transaction, changes nothing |
| Claiming.ReconciliationIsLeasedIff | app/__init__.py:1581-1639 | an operator gets the lease exactly on a priced open order that no claim younger than five minutes protects |
| Claiming.OperatorsTakeTurns | app/__init__.py:1602-1639 | as long as nothing ends the lease, another operator waits five minutes for it |
| Claiming.LeaseEnds | app/__init__.py:1650-1740 | an inconclusive answer keeps a pending order with the operators; ending the lease lets the next one in at once |
| Claiming.RefundIsClaimedIff | app/services/payment_domain.py:415-492 | in a reachable state leave to refund is given exactly for a first command of a paid order or one whose lease ran out or outcome is unknown; a completed command is answered without leave; the row records the claim |
| Claiming.RefundIsLeased | app/__init__.py:1802-1829 | an unanswered refund claim holds for the lease; once its answer was uncertain the next caller has it at once |
| RouteServices.CreateLiveCheckout | app/__init__.py:774-869 | only for a verified user is an order found or made, with the provider called exactly when its checkout claim is granted; the call's claim is then the only one of the order in every history around the route's run |
| RouteServices.RefundLivePayment | app/__init__.py:1762-1863 | the provider is called exactly for a granted claim, and then the route's only later write is the reversal for a final answer and the suspension otherwise |
| Reachability.StepKeeps | app/services/payment_domain.py:43-721 | every command of anyone keeps the whole invariant |
| Reachability.WalletsMatchJournal | app/services/ledger.py:32-54 | in every reachable state both wallet columns equal the journal's sums, neither is negative, and every posting is balanced |
| Reachability.ReservedIsHeld | app/services/gateway_billing.py:142-171 | wallet and budget reservations equal the holds of the live requests |
| Reachability.FinishedAtMostOnce | app/services/gateway_billing.py:263-387 | each request has one settlement or release posting exactly when it left the two live statuses |
| Reachability.CreditedAndReversedOnce | app/services/payment_domain.py:376-403 | clearing nets to minus the credit exactly for paid and refunding orders and to zero otherwise; one credit and one reversal at most |
| Reachability.RefundIsAccountedFor | app/services/payment_domain.py:574-587 | a completed refund's credit is recovered, written off or still owed to the last unit; the recomputed debt of one at risk is its original shortfall and positive |
| Reachability.RefundsFollowOrders | app/services/payment_domain.py:466-492 | no refund before refunding, exactly one afterwards, in flight exactly while the order is refunding |
| Reachability.ActiveBudgetIsExact | app/services/budget.py:75-82 | one active budget governs an instant, within its limit, and its spend is everything charged under any budget of that user and month |
| Reachability.SupersededHoldsNothing | app/services/budget.py:49-57 | a superseded budget holds nothing and no live request is bound to it |
| Reachability.RiskFreezes | app/services/payment_domain.py:579-582 | a refund at risk keeps its owner frozen, with no active key, open session or usable reset token |
| Constraints.ConstraintsHold | app/models.py:165-169 | event ids, nonces, transaction ids, provider refund ids, client keys and journal keys are unique in every reachable state |
| History.RunEvolves | app/services/payment_domain.py:246-413 | over any run the journal and the event log only grow, finished requests never change and rows evolve only as allowed |
| History.FinalStatusesStay | app/services/payment_domain.py:346-388 | failed, closed and refunded orders stay so, provider refund ids are write-once, and no completed refund is in flight again |
| History.TransactionIdIsWriteOnce | app/services/payment_domain.py:281-285 | over any run a known transaction id stays, unless the order is under the test provider's name |
| History.TransactionIdRewritten | app/services/payments.py:104-111 | a reachable order whose transaction id a test event replaces |
| History.ClaimedAtMostOnce | app/services/payment_domain.py:201-244 | over any run an order's checkout is claimed at most once, despite crashes, expired leases, early callbacks and operators |
| History.PendingAgainHasTransaction | app/__init__.py:854-865 | no run returns an order to pending without a transaction id |
| History.RecordedEventIsDuplicate | app/services/payment_domain.py:256-263 | a recorded event is, at any later time, a duplicate under the same digest and nonce and a conflict under any other, and changes nothing |
| History.RecordedTestEventIsDuplicate | app/services/payments.py:72-79 | the same for a test event: at any later time a duplicate under its digest and a conflict under any other |
| History.ReusedEventChangesNothing | app/services/payment_domain.py:256-263 | whatever comes under a recorded event id, no row changes |
| History.AppliedEventIsRecorded | app/services/payment_domain.py:300-305 | an applied event can be found again under its digest and nonce |
| Anomalies.NoAnomaly | app/services/gateway_billing.py:305-318 | in no reachable state does any command report an unbalanced posting, a reused journal key, a lost hold, an abnormal refund command or order, or a risk already settled; a wallet is missed only when a budget is asked for an account that does not exist |
| Acceptance.PaymentIsCreditedIff | app/services/payment_domain.py:253-299 | in a reachable state a paid event is applied if and only if its id and nonce are new, it agrees with an open order's provider, price and transaction, says what its type says, names no refund, and no other order has its transaction; then the order is paid, its owner has the credit, one posting books it against clearing, and nothing else changes |
| Acceptance.ProgressIsAppliedIff | app/services/payment_domain.py:346-368 | a pending, failed or closed event is applied if and only if it is new and agrees with an open order; then the order is failed, closed, in reconciliation (pending during a checkout request) or as it was, under the event's transaction, and no wallet and no posting changes |
| Acceptance.FailedIsNeverCredited | app/services/payment_domain.py:346-388 | after an applied failed or closed event the order keeps that status over every run, and is never credited |
| Acceptance.TestEventIsCreditedIff | app/services/payments.py:65-152 | in a reachable state a test event is credited if and only if it is new, names a pending test order and its amount, and its id is no transaction of another order |
| Acceptance.RefundEventIff | app/services/payment_domain.py:306-345 | in a reachable state a refund event gives the credit back if and only if it is new, agrees with a credited order and fits the refund that order has; for an order refunded under its id it is recorded as a duplicate; anything else changes nothing |
| Acceptance.DispositionIsGrantedIff | app/services/payment_domain.py:603-721 | in a reachable state a disposition is new if and only if the refund is at risk, nothing is held, and a recovery finds all that is owed; it takes all, or of a write-off what there is, and repeats exactly for its key and action |
| Acceptance.RefundReversesIff | app/services/payment_domain.py:494-601 | in a reachable state a refund reverses the credit if and only if the order is priced and credited, any refund it has is the one asked for, and no other order's refund has the provider's id; then the whole credit is taken, or what there is and the account frozen; otherwise nothing changes, and a completed refund is answered again under its key and id |
| Consequences.DispositionRepeats | app/services/payment_domain.py:628-645 | repeated at any later time with the same key and action, a disposition reads the same three amounts back and changes nothing |
| Consequences.DispositionSettlesShortfall | app/services/payment_domain.py:656-705 | the first disposition settles exactly the refund's shortfall and leaves no debt |
| Consequences.WriteOffSucceeds | app/services/payment_domain.py:680-721 | once nothing is held, a refund at risk can always be written off |
| Consequences.DebtorOnlyWindsDown | app/services/gateway_billing.py:114-131 | while a refund stays at risk its owner reserves nothing and claims no checkout of any order, those placed meanwhile included, and held money and live holds only decrease |
| Consequences.UsageWithinBoundsIsFullyCharged | app/services/gateway_billing.py:268-291 | a request settled for usage within its bounds, by anyone and however much later, is charged in full, ends settled and books no platform risk |
| Consequences.SettlementSplitsTheCost | app/services/gateway_billing.py:282-296 | the cost is the charge plus the platform risk, the charge stays within the hold, and upstream expense and payable cancel |
| Consequences.SweepSuspendsStale | app/services/reconciliation_maintenance.py:14-45 | for leases from a minute to a day the sweep suspends exactly the reservations that are as old as the lease or older, counts them, and changes nothing else; any other lease is refused |
| Consequences.TransactionIdIsRewritable | app/services/payments.py:85-111 | the next step can rewrite a known transaction id if and only if the order is pending under the test provider's name |
| Failover.GatewaySettles | app/services/gateway_billing.py:263-265 | the gateway's own settlement succeeds if and only if the request is still reserved |
| Failover.SettleOrSuspend | app/__init__.py:1284-1303 | settled for exactly the usage given, or suspended for an operator, but never left reserved |
| Failover.ReadStream | app/__init__.py:1153-1161 | the tracker, fed chunk by chunk, reports counts exactly when the stream was read to its end without an error and up to its end marker |
| Failover.ForwardStream | app/__init__.py:1151-1230 | whether a stream finished follows from its bytes: a finished one settles for what was counted in it, any other ending suspends, and no ending releases |
| Failover.TryProvider | app/__init__.py:1117-1388 | one turn: a whole answer settles for its own usage, a finished stream for what was counted in it, a failure that may be billed suspends, any other gives the hold back or lets the next provider try |
| Failover.LetsNextTryIff | gateway.py:9-28 | the next provider is tried exactly after a failure marked safe, or a bare 429, that is not marked billable nor a bare 5xx |
| Failover.TryInTurn | app/__init__.py:1116-1391 | the loop: everyone before the last contact was passed over, the last one's outcome is the verdict, and served means that the row has that provider's tokens and price |
| Failover.Complete | app/__init__.py:1116-1391 | gapless ordinals; the next provider only after non-billable safe failures; at most one billable contact, the last; the hold is given back only when none was; served if and only if the last contact gave a whole answer or a finished stream and the request was still reserved, and then tokens and charge are that answer's; the fall-through is unreachable |
| Failover.SuspendedStays | app/services/gateway_billing.py:351-352 | a suspended request keeps its whole row over any run in which no operator finishes it |
| Failover.SweptMidLoopKeepsHold | app/services/gateway_billing.py:264-265 | a request the sweep suspends in the middle of the loop ends as the sweep left it |
| RefundClaims.RefundClaimsExclude | app/services/payment_domain.py:428-464 | in every interleaving of reads and swaps, two claims had different snapshots and are a lease apart, or a move to reconciliation came between |
| RefundClaims.SnapshotWinsOnce | app/services/payment_domain.py:441-448 | one snapshot wins once unless the command was moved to reconciliation in between |
| RefundClaims.ClaimsAreALeaseApart | app/services/payment_domain.py:436-451 | successive claims differ by the lease, or a move to reconciliation came between |
| RefundClaims.FirstClaimIsALeaseApart | app/services/payment_domain.py:473-478 | the same for the claim that created the command |
| RefundClaims.StaleSnapshotWinsIff | app/services/payment_domain.py:455-464 | a used snapshot wins again exactly when the row matches again, which takes a move to reconciliation |
| RefundClaims.ClaimedSnapshotWinsOnce | app/services/payment_domain.py:455-464 | where no two claims record the same time, a snapshot outside reconciliation never wins twice |
| RefundClaims.StrictClockExcludes | app/services/payment_domain.py:428-464 | callers that each read a strictly advancing clock and swap once cannot both win with one snapshot, unless it was taken in reconciliation |
| RefundClaims.EqualReadingsDoNotExclude | app/services/payment_domain.py:455-464 | with two equal clock readings they can, for a snapshot outside reconciliation |
| RefundClaims.OneSnapshotWinsTwice | app/__init__.py:1807-1828 | two callers win with one snapshot taken in reconciliation |
| RefundClaims.SwapIsAtomicClaim | app/services/payment_domain.py:441-464 | a winning swap does what the whole claim would do at that instant, a losing one nothing |
| RefundClaims.ReadThenSwap | app/services/payment_domain.py:428-464 | an undisturbed read and swap is the atomic claim |
| Streaming.SSEUsageTracker.Feed | app/streaming.py:25-34 | the line loop counts the complete lines of the buffer and keeps its unfinished tail |
| Streaming.SSEUsageTracker.Finish | app/streaming.py:36-39 | an unfinished line that is not blank is counted |
| Streaming.SSEUsageTracker.ParseLine | app/streaming.py:41-82 | one line is counted as the line specification says, both nested loops included |
| Streaming.SSEUsageTracker.Receive | app/__init__.py:1153-1155 | feeding every chunk stops at the first error and leaves the counters of what was received |
| Streaming.SSEUsageTracker.Consume | app/__init__.py:1153-1156 | feeding every chunk and finishing ends as one parse of the whole stream |
| Streaming.FedSoFar | app/streaming.py:25-34 | after every chunk the buffer is the newline-free tail and the counters are those of the complete lines |
| Streaming.ChunkingDoesNotMatter | app/streaming.py:25-82 | for lines up to 1 MiB and totals within the limit, every chunking ends in the same counters or fails alike |
| Streaming.TooManyBytesFail | app/streaming.py:26-28 | no chunking of a stream beyond the total limit is accepted |
| Streaming.LongLinesDependOnChunks | app/streaming.py:30-31 | with any longer line, complete or unfinished, after lines that are counted, byte-wise feeding is refused for it, and one piece is not if the stream has a line break |
| Streaming.NoLineBreakIsRefused | app/streaming.py:30-31 | a stream over 1 MiB, within the total limit and without any line break, is refused for its line however it is cut |
| StreamMeaning.LineMeans | app/streaming.py:41-56 | a data line is an event, the end marker, nothing or an error, by the text between its white space |
| StreamMeaning.EventsMean | app/streaming.py:57-82 | the counters of any events are the length of the text they spoke, contents and call arguments, and the last counts they gave |
| Synthesis.SynthesizeSse | app/streaming.py:101-142 | the loop prints two events for each choice, one for the usage, and the end marker |
| Synthesis.SynthesizedStreamIsDone | app/streaming.py:101-142 | a printed response, fed in any chunks, sets done, fails nowhere and counts exactly the printed events |
| Synthesis.PrintedResponseSettlesAlike | app/services/gateway_billing.py:238-247 | settling what was counted in the print charges what settling the response charges when usage is valid, and the estimated flags always agree |
| Synthesis.SettlementResponseReports | app/streaming.py:84-98 | a settlement response always reports usage, counted or estimated |
| StreamMeaning.PrintSpeaks | app/streaming.py:101-142 | the print of a response speaks exactly the messages of its choices |
| StreamMeaning.PrintedHeadIs | app/streaming.py:101-117 | every printed event is marked as a chunk and names the response's model, or the one asked for where it names none |
| StreamMeaning.PrintedChoiceIs | app/streaming.py:114-136 | the two events of a choice carry its index, its message, and at the end its finish reason |
| StreamMeaning.PrintIsSettledFor | app/streaming.py:84-98 | a response without usage is settled, through its print, for the fallback input and a quarter of what its messages say; one with a count is settled for that count |
| StreamMeaning.UsageIsReportedIff | app/services/gateway_billing.py:238-247 | a whole answer is settled for its two counts exactly when it gives both |
| ReplayCache.PaymentBridge.VerifyWebhook | app/services/live_payments.py:354-401 | both maps stay one queue of the newest 10,000 events, and the answer is the one maps with those entries give |
| ReplayCache.PaymentBridge.EvictOldest | app/services/live_payments.py:394-397 | both eviction loops cut the two maps at the same entry |
| ReplayCache.CapIsInvisibleIff | app/services/live_payments.py:391-397 | the bounded maps answer as unbounded ones if and only if the nonce or event is among the newest 10,000 or was never accepted |
| ReplayCache.JudgeIff | app/services/live_payments.py:354-388 | a pair the maps hold is a duplicate, an event of which they know neither nonce nor id is new, and everything else well-formed is a conflict |
| ReplayCache.WindowIs | app/services/live_payments.py:394-397 | the maps hold the newest 10,000 accepted events, or all of them |
| ReplayCache.AcceptedIsRemembered | app/services/live_payments.py:355-388 | an accepted pair is a duplicate, and a reuse of its nonce or event a conflict, as long as at most 9,999 newer events were accepted |
| Paths.CanonicalPath | app/vercel.py:30-56 | the loops compute the Python normal form |
| Paths.DecodedPath | src/request.ts:52-79 | the loops compute the TypeScript normal form |
| Paths.DecodingShrinks | app/vercel.py:37-42 | a decoding round leaves the text alone or makes it strictly shorter |
| Paths.StableIsFixed | app/vercel.py:37-46 | whatever is accepted was decoded to a fixed point |
| Paths.CanonicalIsIdempotent | app/vercel.py:30-56 | for a path that decodes to ASCII the normal form is its own normal form and has only clean segments |
| Paths.FoldingCanMakeAnEscape | app/vercel.py:56 | beyond ASCII case folding can complete an escape, and the normal form has none |
| Paths.SegmentsAreClean | app/vercel.py:47-55 | no segment is empty, a dot segment, or holds a slash or backslash |
| PathMeaning.DotsTakeBack | app/vercel.py:47-54 | wherever they are, two dots take back the clean segment before them: `a/s/../rest` has the segments of `a/rest` |
| PathMeaning.DotsStayAtRoot | app/vercel.py:51-54 | at the root two dots take nothing back |
| PathMeaning.NothingIsSkipped | src/request.ts:70-72 | empty parts and single dots mean nothing |
| PathMeaning.BackslashSeparates | app/vercel.py:47-48 | a backslash separates as a slash does |
| PathMeaning.AllowedIff | app/vercel.py:30-65 | a path that decodes to ASCII is allowed if and only if it decodes to a fixed text without control characters whose segments do not begin with an operator route |
| PathMeaning.ClimbsAreRefused | app/vercel.py:47-65 | whatever climbs out of any clean prefix and then leads to an operator route is refused, under any decoder |
| PathMeaning.EncodedClimbsAreRefused | src/request.ts:52-86 | the same for both implementations and in any number of layers of encoding |
| PathMeaning.SevenLayersComeOff | app/vercel.py:35-46 | up to seven layers of encoding come off; with eight or more the path is refused |
| PathMeaning.EscapesName | src/request.ts:57 | an escape stands for the byte its two digits name |
| Paths.DecodeUndoesEncode | src/request.ts:57 | one round undoes one layer of encoding, whichever characters it covered, in both languages |
| Paths.LayersCannotHide | app/vercel.py:37-65 | what decodes to a path is allowed only if the path is, under the same normal form |
| Paths.EncodedPathIsAllowedOnlyIfPathIs | app/vercel.py:59-65 | no number of encoding layers gets an ASCII path through that would be refused plain |
| Paths.TypeScriptAllowsNoMore | src/request.ts:81-86 | for paths that decode to ASCII, whatever TypeScript allows Python allows under the same normal form |
| Paths.TypeScriptAllowsIff | src/request.ts:52-86 | of the ASCII paths Python allows, TypeScript allows exactly those whose every round decodes a well-formed text |
| Paths.PythonAllowsMore | src/request.ts:57-66 | a lone percent sign is allowed by Python and refused by TypeScript |
| OpsTokens.DecodeUndoesEncode | app/services/ops_tokens.py:39-48 | unpadded base64url decoding undoes encoding for every byte string |
| OpsTokens.MintedTokenFits | app/services/ops_tokens.py:65-99 | a minted token is within the verifier's 4096 characters if and only if its variable parts print in 2946 characters; two times of at most 190 characters always do |
| OpsTokens.HugeClockDoesNotFit | app/services/ops_tokens.py:65-99 | a clock reading of 2947 digits or more mints a token the verifier finds too long |
| OpsTokens.MintedTokenVerifiesIff | app/services/ops_tokens.py:56-147 | a minted token verifies, with what it was minted with, exactly when it fits, the required scope was minted and iat - 30 <= now < iat + ttl, for every clock |
| TokenText.PayloadReadsBack | app/services/ops_tokens.py:65-88 | the printed payload, read as JSON, is the object of its claims, for every subject, id, time and set of scopes |
| TokenSoundness.MintedIff | app/services/ops_tokens.py:51-64 | a token is minted exactly with a secret of 32 bytes, for a subject of 1 to 200 characters, some known scopes, and 30 to 900 seconds |
| TokenSoundness.VerifiedIff | app/services/ops_tokens.py:91-147 | any token verifies with given claims if and only if it has at most 4096 characters, is `ops1.e.s` with e ASCII, s decodes to the digest of `ops1.e`, and e decodes and parses to those claims for the audience, which grant the scope at this time |
| TokenSoundness.DecodedIsEncoded | app/services/ops_tokens.py:43-48 | whatever decodes to some bytes is, padding and the spelling of the last two digits aside, their encoding up to the spare bits of its last digit |
| TokenSoundness.PaddingMayBeThere | app/services/ops_tokens.py:43-48 | a text decodes as it does without its padding, of which it may have any part but no more than completes its last quartet |
| TokenSoundness.ReadIff | app/services/ops_tokens.py:43-48 | a character is read as a digit exactly when it is that digit, or plus or slash in place of the last two |

## Left out

- OpsTokens.MintedTokenFits: integers print and parse at any length; the runtime's own limit for both, 4300 digits by default, is not modelled. It lies beyond the sizes that fit.
- Charges.SettlementIsPriced: states the price for products up to 2^34 * 10^6; beyond it the charge is the ceiling of the rounded quotient, which need not be the exact price, as `Pricing.TokenCostFirstShortfall` shows.
- PathMeaning.ClimbsAreRefused: the segments that lead on from the root are ASCII, as for the other results on the normal form.
- Paths.CanonicalIsIdempotent: the final decoded value is required to be ASCII, because beyond ASCII it fails, as `Paths.FoldingCanMakeAnEscape` shows.
- RefundClaims.RefundClaimsExclude: assumes a positive lease; the route always uses five minutes.
- Synthesis.SynthesizeSse: the completion id and creation time are arguments, and texts that cannot be encoded as UTF-8 are not modelled.
- Pricing.TokenCostMonotone: quotients from 2^1024, where the source raises an overflow error, are treated as ordinary numbers.
- Sub-transaction interleavings of settlement and release of one request, which the code does not lock against.
- Mutual exclusion of the operators' reconciliation lease: the last write of the route clears it unconditionally.
- The last write of the reconciliation route shares the session of its webhook; it is modelled as a command of its own.
- The claim time of a refund row that `apply_refund` itself creates: it is never read and is set to zero.
- Text columns for human readers (risk reasons, failure categories, final model and provider, fallback counts), completion times, outbox events, operator audit rows and safety audits.
- HTTP status codes and messages: each rejection is a tag.
- E-mail addresses and their uniqueness, password hashing, delivery of messages, rate limits, sessions beyond their revocation.
- Uniqueness of attempt rows in the database: attempts are the list the loop returns.
- The content-safety service: its verdict changes the answer after settlement, not the money; an interruption there is one of the provider outcomes.
- Upper-case tests of currencies are modelled for ASCII letters.
- The global cap on open orders when test orders exist, which test orders do not respect.
- Lock order and deadlocks, HTTP routing, schemas, security headers, provider and bridge HTTP clients, configuration, migrations, metrics.
