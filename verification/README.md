# Vexaro shipping backend: a verified model

This project models the parts of the Vexaro logistics backend in which several steps have to
agree, and proves what they promise together. Amounts are integer paise.

| files | what they model |
|---|---|
| `Ledger`, `References` | wallets, the append-only ledger, `applyTransaction`, and the texts of ledger references |
| `Snapshot`, `SessionReferences`, `SessionEscrow` | the same money step and COD deposits under concurrent replica-set sessions; when references stay unique overall; what becomes of escrow |
| `Standalone`, `Duplicates` | the fallback without sessions, statement by statement; exactly when a duplicate moves money twice |
| `Services`, `Protocol`, `Runs`, `Guarantees`, `Payouts`, `PaymentRows`, `Lifecycles` | booking, cancellation, RTO, delivery, COD, disputes, refunds, settlements, Razorpay, carrier webhooks and cron jobs as one transition system; what each step keeps; what holds after any run |
| `Effects`, `Outcomes`, `ShipmentOutcomes`, `Journey`, `RoundTrips` | the same services one by one from outside: exactly when each succeeds and what it does to balances, rows and records; the life of a COD shipment from booking to remittance; commands that answer each other |
| `Sequential` | the concurrent money steps, left alone, are the sequential one |
| `Backend`, `Unsessioned`, `UnsessionedRuns`, `Program` | the services as imperative methods over stored maps, each proved against its function in `Services`; what a failed one leaves without sessions, and what still holds after any run of such services; the commands of a run carried out by the methods, with the guarantees for the store |
| `CacheSpec`, `Recency`, `CacheLaws`, `CachedValidator`, `ValidationCache` | the validation cache: values, the recency list it refines under LRU, bounds and reference map, the caching wrapper, the class |
| `Idempotency` | the idempotency-key lock |
| `Phone` | phone cleaning, decoding, validation, display |
| `Csv` | the CSV export and a reader for it |
| `Pricing`, `PriceLaws` | slab choice, booked cost, quote, stored weights; what slab, weight, surcharge, COD, markup and margin each do to a price |
| `RateCache`, `RateCards` | glob invalidation and the rate cards behind the cache |

`dafny verify dfyconfig.toml` checks everything.

## Assumptions about the environment

- Replica-set mode: a session reads the snapshot it began with plus its own writes; updating a
  wallet that another open session has written, or that was committed since, aborts it; commit
  installs its writes at once. `Runs` takes each service call as one committed or aborted session.
- Standalone mode: one `findOneAndUpdate` or `find` is atomic, nothing else is.
- Waybills come from the generator, so they begin `VX-`; a settlement's free-text reference does
  not spell a generated one. The results that take each Razorpay payment id to belong to one order
  say so (`OneOrder`); those of `PaymentRows` do not.
  References are taken as stored, after the schema's trimming.
- User references that the database layer fills in with the user's document are taken as the user's id.
- Clock stamps, carrier answers, signature validity and user-directory facts are inputs.
- In the booking saga results, carrier writes across CANCELLED are excluded (`NoCarrierCancel`);
  for a shipment that was charged, `Protocol.StatusWriteKeepsSaga` shows this is exactly what to exclude.

## What the code does that its documentation does not say

- A distributor-to-merchant transfer uses one reference for both legs, so the merchant is never
  credited (`Ledger.SharedReferenceTransferLosesCredit`).
- SETTLEMENT is a debit of the receiving user, although reports list it as a credit; a settlement
  under a reference already used is marked completed without moving money
  (`Guarantees.SettlementMoves`).
- Deduplication by reference is a read without a unique index. Under sessions the ledger keeps
  references unique exactly when no reference is used for two wallets
  (`SessionReferences.UniqueExactly`), which holds of the generated ones except a transfer's and
  those stamped in the same millisecond for two wallets. Without sessions repeating
  a call is safe exactly when every earlier attempt has ended (`Duplicates.RetrySafeExactly`).
- Without sessions a failed two-leg charge keeps its first leg (`Unsessioned.FailedLegsKeepFirst`);
  the books still balance (`UnsessionedRuns.KeptRunSound`).
- A payment refunded by the gateway can still be marked failed, its credit standing
  (`Lifecycles.CreditedFailsExactly`).
- A quote and the booked price agree for every card exactly without markup and margin percentage
  and with a flat margin of whole paise (`Pricing.AsQuotedExactly`).
- Deleting cached keys by prefix misses exactly those with a line terminator after the prefix
  (`RateCache.EscapesExactly`).
- Bare ten-digit Indian mobile numbers that begin 916 to 919 are rejected (`Phone.BareMobile`).
- The dimensions are priced but not stored, so saving a shipment forgets its volumetric weight
  (`Pricing.BookAndSave`).
- A TTL cache in which nothing can expire grows past its maximum (`CacheLaws.SetFits`).

## Model

| member | source | states |
|---|---|---|
| Ledger.ApplySound | src/modules/finance/services/payment.service.js:12-65 | a money step on books whose balances are the fold of the ledger from 0, whose rows chain and whose references do not repeat leaves such books |
| Ledger.ApplyFinds | src/modules/finance/services/payment.service.js:17-23 | after a step a reference leads to its old row if it had one, else to the new row if the step carried it |
| Ledger.ReplayMovesNothing | src/modules/finance/services/payment.service.js:17-23 | a second call under a used reference, whatever its wallet, type or amount, changes nothing and is flagged as processed |
| Ledger.MovementOfFound | src/modules/finance/finance.model.js:72-77 | with unique references, all money moved under a reference is that of its one row |
| Ledger.FirstUseIsPosting | src/modules/finance/services/payment.service.js:17-23 | call i of a batch posts if and only if it succeeds and no row and no earlier successful call carries its reference |
| Ledger.BatchMovesFirstUses | src/modules/finance/services/payment.service.js:17-65 | a batch with retries and failures moves a balance by exactly the signed sum over the first successful use of each reference |
| Ledger.BatchSound | src/modules/finance/services/payment.service.js:12-65 | soundness of the books over any batch |
| Ledger.SharedReferenceTransferLosesCredit | src/modules/finance/services/wallet.service.js:84-97 | as written, a fresh distributor-to-merchant transfer debits the distributor, appends one row and credits nobody |
| Ledger.TransferConserves | src/modules/finance/services/wallet.service.js:84-97 | a transfer keeps the sum of the two balances if and only if the credit's reference is used before, or by the debit, exactly when the debit's is used before |
| References.TextInjective | src/modules/shipments/services/shipment-delete.service.js:18-38 | no two generated references (event, key, leg) have the same text |
| References.RefundFamilies | src/modules/finance/services/refund.service.js:52-62 | the three families of references that begin REFUND- cannot meet |
| References.PrefixIsNeeded | src/modules/finance/services/refund-request.service.js:189-197 | without the VX- prefix of waybills a shipment refund could take a refund request's reference |
| Snapshot.CommittedLedgerChains | src/utils/transaction.js:25-42 | for any interleaving of sessions each wallet's committed rows chain from opening to committed balance and carry no reference twice |
| Snapshot.AfterKeeps | src/utils/transaction.js:30-36 | the invariant behind it, over every prefix of every interleaving, open sessions included |
| Snapshot.RunKeeps | src/modules/finance/services/payment.service.js:12-65 | a money step inside an open session keeps that invariant, whether it succeeds, replays, fails or conflicts |
| Snapshot.CommitKeeps | src/utils/transaction.js:34 | installing a session's wallets and rows keeps it for all other open sessions |
| Snapshot.TwoWalletsBothCommit | src/modules/finance/finance.model.js:72-77 | any two overlapping calls on different wallets, each of which would succeed alone, both commit, even under one reference |
| Snapshot.SameWalletConflicts | src/utils/wallet.js:21-34 | on one wallet the same schedule commits one row only, for any call that would succeed alone |
| Snapshot.DeliverKeeps | src/modules/shipments/services/shipment-status.service.js:130-139 | a delivery's escrow increment inside an open session keeps the invariant of every other session, or conflicts |
| SessionReferences.GlobalUnique | src/modules/finance/services/payment.service.js:17-23 | if all calls under a reference name one wallet, then for every interleaving the committed ledger holds each reference once |
| SessionReferences.UniqueExactly | src/modules/finance/finance.model.js:72-77 | for any set of calls, every interleaving of sessions made of them keeps references unique if and only if no reference is used for two wallets |
| SessionReferences.GeneratedReferencesUnique | src/modules/shipments/services/shipment-delete.service.js:18-38 | so generated references, where each is for one wallet, as that of an event, key and leg is and a transfer's is not, are deduplicated under concurrent sessions |
| SessionEscrow.CommittedEscrow | src/modules/shipments/services/shipment-status.service.js:120-139 | for any interleaving committed escrow is the opening escrow plus the committed deliveries' deposits less what the committed rows released |
| Sequential.SessionIsApply | src/utils/transaction.js:25-42 | a session nobody disturbs commits exactly what the sequential step makes of the books |
| Standalone.BalanceCountsUpdates | src/utils/wallet.js:17-76 | without sessions, for any interleaving split at read, check, update and insert, a balance is the opening balance plus the signed sum of the operations past their update, logged or not; the ledger accounts for the logged ones; escrow has gained the deposits and lost what was released |
| Standalone.AdvanceAccounts | src/modules/finance/services/payment.service.js:34-65 | one statement of one operation keeps that account |
| Standalone.NeverNegative | src/utils/wallet.js:21-34 | the guards alone keep balance and escrow from going negative under any interleaving |
| Standalone.GuardedUpdateNegative | src/utils/wallet.js:54-66 | exactly when one guarded update goes negative: a credit of a negative amount larger than the balance |
| Sequential.AloneIsApply | src/modules/finance/services/payment.service.js:12-65 | without sessions an operation nobody disturbs moves exactly what the sequential step moves |
| Standalone.DuplicateIsChargedTwice | src/utils/transaction.js:25-29 | for one: a request delivered twice at once is charged twice and its rows do not chain |
| Duplicates.SpacedCallsPostOnce | src/modules/finance/services/payment.service.js:17-23 | without sessions, if every keyed call is of at least one paisa and made after all earlier calls under its reference have ended, then under every interleaving each reference moves money at most once and is in the ledger once |
| Duplicates.BothPostExactly | src/modules/finance/services/payment.service.js:17-65 | two operations under one reference have both moved the wallet if and only if one passed its reference check while the other was past its own without a row, and both got through their guarded update |
| Duplicates.RetryPostsTwice | src/utils/transaction.js:25-29 | from every state with an attempt that has passed its check and inserted no row, a retry and some schedule move the wallet twice |
| Duplicates.RetryBreaksLedger | src/modules/finance/finance.model.js:72-77 | and then the ledger holds the reference twice, unless the first row was rejected |
| Duplicates.RetrySafeExactly | src/modules/finance/services/payment.service.js:17-65 | repeating a call is safe under every schedule if and only if every earlier attempt has ended |
| Protocol.PostView | src/modules/finance/services/payment.service.js:12-65 | what a posting does to the ledger seen through references: only its own reference may be new, and then with the caller's user, type and amount |
| Protocol.PostLegsView | src/modules/shipments/services/shipment-delete.service.js:18-38 | the same for merchant and distributor legs, with and without skipping zero amounts |
| Protocol.BookLegs | src/modules/shipments/services/shipment-create.service.js:180-225 | booking charges each leg its cost, once, and keeps every other shipment's legs |
| Protocol.RefundLegs | src/modules/shipments/services/shipment-delete.service.js:18-47 | a refund returns each leg exactly its cost |
| Protocol.RtoLegs | src/modules/shipments/services/shipment-status.service.js:63-91 | RTO charges each leg 40 rupees, at most once |
| Protocol.RaiseLegs | src/modules/disputes/services/weight-dispute.service.js:24-66 | a dispute charges each leg its extra amount |
| Protocol.ResolveLegs | src/modules/disputes/services/dispute-resolution.service.js:55-87 | a verdict keeps the agreement of legs and dispute: a return row of the extra is there if and only if the dispute is approved |
| Protocol.StatusWriteKeepsSaga | src/modules/shipments/services/shipment-webhook.service.js:57-81 | a status written without money keeps "CANCELLED means refunded" if and only if it does not cross into or out of CANCELLED |
| Protocol.DeliverKeepsEscrow | src/modules/shipments/services/shipment-status.service.js:110-145 | a delivery keeps escrow equal to what is owed if and only if it is not COD, or the merchant's wallet exists and is active or nothing is collected |
| Protocol.OwedUpdate | src/modules/finance/finance.model.js:131-137 | how one COD record changes the sum owed to a merchant |
| Protocol.StageKeepsEscrow | src/modules/finance/services/cod.service.js:34-44 | settling a COD record with Vexaro keeps the escrow equation |
| Protocol.ReleaseKeepsEscrow | src/modules/finance/services/cod.service.js:46-76 | remitting it keeps the escrow equation |
| Protocol.RemitNeverShort | src/modules/finance/services/payment.service.js:36-39 | the insufficient-escrow branch is dead for a settled COD; remittance succeeds if and only if the wallet is active and the amount is at least one paisa |
| Protocol.CreditKeepsPayments | src/modules/finance/razorpay.service.js:174-193 | crediting a payment keeps: a success has its row, a row belongs to its order |
| Protocol.SharedPaymentIdCreditsOnce | src/modules/finance/razorpay.service.js:302-328 | a payment id already credited for another order turns this order into a success that credits nothing |
| Protocol.CaptureCreditsExactly | src/modules/finance/razorpay.service.js:302-328 | a capture of an order not yet successful moves no money if and only if the payment id was credited before, and otherwise exactly the order's amount |
| Protocol.ProcessKeepsRequests | src/modules/finance/services/refund-request.service.js:181-222 | a request is approved if and only if its refund row exists with its merchant and amount |
| Effects.ApplyExactly | src/modules/finance/services/payment.service.js:12-65 | the money step succeeds exactly for an active wallet, under a used reference or with a positive amount that leaves neither balance nor escrow short; per type, which way balance and escrow move; a used reference moves nothing |
| Effects.CreditExactly | src/utils/wallet.js:50-76 | top-ups, refunds and incoming transfers put exactly the amount into an active wallet, with one row; nothing else changes |
| Effects.DebitExactly | src/utils/wallet.js:17-45 | charges, settlements and outgoing transfers take it from one that has it |
| Effects.ReleaseExactly | src/modules/finance/services/payment.service.js:36-50 | a remittance moves it from escrow to balance |
| Effects.CreditLegs | src/modules/shipments/services/shipment-delete.service.js:20-38 | refunding both legs succeeds exactly when each can be credited or was before, and credits each new one to its party; the rows to show for it |
| Effects.DebitLegs | src/modules/shipments/services/shipment-create.service.js:180-192 | charging both legs needs the money as well, the distributor's after the merchant's if they are one |
| Outcomes.WalletCreated | src/modules/finance/services/wallet.service.js:11-15 | a new wallet is empty and active, one that exists is kept |
| Outcomes.TopupOutcome | src/modules/finance/services/wallet.service.js:42-64 | a permitted top-up under a new reference succeeds exactly for an active wallet and a positive amount; then the target has the amount more and one TOPUP row, and nobody else anything |
| Outcomes.ManualRefundOutcome | src/modules/finance/services/refund.service.js:43-63 | the same for a refund by hand |
| Outcomes.TransferOutcome | src/modules/finance/services/wallet.service.js:66-119 | exactly when a transfer succeeds; it takes the amount from the distributor and gives it to nobody |
| Outcomes.RequestOutcome | src/modules/finance/services/refund-request.service.js:37-89 | exactly when a merchant may ask for a refund, and what is recorded |
| Outcomes.DecisionOutcome | src/modules/finance/services/refund-request.service.js:146-222 | approval pays the merchant the amount asked and marks the request approved; rejection, with a note, pays nothing and marks it rejected; exactly when each succeeds |
| Outcomes.ApprovalPays | src/modules/finance/services/refund-request.service.js:181-222 | after any run an approval always pays |
| Outcomes.SettlementCreated | src/modules/finance/services/settlement.service.js:30-75 | exactly when a settlement may be created, and what is recorded |
| Outcomes.SettlementOutcome | src/modules/finance/services/settlement.service.js:77-117 | success takes the amount from the receiver and completes, failure moves nothing and fails; exactly when each succeeds |
| Outcomes.OrderOutcome | src/modules/finance/razorpay.service.js:49-82 | an order of at least 100 rupees for an active wallet is stored pending |
| Outcomes.VerifyOutcome | src/modules/finance/razorpay.service.js:160-193 | one's own unfinished payment, well signed: no error exactly when the wallet is active and the id used or the amount positive; then SUCCESS under that id and, if the id was new, exactly the amount in the owner's wallet |
| Outcomes.VerifiedIsSuccess | src/modules/finance/razorpay.service.js:102-193 | whenever verification reports no error the payment is a SUCCESS |
| Outcomes.OtherVerification | src/modules/finance/razorpay.service.js:102-142 | any other verification changes nothing |
| Outcomes.BadSignatureOutcome | src/modules/finance/razorpay.service.js:143-157 | a bad signature fails the payment and moves nothing |
| Outcomes.CaptureOutcome | src/modules/finance/razorpay.service.js:302-342 | a capture of an order that is no success yet succeeds, and credits, under the same condition; any other changes nothing |
| Outcomes.GatewayEvents | src/modules/finance/razorpay.service.js:344-376 | a reported failure fails a pending payment only, a refund marks a success under its id only |
| ShipmentOutcomes.TransitionsAreSteps | src/modules/shipments/shipment.model.js:5-14 | the status graph has exactly its eight edges |
| ShipmentOutcomes.AccessExactly | src/modules/shipments/shared/shipment.helpers.js:70-74 | who may touch a shipment: an administrator, or one of its parties |
| ShipmentOutcomes.RolesExactly | src/modules/shipments/services/shipment-status.service.js:20-41 | of the graph's steps a merchant may only cancel, a warehouse anything but cancel |
| ShipmentOutcomes.RefusedStatus | src/modules/shipments/services/shipment-status.service.js:15-54 | which error a status change gets, in terms of shipment, caller and graph; a repeated status is no change |
| ShipmentOutcomes.StopOutcome | src/modules/shipments/services/shipment-status.service.js:163-165 | a stop on the way writes the status and its history entry only |
| ShipmentOutcomes.CancelOutcome | src/modules/shipments/services/shipment-status.service.js:56-61 | cancelling succeeds exactly when the wallets to refund are active, and returns each leg its cost |
| ShipmentOutcomes.DeleteOutcome | src/modules/shipments/services/shipment-delete.service.js:50-71 | deleting is cancelling once the carrier has cancelled |
| ShipmentOutcomes.RtoOutcome | src/modules/shipments/services/shipment-status.service.js:63-91 | RTO succeeds exactly when both parties can pay 40 rupees, and charges each |
| ShipmentOutcomes.RtoCharges | src/modules/shipments/services/shipment-status.service.js:67-83 | after any run, an RTO leaves every leg charged 40 rupees for it |
| ShipmentOutcomes.DeliveryOutcome | src/modules/shipments/services/shipment-status.service.js:110-145 | a delivery succeeds exactly when it is prepaid, or has no COD record and nothing negative to collect; then record, escrow and payout state, exactly |
| ShipmentOutcomes.BookOutcome | src/modules/shipments/services/shipment-create.service.js:177-229 | exactly when a booking succeeds, what it charges whom, and the draft it stores |
| ShipmentOutcomes.CompensationOutcome | src/modules/shipments/services/shipment-create.service.js:243-275 | exactly when a compensation succeeds, and what it returns |
| ShipmentOutcomes.EditOutcome | src/modules/shipments/services/shipment-update.service.js:7-32 | exactly when an edit succeeds, and which fields it writes |
| ShipmentOutcomes.EventsExactly | src/modules/shipments/services/shipment-webhook.service.js:31-50 | which event names stand for which status |
| ShipmentOutcomes.EventOutcome | src/modules/shipments/services/shipment-webhook.service.js:52-82 | what a carrier event writes, and when it is refused |
| ShipmentOutcomes.RemitOutcome | src/modules/finance/services/cod.service.js:26-91 | both stages of remittance: exactly when each succeeds; the second moves the amount from escrow to balance |
| ShipmentOutcomes.RaiseOutcome | src/modules/disputes/services/weight-dispute.service.js:13-80 | exactly when a dispute can be raised; it charges each leg and stays open three days |
| ShipmentOutcomes.ProofOutcome | src/modules/disputes/services/weight-dispute.service.js:91-110 | open disputes of one's own shipments only |
| ShipmentOutcomes.VerdictOutcome | src/modules/disputes/services/dispute-resolution.service.js:37-101 | approval marks the dispute approved and returns each leg the extra, rejection marks it rejected and moves nothing; exactly when each succeeds |
| ShipmentOutcomes.ApprovalReturns | src/modules/disputes/services/dispute-resolution.service.js:55-80 | after any run an approval pays the extra to each party, and every leg shows its return |
| ShipmentOutcomes.ExpiryOutcome | src/utils/scheduler.js:67-83 | exactly the open disputes past their window expire |
| ShipmentOutcomes.LapsesAfterThreeDays | src/modules/disputes/services/weight-dispute.service.js:54-66 | an unanswered dispute lapses after exactly three days |
| Journey.CodLife | src/modules/finance/services/cod.service.js:26-91 | a COD shipment booked, carried, delivered, settled and remitted: each party is out its price, the merchant has the amount collected, escrow is as before |
| RoundTrips.ApprovedRoundTrip | src/modules/disputes/services/dispute-resolution.service.js:55-87 | a dispute raised and approved leaves every balance as it was |
| RoundTrips.RejectedRoundTrip | src/modules/disputes/services/dispute-resolution.service.js:82-84 | raised and rejected, each party is out the extra charge |
| RoundTrips.PaidOnce | src/modules/finance/razorpay.service.js:102-342 | an order verified, then captured, is paid once |
| RoundTrips.CapturedFirst | src/modules/finance/razorpay.service.js:102-342 | captured, then verified, likewise |
| RoundTrips.FundedWallet | src/modules/finance/services/wallet.service.js:42-64 | a new wallet topped up holds exactly the amount |
| RoundTrips.RefundPaidOnce | src/modules/finance/services/refund-request.service.js:37-222 | a refund asked for and approved is paid once |
| Runs.MoneyView | src/modules/finance/services/payment.service.js:12-65 | which references each wallet, refund and settlement command can add, and that none of them touches escrow |
| Runs.MoneyRequests | src/modules/finance/services/refund-request.service.js:146-222 | refund requests agree with the ledger after any money command |
| Runs.PayCredits | src/modules/finance/razorpay.service.js:102-193 | a payment command credits at most the payment it names; anything else it writes is not a success |
| Runs.ContestLegs | src/modules/disputes/services/dispute-resolution.service.js:37-87 | every dispute command keeps every leg's postings |
| Runs.StatusWrites | src/modules/shipments/services/shipment-status.service.js:15-165 | a status change writes one shipment and appends the new status to its history |
| Runs.ShipWrites | src/modules/shipments/shipment.model.js:199-215 | every shipping command, a stale save of the poll included, writes at most its own shipment, never its costs or owner, and changes the status only together with an entry in the history |
| Runs.ShipLegs | src/modules/shipments/services/shipment-status.service.js:54-107 | every shipping command keeps every leg's postings |
| Runs.RunGood | src/modules/finance/services/payment.service.js:12-84 | over every run of services, carrier events and cron jobs: sound books, consistent leg postings, requests, settlements and histories |
| Guarantees.LegMovements | src/modules/shipments/services/shipment-status.service.js:65-83 | after any run, webhook and cron writes included, a leg's booking movement is 0 or minus its cost, its RTO movement 0 or minus 40 rupees, its dispute movement minus the extra charge exactly while the dispute stands |
| Guarantees.BalanceIsFold | src/modules/finance/services/payment.service.js:34-65 | after any run each balance is the signed fold of its ledger from 0 and not negative |
| Guarantees.RunSaga | src/modules/shipments/services/shipment-delete.service.js:13-48 | in runs without a carrier write across CANCELLED, a charged leg is refunded if and only if its shipment is CANCELLED |
| Guarantees.SagaOutcome | src/modules/shipments/services/shipment-create.service.js:177-293 | no shipment, no movement; CANCELLED, net zero on both legs; otherwise each leg is out its cost |
| Guarantees.CancellationClears | src/modules/shipments/services/shipment-delete.service.js:13-48 | an ORDER_CREATED shipment can be cancelled if and only if the wallets to refund are active, and then both legs are at zero |
| Guarantees.CreateShipmentOutcome | src/modules/shipments/services/shipment-create.service.js:177-293 | one booking for every failure point: refused, nothing changed; carrier refused, the compensation cannot fail and both legs are at zero; otherwise each leg has paid |
| Guarantees.SettlementMoves | src/modules/finance/services/settlement.service.js:88-101 | a settlement is marked completed but debits exactly when nothing was posted under its reference before |
| Guarantees.EscrowIsOwed | src/modules/shipments/services/shipment-status.service.js:120-139 | while every merchant with shipments has an active wallet, escrow equals the sum of unremitted COD, even if carrier events reset a shipment and it is delivered again |
| Guarantees.RunNeverShort | src/modules/finance/services/cod.service.js:46-60 | in such runs no remittance is refused for lack of escrow |
| Payouts.ShipCods | src/modules/shipments/services/shipment-status.service.js:110-145 | every shipping command keeps: a COD record belongs to its shipment's merchant and distributor, and a remitted one means the shipment is paid out |
| Payouts.RunCods | src/modules/finance/services/cod.service.js:54-76 | the same over every run, resets, edits and second deliveries included |
| Guarantees.SuccessHasOneRow | src/modules/finance/razorpay.service.js:174-193 | in any replay and order of events a SUCCESS payment has exactly one TOPUP row, of its amount, in its owner's wallet |
| Guarantees.PaymentCreditsAtMostOnce | src/modules/finance/razorpay.service.js:297-376 | each payment id has moved its order's amount once or not at all |
| Guarantees.RequestMoved | src/modules/finance/services/refund-request.service.js:181-222 | an approved request has moved its amount, any other nothing |
| PaymentRows.RunCredits | src/modules/finance/razorpay.service.js:102-328 | over every run, whatever the payment ids: each id has moved money for at most one order, the first to post under it, and every SUCCESS payment has a row under its id |
| PaymentRows.IdMovesForItsOrder | src/modules/finance/razorpay.service.js:174-193 | a payment id has moved the amount of the order it was first posted for, or nothing |
| PaymentRows.SuccessRowsApartExactly | src/modules/finance/razorpay.service.js:302-328 | no two SUCCESS orders share a ledger row if and only if no two of them share a payment id |
| Lifecycles.RunApart | src/modules/finance/services/settlement.service.js:42-61 | over every run no two pending settlements are the same transfer, none runs against another, and a shipment has at most one pending refund request |
| Lifecycles.RunAdvances | src/modules/disputes/services/dispute-resolution.service.js:46-48 | from any moment of a run to its end verdicts, decided requests and processed settlements stand, an expired or reviewed dispute is never reopened, no payment becomes pending again, no amount is rewritten |
| Lifecycles.VerdictIsFinal | src/modules/disputes/services/dispute-resolution.service.js:55-87 | once a dispute is decided, both legs have moved for it what they ever will |
| Lifecycles.RunOwners | src/modules/shipments/shared/shipment.constants.js:9-14 | over any run a stored shipment keeps its owner, its legs and their costs |
| Lifecycles.CreditedFailsExactly | src/modules/finance/razorpay.service.js:127-157 | a credited payment is marked failed by exactly one thing: its owner's verification with a bad signature after the gateway refunded it |
| Unsessioned.FailedStepSound | src/modules/finance/services/payment.service.js:34-65 | a failed money step without a session breaks the books if and only if its amount was negative and got as far as the insert |
| Unsessioned.FailedLegsKeepFirst | src/utils/transaction.js:25-29 | a failed pair of legs without a session leaves the books unchanged if and only if the first leg failed or had been posted before; otherwise the first leg stays |
| UnsessionedRuns.KeptRunSound | src/utils/transaction.js:25-29 | over every run without sessions, one service at a time and amounts not negative, whatever fails half-way: balances are the fold of the ledger and not negative, rows chain, no reference repeats |
| UnsessionedRuns.KeptRecords | src/utils/transaction.js:25-29 | a service that fails without a session leaves every record other than wallets and ledger as an aborted session does |
| Program.Execute | src/utils/transaction.js:25-42 | the method of any command takes the store through the transition of `Runs` with sessions, of `UnsessionedRuns` without, and keeps the invariants of the former |
| Program.Serve | src/utils/transaction.js:5-42 | after any commands served from an empty store on a replica set, balances are the fold of the ledger and not negative, every leg has moved what its shipment and dispute say, every refund request its amount exactly when approved; on a standalone server the balances are |
| Backend.Store.CheckTransactionSupport | src/utils/transaction.js:5-23 | the support flag is decided once, on first use with a live connection |
| Backend.Store.Abort | src/utils/transaction.js:36-38 | a failed session is undone exactly when sessions are supported |
| Backend.Store.DebitWallet | src/utils/wallet.js:17-45 | guarded debit: new wallet or the error in the order of the checks |
| Backend.Store.CreditWallet | src/utils/wallet.js:50-76 | guarded credit |
| Backend.Store.ReleaseEscrow | src/modules/finance/services/payment.service.js:36-50 | escrow moved to the balance, or refused |
| Backend.Store.FindTransaction | src/modules/finance/services/payment.service.js:17-23 | the first row with the reference |
| Backend.Store.ApplyTransaction | src/modules/finance/services/payment.service.js:12-65 | the statements in order meet `Ledger.Apply`: result and error; the new books, or what a failure leaves of them |
| Backend.Store.PostShipmentLegs | src/modules/shipments/services/shipment-delete.service.js:20-38 | both legs in order meet `Services.PostLegs` |
| Backend.Store.TopupWallet | src/modules/finance/services/wallet.service.js:42-64 | meets `Services.TopupWallet`, whose effect is `Outcomes.TopupOutcome` |
| Backend.Store.TransferToMerchant | src/modules/finance/services/wallet.service.js:66-119 | both legs under one reference, as written |
| Backend.Store.ProcessRefund | src/modules/finance/services/refund.service.js:14-41 | check, then apply |
| Backend.Store.RefundWallet | src/modules/finance/services/refund.service.js:43-63 | manual refund |
| Backend.Store.ProcessRefundRequest | src/modules/finance/services/refund-request.service.js:146-222 | approval credits and marks, rejection marks |
| Backend.Store.ProcessSettlement | src/modules/finance/services/settlement.service.js:77-117 | debit on success, then the status |
| Backend.Store.GenerateUniqueAwb | src/modules/shipments/services/shipment-create.service.js:19-29 | the first of five candidates that is not in use, or failure when all five are |
| Backend.Store.OpenBooking | src/modules/shipments/services/shipment-create.service.js:177-229 | charges and draft in one session |
| Backend.Store.CompensateBooking | src/modules/shipments/services/shipment-create.service.js:243-275 | refund of both legs and CANCELLED |
| Backend.Store.CreateShipment | src/modules/shipments/services/shipment-create.service.js:177-293 | the saga meets `Services.CreateShipment`; without sessions a refused booking keeps what it charged and a refused compensation what it refunded |
| Backend.Store.CreateReverseShipment | src/modules/shipments/services/shipment-reverse.service.js:66-128 | the first waybill if free, else the second, refused if both are in use; the one new shipment is booked with the carrier and costs nobody anything; no other changes |
| Backend.Store.UpdateShipment | src/modules/shipments/services/shipment-update.service.js:7-32 | which edits the status allows, core fields only before pickup; carrier waybill included |
| Backend.Store.CancelInSession | src/modules/shipments/services/shipment-delete.service.js:13-48 | refunds, then status, history and deletion mark |
| Backend.Store.ReturnInSession | src/modules/shipments/services/shipment-status.service.js:63-91 | RTO charges, then status and history |
| Backend.Store.DeliverInSession | src/modules/shipments/services/shipment-status.service.js:110-145 | COD record and escrow, or paid out |
| Backend.Store.UpdateStatus | src/modules/shipments/services/shipment-status.service.js:15-165 | meets `Services.UpdateStatus`, whose effects are `ShipmentOutcomes.StopOutcome`, `CancelOutcome`, `RtoOutcome` and `DeliveryOutcome` |
| Backend.Store.DeleteShipment | src/modules/shipments/services/shipment-delete.service.js:50-71 | carrier first, then the refund session |
| Backend.Store.CarrierWebhook | src/modules/shipments/services/shipment-webhook.service.js:14-82 | event mapping and status write, any status may return to ORDER_CREATED |
| Backend.Store.PollActiveShipments | src/utils/scheduler.js:16-61 | from one selection: every active shipment the carrier reports in another status gets it, every other stays as it was |
| Backend.Store.SavePolled | src/utils/scheduler.js:38-50 | a selected document is saved over whatever the shipment has become meanwhile |
| Backend.Store.RemitCod | src/modules/finance/services/cod.service.js:26-91 | the two remittance stages |
| Backend.Store.RaiseWeightDispute | src/modules/disputes/services/weight-dispute.service.js:13-80 | charges, then the record |
| Backend.Store.ResolveWeightDispute | src/modules/disputes/services/dispute-resolution.service.js:37-101 | meets `Services.ResolveDispute`, whose effect is `ShipmentOutcomes.VerdictOutcome` |
| Backend.Store.CreditInSession | src/modules/finance/razorpay.service.js:161-193 | credit and success together |
| Backend.Store.VerifyPayment | src/modules/finance/razorpay.service.js:102-193 | meets `Services.VerifyPayment`, whose effects are `Outcomes.VerifyOutcome`, `BadSignatureOutcome` and `OtherVerification`; without sessions, also what a failed credit leaves |
| Backend.Store.PaymentCaptured | src/modules/finance/razorpay.service.js:297-342 | credit unless already successful |
| CacheSpec.RemoveKeeps | src/validation/helpers/cache.js:543-556 | removing an entry keeps the three maps and the counter in step |
| CacheSpec.RemoveAllKeeps | src/validation/helpers/cache.js:533-536 | so does evicting or collecting any list of entries; what stays is exactly the rest |
| CacheSpec.TouchKeeps | src/validation/helpers/cache.js:441-447 | a hit keeps them, with a fresh stamp |
| CacheSpec.SetKeeps | src/validation/helpers/cache.js:140-184 | so does a set, accepted or refused |
| CacheSpec.RunKeeps | src/validation/helpers/cache.js:71-556 | in every run the three maps share one key set and agree, stamps are distinct, and the memory counter is the sum of the entry sizes and within the limit |
| Recency.SortSorts | src/validation/helpers/cache.js:495-530 | the eviction order is a permutation sorted by the strategy's rank |
| Recency.GetRefines | src/validation/helpers/cache.js:104-130 | under any strategy a get is the list's get: a hit moves the item to the back and answers its value |
| Recency.SetRefines | src/validation/helpers/cache.js:140-184 | under LRU a set is the list's set: memory and capacity eviction drop a prefix, an accepted key goes to the back, a refused one drops only the prefix |
| Recency.CollectRefines | src/validation/helpers/cache.js:592-608 | collection filters the list |
| Recency.StepRefines | src/validation/helpers/cache.js:104-234 | each operation is the list operation |
| Recency.RunRefines | src/validation/helpers/cache.js:104-608 | over every run the LRU cache is the recency list |
| CacheLaws.EvictTakesLeast | src/validation/helpers/cache.js:491-537 | whatever the strategy, nothing that stays ranks below something that goes, except an entry that never expires under TTL |
| CacheLaws.EvictsByHistory | src/validation/helpers/cache.js:491-537 | over every run LFU evicts no entry used more often since its last set than one it keeps, and FIFO none set later |
| CacheLaws.VictimsGo | src/validation/helpers/cache.js:533-536 | an entry stays if and only if it is not among the victims |
| CacheLaws.EvictOne | src/validation/helpers/cache.js:516-525 | evicting one entry shrinks the cache if and only if there is a candidate |
| CacheLaws.SetFits | src/validation/helpers/cache.js:160-163 | a set keeps the size within the capacity if and only if it is not accepted into a full TTL cache where nothing can expire |
| CacheLaws.ImmortalOverflow | src/validation/helpers/cache.js:516-525 | two entries in a TTL cache of one place |
| CacheLaws.RunFits | src/validation/helpers/cache.js:140-184 | over every run of LRU, LFU, FIFO, or TTL with positive lifetimes, the size stays within the capacity |
| CacheLaws.RunAgrees | src/validation/helpers/cache.js:140-234 | every entry, with its lifetime, creation time and number of uses, is what the plain map of successful sets and hits holds |
| CacheLaws.HitIsLastSet | src/validation/helpers/cache.js:104-130 | a hit returns the last successfully set, undeleted, unexpired value |
| CacheLaws.SetIsFound | src/validation/helpers/cache.js:140-184 | under every strategy a value that fits is stored, and found until its lifetime is over |
| CacheLaws.DeletedIsGone | src/validation/helpers/cache.js:192-195 | a deletion forgets its key and no other |
| CacheLaws.HasIsGet | src/validation/helpers/cache.js:208-228 | `has` is whether `get` would hit |
| CacheLaws.RefusedSetKeepsOld | src/validation/helpers/cache.js:149-154 | after a refused set a lookup answers as before, unless the eviction before the refusal took the entry |
| CacheLaws.CollectInvisible | src/validation/helpers/cache.js:592-608 | collection changes a lookup if and only if the lookup is made at a time before the entry expired, so never later |
| CachedValidator.CachedEqualsRaw | src/validation/helpers/cache.js:690-720 | over every interleaving the cached validator answers as the raw one if and only if no storable result shares its key with a different result |
| CachedValidator.AskedAgain | src/validation/helpers/cache.js:690-720 | a storable result that fits is answered from the cache the next time, while it lives |
| CachedValidator.CollisionReplays | src/validation/helpers/cache.js:698-702 | two inputs under one key: the second gets the first one's result |
| ValidationCache.ValidationCache.constructor | src/validation/helpers/cache.js:72-79 | an empty cache |
| ValidationCache.ValidationCache.Get | src/validation/helpers/cache.js:104-130 | result and new state meet `CacheSpec.Get` |
| ValidationCache.ValidationCache.Has | src/validation/helpers/cache.js:208-228 | meets `CacheSpec.Has` |
| ValidationCache.ValidationCache.Set | src/validation/helpers/cache.js:140-184 | meets `CacheSpec.Set` |
| ValidationCache.ValidationCache.Delete | src/validation/helpers/cache.js:192-195 | meets `CacheSpec.Delete` |
| ValidationCache.ValidationCache.UpdateAccess | src/validation/helpers/cache.js:441-447 | meets `CacheSpec.Touch` |
| ValidationCache.ValidationCache.CheckMemoryLimits | src/validation/helpers/cache.js:466-485 | one eviction round, then the answer |
| ValidationCache.ValidationCache.EvictEntries | src/validation/helpers/cache.js:491-537 | the loop over the victims meets `CacheSpec.Evict` |
| ValidationCache.ValidationCache.RemoveEntry | src/validation/helpers/cache.js:543-556 | meets `CacheSpec.RemoveEntry` |
| ValidationCache.ValidationCache.RunGarbageCollection | src/validation/helpers/cache.js:592-608 | both loops meet `CacheSpec.Collect` |
| ValidationCache.Serve | src/validation/helpers/cache.js:72-608 | any calls on a new cache leave its fields in step, and under LRU its entries are the recency list |
| Idempotency.OneHandlerAtATime | src/middleware/idempotency.middleware.js:13-67 | in every interleaving at most one handler runs at a time |
| Idempotency.NeverAgain | src/middleware/idempotency.middleware.js:50-58 | after an answer from 200 to 499 no handler ever starts again, whatever follows, even if saving it failed |
| Idempotency.ReplayIsStored | src/middleware/idempotency.middleware.js:26 | every replay, and every other kept answer, is the one kept answer |
| Idempotency.ReplayHasOriginal | src/middleware/idempotency.middleware.js:26 | a replay has an original given by a handler |
| Idempotency.FreeAfterRelease | src/middleware/idempotency.middleware.js:48-65 | a key becomes free exactly when the holder answered outside 200 to 499 and the release reached the store |
| Idempotency.AloneIsServed | src/middleware/idempotency.middleware.js:13-67 | a request nobody disturbs runs its handler exactly when the key is free, is a conflict when it is in use, and is replayed a kept answer |
| Idempotency.AnswerIsRecorded | src/middleware/idempotency.middleware.js:46-62 | the handler's answer is recorded exactly when it is from 200 to 499 |
| Idempotency.RunKeeps | src/middleware/idempotency.middleware.js:13-67 | the lock invariant over every interleaving |
| Idempotency.Middleware.FindRecord | src/middleware/idempotency.middleware.js:14-27 | conflict, replay or pass, as the record says; a lookup that throws ends the request |
| Idempotency.Middleware.AcquireLock | src/middleware/idempotency.middleware.js:29-44 | the unique index lets one request through |
| Idempotency.Middleware.SaveOrRelease | src/middleware/idempotency.middleware.js:49-62 | save below 500, release otherwise, or neither if the store fails |
| Phone.CleanPhoneNumber | src/validation/validators/phone.validator.js:171-195 | meets `Phone.Clean` |
| Phone.ExtractCountryCode | src/validation/validators/phone.validator.js:203-225 | on any text the first of the prefixes of one to four characters that `parseInt` reads as a supported code; on digits that is `Phone.Decode` |
| Phone.DecodeTextDigits | src/validation/validators/phone.validator.js:211-213 | on digits `parseInt`, with its white space, signs and base 16, is the decimal reading |
| Phone.ValidateIndianMobile | src/validation/validators/phone.validator.js:232-274 | the loop over the prefixes meets `Phone.ValidateIndian` |
| Phone.SeparatorsIgnored | src/validation/validators/phone.validator.js:171-177 | separators may stand anywhere |
| Phone.PrefixesUnsupported | src/validation/validators/phone.validator.js:50-132 | no proper prefix of a supported code is supported |
| Phone.DecodeOfStr | src/validation/validators/phone.validator.js:203-225 | decoding reads back the code in front of any national number |
| Phone.CodesPrefixFree | src/validation/validators/phone.validator.js:203-225 | decoding is unique |
| Phone.FifteenDigits | src/validation/validators/phone.validator.js:282-340 | accepted numbers have at most fifteen digits, clause 6 of ITU-T E.164 |
| Phone.AcceptedWellFormed | src/validation/validators/phone.validator.js:412-517 | an accepted number is an Indian mobile or a listed code with a listed length, printed from its parts |
| Phone.InternationalRoundTrip | src/validation/validators/phone.validator.js:282-340 | every listed code with a national number of a listed length is accepted as written |
| Phone.RoundTrip | src/validation/validators/phone.validator.js:381-394 | validating the normalized or the display form of an accepted number, under the same options, returns the same number |
| Phone.IndianExactly | src/validation/validators/phone.validator.js:171-274 | an input is read as an Indian mobile if and only if, separators aside, it is one of six spellings |
| Phone.InternationalExactly | src/validation/validators/phone.validator.js:412-517 | an input is read as a given international number if and only if those are allowed and it cleans to its E.164 form, or to that form without the plus where the validator puts it back |
| Phone.BareMobile | src/validation/validators/phone.validator.js:184-192 | a bare ten-digit mobile number is accepted if and only if it does not begin 916 to 919 |
| Csv.GenerateCsv | src/modules/reports/export.service.js:166-181 | the loops meet `Csv.Print` |
| Csv.QuotedValues | src/modules/reports/export.service.js:174-178 | the values of one row, quoted, in header order |
| Csv.ReadPrint | src/modules/reports/export.service.js:166-181 | reading a printed report by section 2 of RFC 4180 gives back exactly its headers and fields |
| Csv.ReadQuotedEscape | src/modules/reports/export.service.js:177 | a quoted field reads back as itself |
| Csv.FieldReadBack | src/modules/reports/export.service.js:175-176 | field j of row i is the property of item i that header j names |
| Csv.PrintInjective | src/modules/reports/export.service.js:166-181 | equal texts mean equal headers and fields |
| Csv.ShipmentHeadersPlain | src/modules/reports/export.service.js:133-146 | the shipment columns need no quoting |
| Csv.TransactionHeadersPlain | src/modules/reports/export.service.js:152-163 | nor do the transaction columns |
| Pricing.LeastCoveringSlab | src/modules/pricing/pricing.rules.js:6-9 | the slab found is the least that covers the weight, or the largest if none does |
| Pricing.OnlyEmptyCardFails | src/modules/pricing/pricing.service.js:38-41 | pricing fails only for a card without slabs |
| Pricing.RoundNear | src/modules/pricing/pricing.service.js:47 | the rounding is to the nearest paisa |
| Pricing.ProfitsAddUp | src/modules/pricing/pricing.service.js:53-69 | whatever the carrier's price, the merchant's over it is the sum of the two profits, and neither is negative for non-negative rates and margins |
| PriceLaws.BilledWeight | src/modules/pricing/pricing.helpers.js:8-18 | the billed weight is the declared one or, if more, the volume over 5000 to a hundredth of a kilogram |
| PriceLaws.PlainCarrierPrice | src/modules/pricing/pricing.service.js:38-47 | without surcharge and COD the carrier's price is base and per-kilogram rate of the slab the weight falls into, to the nearest paisa |
| PriceLaws.FuelScalesCarrier | src/modules/pricing/pricing.service.js:44-45 | the fuel surcharge scales the price of a prepaid parcel, within the rounding of both prices |
| PriceLaws.CodAddsToCarrier | src/modules/pricing/pricing.service.js:46-47 | COD adds its charge and its percentage of the amount, within one paisa |
| PriceLaws.MarkupOnBooked | src/modules/pricing/pricing.service.js:49-66 | who pays which percentage and flat margin on top, each to the nearest paisa; 25 per cent if the card names none |
| PriceLaws.ProfitsBooked | src/modules/pricing/pricing.service.js:68-69 | which part of the price is whose profit |
| PriceLaws.UnmarkedQuote | src/modules/rates/rate.service.js:73-80 | the same three laws for the quote without markup |
| PriceLaws.MarkupOnQuote | src/modules/rates/rate.service.js:82-109 | each viewer's quote against the unmarked one: markup, then margin, within the rounding of both |
| Pricing.BookedNearQuoted | src/modules/rates/rate.service.js:62-111 | without dimensions booked and quoted price differ by at most half of (s m + m + 2) paise, s and m one plus each percentage; one exists if and only if the other does |
| Pricing.DistributorNearQuoted | src/modules/rates/rate.service.js:102-105 | the same for the distributor |
| Pricing.WholeChargesAsQuoted | src/modules/rates/rate.service.js:77-111 | booked and quoted price are equal whenever the charge is whole paise and so is the marked-up charge that a margin comes on |
| Pricing.AsQuotedExactly | src/modules/rates/rate.service.js:62-111 | given markup and margin, every card, weight and COD amount is booked as quoted if and only if there is no markup, no margin percentage and a flat margin of whole paise |
| Pricing.BookedDiffersFromQuoted | src/modules/rates/rate.service.js:77-111 | for one card they are not equal |
| Pricing.ShipmentDocument.PreSave | src/modules/shipments/shipment.model.js:229-255 | weights and profits are recomputed from what is stored |
| Pricing.BookAndSave | src/modules/shipments/services/shipment-create.service.js:193-221 | the stored billing weight is the priced one if and only if the volumetric weight was not above the declared one; the profits survive |
| RateCache.CompileRegexText | src/utils/cache.js:57-61 | the regular expression built from a pattern reads back as the pattern |
| RateCache.RegexIsGlob | src/utils/cache.js:57-66 | it accepts only what the glob accepts, and on keys of one line exactly that |
| RateCache.PrefixTestExactly | src/utils/cache.js:57-66 | deleting by a prefix and a star deletes exactly the keys with that prefix and no line terminator after it |
| RateCache.EscapesExactly | src/utils/cache.js:57-66 | so a key the pattern should cover is missed if and only if a line terminator follows the prefix |
| RateCache.LineFeedEscapes | src/utils/cache.js:57-66 | for one, a key with a line feed |
| RateCache.PrefixGlob | src/utils/cache.js:57-66 | a prefix and a star cover exactly the keys with that prefix |
| RateCards.ReadFits | src/modules/rates/rate.controller.js:14-32 | a read answers the database's value and keeps the cache coherent |
| RateCards.WriteFits | src/modules/rates/rate.service.js:30-44 | an update or deactivation deletes what it makes stale |
| RateCards.CreateFits | src/modules/rates/rate.service.js:17-22 | so does a creation |
| RateCards.RunFits | src/modules/rates/rate.service.js:13-44 | over every sequential run every cached list or card, live or expired, is the database's |
| RateCards.ReadsAreCurrent | src/modules/rates/rate.controller.js:14-32 | every read answers what the database holds at that moment |
| RateCards.ReadAfterWrite | src/modules/rates/rate.service.js:30-36 | the next read answers what an update wrote; no other card has changed |
| RateCards.ReadAfterCreate | src/modules/rates/rate.service.js:17-22 | so after a creation, card and list |
| RateCards.ReadAfterDeactivation | src/modules/rates/rate.service.js:38-44 | a deactivated card leaves the list and can still be read |
| RateCards.ReadIsCached | src/modules/rates/rate.controller.js:14-19 | a list read is found in the cache for ten minutes |
| RateCards.CachedIsCurrent | src/utils/cache.js:33-41 | a live entry is the database's value |
| RateCards.RaceLeavesStale | src/utils/cache.js:75-85 | a list fetched before a write and stored after it is coherent if and only if the write left the active cards as they were |
| RateCards.Backend.Fetch | src/utils/cache.js:33-41 | expired entries are deleted on the way |
| RateCards.Backend.DeletePattern | src/utils/cache.js:57-73 | the loop deletes exactly the matching keys |
| RateCards.Backend.CleanExpired | src/utils/cache.js:112-119 | the loop deletes exactly the expired keys |
| RateCards.Backend.GetRateCards | src/modules/rates/rate.controller.js:14-19 | read-through list |
| RateCards.Backend.GetRateCardById | src/modules/rates/rate.controller.js:27-32 | read-through card; a missing card is not cached |
| RateCards.Backend.CreateRateCard | src/modules/rates/rate.service.js:17-22 | insert, then both patterns |
| RateCards.Backend.UpdateRateCard | src/modules/rates/rate.service.js:30-36 | write, then the lists and the card's key |
| RateCards.Backend.DeactivateRateCard | src/modules/rates/rate.service.js:38-44 | the same with the active flag cleared |
| RateCards.Perform | src/modules/rates/rate.controller.js:14-32 | on a coherent store every operation keeps it coherent and every read answers the database's value |

## Left out

- Routes, controllers, schemas of requests, DTOs, mail, notifications, audit writes and logging: no effect on the modelled state.
- Carrier, gateway, database driver and cryptography internals: success, failure or an input.
- Finding a shipment by its carrier waybill in the webhook, and document ids: a shipment, its COD record and its weight dispute are named by the shipment's own waybill.
- Trimming and case folding of carrier event names: events are taken as normalized.
- Sequential runs without sessions: `UnsessionedRuns` keeps the books sound; a failed service may charge one leg of two, so the guarantees about legs are those of the mode with sessions. Concurrency in that mode is treated for the money step alone (`Standalone`, `Duplicates`).
- Backend.Store.PollActiveShipments: the poll undisturbed; other commands between its saves are runs with `Poll` commands, which carry the document as selected, whatever it was.
- Edits of addresses, notes, dates, declared value and carrier name: nothing modelled reads them; weight and dimensions only decide whether the edit is allowed.
- Dispute comments and assignment, listing queries, role-scoped filters, pagination, reports and dashboards: library queries or easy members.
- Two services interleaved statement by statement inside open sessions: `Snapshot` does this for the money step, `Runs` takes services one after the other.
- The time-to-live index of idempotency records: runs are within its 24 hours. A handler that answers other than through `res.json` never releases its key and is a handler still running here.
- Validation cache `import`, `updateConfig`, timers, statistics, compression and null values; entry sizes, hashed keys and the rounding of a tenth of the cache are inputs.
- CachedValidator.CachedEqualsRaw: other writers of the same cache are assumed not to use the wrapper's keys, so a foreign `set` is no event of its runs.
- Binary floating point: weights, rates and percentages are exact, and rounding is to the nearest paisa.
- Building export rows from database documents, and the XLSX and PDF branches: `Csv` starts from the row objects.
- Characters beyond ASCII are accepted inside quoted CSV fields, where RFC 4180 lists ASCII only.
- RateCache.CompileRegexText: regular expressions other than those the translation can produce have no meaning in the model.
- Margin configurations in the rate cache: written and deleted by the same scheme as cards, but nothing reads them from the cache.
- Concurrent reads and writes of rate cards: `RateCards.RaceLeavesStale` says when they go wrong; runs are sequential.
