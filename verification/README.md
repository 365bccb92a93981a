# A bus-ticketing back office in Dafny

This project models the transactional core of the `backend` service and proves what its requests keep
true: seats, bookings and refunds on trips; agents' commissions and settlements; a double-entry ledger
with reversals and fiscal periods; the queue of accounting events that feeds the ledger; idempotency
keys; and the locks and transactions underneath.

## How it is built

- **Specification.** `TripDesk`, `Settlements`, `GeneralLedger`, `Idempotency` and `Backend` say what each
  request does to the database as a value (`Backend.Handle`, 32 kinds of requests). A request is one
  database transaction: it ends in a new database, or it is refused with the service's error and changes
  nothing.
- **Services.** `Database.Tables` is a class with one field per table. `BookingsService`, `TripsService`,
  `ManifestsService`, `SettlementsService`, `ExpensesService`, `AccountingService` and
  `AccountingEventWorker` (with `Refunding`) carry out the same requests statement by
  statement: the loops over seats, payments, tickets and bookings, triggers and unique indexes, rollback. Each
  method is proved to have exactly the effect and the outcome of its request (`Database.Serves`) and to
  keep the invariants of the whole database (`Tables.Valid`), so whatever is proved about requests holds of
  calls to the services.
- **Invariants and runs.** `BackendInvariants.DbInv` collects what is always true across tables;
  `PostingProofs.RequestKeeps` proves that every request keeps it and rewrites no history. `Runs`, `Holds`,
  `AgencyRuns`, `BookRuns`, `Retries` and `Leases` draw the consequences for any sequence of requests.
- **Terms.** `Orders`, `Refunds`, `TripTerms`, `SettlementTerms`, `LedgerTerms`, `RequestTerms`, `Postings`,
  `Abandoned` and `Unpostable` say, with every status, limit and sign written out, exactly when each request is
  accepted and what it then writes, and what remains of that in every later state.
- **Below one request.** `Interleaving`, `InterleavedMoney`, `Serializability` and `SerialRuns` cut the transactions
  that share trips into single statements with row locks, snapshots, aborts and commits. `AdvisoryLocks` treats the order
  in which locks are taken, `TenantContext` what nested transactions and caught errors mean, and
  `EventTransactions` applies it to the processing of events.

Money is in hundredths of the currency unit, percentages in hundredths of a percent, ledger amounts in
ten-thousandths, times in milliseconds, dates in days. Row numbers are primary keys. Hashes and lock
names are taken to be injective. A failure raised by the database itself (a unique index, a check
constraint, a trigger) is `Constraint`. Client input satisfies the DTO bounds (`Backend.WellFormed`).

## What turned out not to hold

- The reconciliation report counts POSTED entries only. A reversed entry drops out while its reversal
  stays, so an account's reported balance is that of the books exactly when its posted reversals add
  nothing to it (`LedgerProofs.ReportCorrectExactly`, with a run of six requests in `BookRuns.ReversalMiscounted`).
- When a user's attempt to process an event fails, the attempt's idempotency record is committed with it.
  For 24 hours the event cannot be posted automatically although nothing else stands in its way
  (`Retries.ReadyEventPostsExactly`, `Retries.BlockedEvent`). The background worker rolls back first and
  leaves no such record.
- A settlement that is finished with nothing to pay, for days without sales for instance, still enqueues an
  event, and no request ever posts it, because entries of zero are refused: an event is posted only with an amount
  above zero (`RequestTerms.FreshPosting`, `Unpostable.ZeroNeverPosted`, with a run of three requests in
  `Unpostable.EmptySettlementNeverPosted`).
- Prices are read before seats are claimed, and a price change takes no trip lock. Between statements a seat
  can be sold below or above the price it then shows (`Serializability.StalePriceNotSerial`); an order has the
  effect of an undivided one exactly when the prices and the count of available seats it has read are
  still right (`Serializability.SaleExactly`).
- Adjustments of an expense after it was posted never reach the books: its entry carries the amount due exactly
  when they add up to nothing (`BookRuns.PostedExpenseExactly`, with a run of eight requests in
  `Drift.ExpenseDrifted`).

## Model

| member | source | states |
|---|---|---|
| PostingProofs.RequestKeeps | backend/src/prisma/prisma.service.ts:151-185 | Every request, whatever its outcome, keeps the invariants that tie all tables together and only lets history grow: ended bookings, refunds, final settlements, posted entries and event links never change. |
| Runs.NoDoubleSale | backend/src/bookings/bookings.service.ts:196-295 | In every reachable state a seat is BOOKED exactly when a ticket of a confirmed booking names it; there is one such ticket and the seat refers to it. |
| Runs.RefundsAddUp | backend/src/bookings/bookings.service.ts:465-516 | In every reachable state a payment's refunded amount is the sum of its refunds and within the payment, and its booking ended REFUNDED exactly when money was returned. |
| Runs.RefundedOnce | backend/src/trips/trips.service.ts:333-380 | Once something was refunded on a payment, no later run of booking or trip cancellations changes the refunded amount. |
| Runs.EndedBookingsStay | backend/src/bookings/bookings.service.ts:446-448 | A booking that has ended is never changed again. |
| Runs.BlockedForever | backend/src/trips/trips.service.ts:382-389 | A blocked seat stays blocked in all later states, whatever happens to its trip's status. |
| Runs.CancelledTripStays | backend/src/trips/trips.service.ts:307-394 | After a trip is cancelled all its bookings have ended and every seat it had stays blocked in all later states, and while it stays CANCELLED it has no live booking. |
| Runs.PriceFrozen | backend/src/trips/trips.service.ts:243-249 | The price of a seat does not change while the seat is not on open sale. |
| Holds.HoldKept | backend/src/bookings/bookings.service.ts:58-77 | Until a hold ends no request of anybody else takes the seat or puts it back on sale: after any run it is still held by its user, or blocked because its trip was cancelled. |
| Holds.HoldExcludes | backend/src/bookings/bookings.service.ts:214-232 | For ten minutes after a successful hold, in every run in which its user neither releases nor orders the seat, no other user can hold or buy it at any time, and its user can claim it unless the trip is cancelled. |
| Holds.HeldPriceCharged | backend/src/bookings/bookings.service.ts:211-280 | From a successful hold to an order of the same user within ten minutes, whatever price changes and requests come in between, the seat is charged the price it had at the hold. |
| Holds.HeldSeatIsSold | backend/src/bookings/bookings.service.ts:165-235 | Within the hold an order for just that seat is accepted if and only if the trip is still SCHEDULED or OPEN and no booking has the key. |
| Orders.HoldExactly | backend/src/bookings/bookings.service.ts:48-90 | A user can hold a seat exactly when the trip is SCHEDULED or OPEN and the seat is a REGULAR or VIP seat of that trip that is available or held by the same user until now or later; it is then held until ten minutes later and nothing else changes. |
| Orders.ReleaseExactly | backend/src/bookings/bookings.service.ts:92-98 | The user's own hold ends and the seat is on sale afterwards; every other seat and every other hold stays. |
| Orders.ExpiryExactly | backend/src/trips/trips.service.ts:182-191 | Exactly the seats of the trip whose holds ended before now are on sale afterwards. |
| Orders.OrderExactly | backend/src/bookings/bookings.service.ts:165-235 | An order under a new key is accepted if and only if the trip is SCHEDULED or OPEN, the seats are different seats of it that this user may have, and the agent, if any, is active and the one who orders. |
| Orders.OrderWrites | backend/src/bookings/bookings.service.ts:237-289 | An accepted order adds one confirmed booking, one ticket per seat at the seat's price and one payment of the total. |
| Orders.OrderBooksSeats | backend/src/bookings/bookings.service.ts:290-336 | Its seats are booked, each under its own ticket, and the trip becomes FULL exactly when no passenger seat of it is available any more; no other seat or trip changes. |
| Orders.OrderPaysAgent | backend/src/bookings/bookings.service.ts:305-321 | The agent who orders, or else the agent named, earns one commission per ticket at the agent's rate on the fare; nobody else earns anything. |
| Orders.FixedCommissions | backend/src/bookings/bookings.service.ts:307-310 | A fixed rate pays its amount on every ticket, whatever the fares. |
| Orders.RequestOpensOnSaleOnly | backend/src/bookings/bookings.service.ts:31-32 | No request, in any state, adds a booking to a trip, or newly holds or books one of its seats, unless the trip is SCHEDULED or OPEN at that moment. |
| Runs.TotalsAndPrices | backend/src/bookings/bookings.service.ts:237-280 | In every reachable state a booking's total is the sum of its ticket fares and its payment, and a booked seat shows the fare that was charged. |
| AgencyRuns.SaleCommissionsNearShare | backend/src/bookings/bookings.service.ts:305-321 | The commissions a percentage agent earns on an order are together that percentage of the booking's total within half a cent per ticket. |
| AgencyRuns.CommissionsNearShareForGood | backend/src/bookings/bookings.service.ts:305-321 | In every later state the commissions stored for that booking still add up to that percentage of its total within half a cent per ticket, whatever became of the booking and of the agent's rate. |
| AgencyRuns.AgencyHistory | backend/prisma/migrations/20260826181000_add_settlement_lines/migration.sql:21-33 | Through every run commissions keep agent, booking, ticket and amount, a reversed one stays reversed, final settlements keep their lines, and a booking earns no commission after its sale. |
| Money.RefundWithinPayment | backend/src/bookings/bookings.service.ts:460-468 | A refund lies between nothing and what is refundable, is everything at no fee and nothing at a full fee. |
| Money.RefundFallsWithFee | backend/src/bookings/bookings.service.ts:460-468 | A higher fee never refunds more. |
| Money.KeptNearExactFee | backend/src/bookings/bookings.service.ts:465-468 | For any list of payments the fee kept differs from the exact percentage by at most half a cent per payment. |
| Money.CommissionsNearExactShare | backend/src/bookings/bookings.service.ts:307-310 | For any list of fares the commissions differ from the exact percentage by at most half a cent per ticket. |
| DeskInvariants.RepairKeepsInv | backend/src/trips/trips.service.ts:162-180 | Adding the template seats that an old trip lacks keeps the desk consistent and labels unique. |
| DeskInvariants.MissingSeatsAre | backend/src/trips/trips.service.ts:162-165 | The seats added are exactly the template seats whose labels the trip lacks. |
| DeskInvariants.EditingKeepsInv | backend/src/trips/trips.service.ts:242-269 | A price or status edit keeps every invariant of the desk. |
| DeskInvariants.HoldKeepsInv | backend/src/bookings/bookings.service.ts:48-98 | Holding and releasing a seat keep every invariant of the desk. |
| Selling.SoldSeatsAre | backend/src/bookings/bookings.service.ts:214-235 | A sale books exactly the seats of the order, each under its own new ticket, and touches no other seat. |
| Selling.SellKeepsInv | backend/src/bookings/bookings.service.ts:237-295 | A sale of claimable seats keeps every invariant of the desk. |
| Cancelling.RowsOfBooking | backend/src/bookings/bookings.service.ts:465-487 | A cancellation writes one refund for the booking's one payment, or none when nothing is due. (How much is due: Refunds.BookingRefundNearly.) |
| Cancelling.FreedSeats | backend/src/bookings/bookings.service.ts:492-497 | The seats freed are exactly those sold to the cancelled booking. |
| Cancelling.CancelKeepsInv | backend/src/bookings/bookings.service.ts:446-523 | Cancelling a booking keeps every invariant of the desk. |
| Cancelling.VoidTripFrame | backend/src/trips/trips.service.ts:333-380 | Ending the bookings of a trip ends each of its live bookings once and touches no other booking, seat or trip. |
| Cancelling.CancelTripKeepsInv | backend/src/trips/trips.service.ts:333-394 | Cancelling a trip keeps every invariant of the desk. |
| Refunds.BookingRefundNearly | backend/src/bookings/bookings.service.ts:455-490 | After a cancellation the payment of the booking has been refunded by what was paid less the fee, to within half a cent, and no other payment changes. |
| Refunds.TripRefundsNearly | backend/src/trips/trips.service.ts:322-366 | The same for every live booking of a cancelled trip; the payments of all other bookings stay. |
| Refunds.TripKeepsFee | backend/src/trips/trips.service.ts:322-366 | Of all that was paid for the bookings a trip cancellation ends, what is kept differs from the fee's percentage by at most half a cent per booking. |
| RequestTerms.FeeIsKept | backend/src/bookings/bookings.service.ts:455-468 | Once a fee is set it is what the cancellation of any booking keeps, to within half a cent, after any run in which it is not set again. |
| Refunds.CancelledStates | backend/src/bookings/bookings.service.ts:492-516 | Booking and tickets end REFUNDED if money went back and CANCELLED otherwise, and the payment shows whether all, part or none of it went back. |
| Refunds.CancellationExactly | backend/src/bookings/bookings.service.ts:446-523 | A booking can be cancelled if and only if it is CONFIRMED and its trip is neither DEPARTED nor COMPLETED; its seats go back on sale, a FULL trip is OPEN again, and no other seat or trip changes. |
| Refunds.TripCancellationExactly | backend/src/trips/trips.service.ts:307-394 | A trip can be cancelled if and only if it is neither CANCELLED nor COMPLETED; all its seats are blocked and no other seat or trip changes. |
| RequestTerms.FirstCancellation | backend/src/bookings/bookings.service.ts:398-535 | Under a free key of 8 to 128 characters a user cancels a booking if and only if an agent made it who is that user, or the user is no agent, and it can be cancelled; the commissions on it and no others are reversed and the key is kept for 24 hours. |
| RequestTerms.RepeatedCancellation | backend/src/bookings/bookings.service.ts:406-439 | Under a used key the same cancellation changes nothing and any other is refused, to agents who did not make the booking as if it did not exist. |
| RequestTerms.FirstTripCancellation | backend/src/trips/trips.service.ts:272-407 | Under a free key a trip is cancelled if and only if it can be; the commissions on its live bookings and no others are reversed. |
| RequestTerms.OrderRequest | backend/src/bookings/bookings.service.ts:123-163 | A fitting key that a booking carries brings that booking back to those who may see it; an order under any other key is accepted on its merits. |
| BookingsService.Bookings.Hold | backend/src/bookings/bookings.service.ts:48-90 | The conditional update holds the seat for ten minutes or the request is refused and nothing changes. (When: Orders.HoldExactly.) |
| BookingsService.Bookings.Release | backend/src/bookings/bookings.service.ts:92-98 | Only the holder's own hold is dropped, and the answer says whether there was one. |
| BookingsService.Bookings.ClaimSeats | backend/src/bookings/bookings.service.ts:211-235 | The claim loop succeeds exactly when all seats are claimable, books exactly these, and adds up their prices. |
| BookingsService.Bookings.LinkTickets | backend/src/bookings/bookings.service.ts:290-295 | Each seat sold, and no other, gets the number of its ticket. |
| BookingsService.Bookings.EarnCommissions | backend/src/bookings/bookings.service.ts:305-321 | The loop adds one commission per new ticket at the agent's rate. |
| BookingsService.Bookings.CreateBooking | backend/src/bookings/bookings.service.ts:100-344 | An order is answered with the booking its key already has, or carried out in full, or refused with the right error and no seat left claimed. (When: Orders.OrderExactly; what it writes: Orders.OrderWrites, OrderBooksSeats, OrderPaysAgent.) |
| BookingsService.Bookings.FreeSeatsOf | backend/src/bookings/bookings.service.ts:492-497 | The loop over tickets puts exactly the booking's seats back on sale. |
| BookingsService.Bookings.Cancel | backend/src/bookings/bookings.service.ts:398-535 | A cancellation is replayed, refused, or refunds, frees seats, reverses commissions and reopens a full trip as one step. (When: RequestTerms.FirstCancellation; how much: Refunds.BookingRefundNearly.) |
| Refunding.RefundPayments | backend/src/bookings/bookings.service.ts:463-490 | The refund loop refunds each payment what is due, enqueues one event per refund, returns the sum, and the refund trigger never refuses. (How much: Refunds.BookingRefundNearly.) |
| BackendInvariants.Enqueued | backend/src/accounting/accounting-events.ts:3-20 | After an event is enqueued it is there, exactly once, and no other event is new. |
| Leases.OthersAppendEvents | backend/src/accounting/accounting-events.ts:3-20 | Requests that are not about events only append to the queue; what they append waits, is ready at once and carries the time of the request. |
| Idempotency.CompletedDecides | backend/src/common/idempotency.ts:20-73 | For 24 hours after an operation was entered and completed its payload gets the resource back and any other payload is refused; then the key is free, and no other record is touched. |
| Database.Tables.BeginOperation | backend/src/common/idempotency.ts:20-56 | A live record replays or refuses; an expired or missing one is replaced by a new one for 24 hours. |
| TripsService.Trips.Create | backend/src/trips/trips.service.ts:78-107 | A new trip copies every template seat at the price given, on sale or blocked by its type. |
| TripsService.Trips.Seats | backend/src/trips/trips.service.ts:148-218 | Viewing seats repairs missing ones and drops expired holds. |
| TripsService.Trips.Update | backend/src/trips/trips.service.ts:221-269 | An edit changes the price of available seats only and refuses CANCELLED as a status. |
| TripTerms.CreationExactly | backend/src/trips/trips.service.ts:78-107 | A new trip has one seat per template seat, with its label and type, at the price asked for, on sale if REGULAR or VIP and blocked otherwise; other trips stay. |
| TripTerms.RepairExactly | backend/src/trips/trips.service.ts:160-180 | Viewing adds exactly the template seats that are missing, at the price of the trip's first seat, and nothing to a trip without seats. |
| TripTerms.EditExactly | backend/src/trips/trips.service.ts:242-269 | All available seats of the trip get the new price, no other seat of any trip does, and only this trip gets the new status. |
| RequestTerms.ViewExactly | backend/src/trips/trips.service.ts:148-196 | Viewing a trip ends exactly its holds that have run out, adds the missing seats, and changes nothing else of the database. |
| RequestTerms.ViewLeaves | backend/src/trips/trips.service.ts:160-191 | Afterwards no hold on the trip has run out, and a trip that had a seat has every seat of its template. |
| TripsService.Trips.EndBookings | backend/src/trips/trips.service.ts:333-380 | The nested loops refund and end each live booking of the trip and reverse its commissions, with one event per refund. (How much: Refunds.TripRefundsNearly.) |
| TripsService.Trips.Cancel | backend/src/trips/trips.service.ts:272-407 | A trip cancellation is replayed, refused, or ends all bookings, blocks all seats and cancels the trip as one step. |
| ManifestsService.Manifests.Generate | backend/src/manifests/manifests.service.ts:27-49 | A trip gets its manifest once. |
| ManifestsService.Manifests.Lock | backend/src/manifests/manifests.service.ts:70-118 | Locking a manifest makes the trip depart, once, and only if it has not ended. |
| TripTerms.LockingExactly | backend/src/manifests/manifests.service.ts:70-118 | A manifest can be locked if and only if it is generated and not locked and the trip is SCHEDULED, OPEN or FULL; that trip departs and no other trip changes. |
| Settlements.Earned | backend/src/bookings/bookings.service.ts:306-320 | One commission per ticket of a range, for its booking, at the rate on its fare. |
| SettlementProofs.AnyOverlapWillDo | backend/src/settlements/settlements.service.ts:37-54 | Which overlapping settlement the query returns decides nothing. |
| SettlementTerms.FirstDrawingUp | backend/src/settlements/settlements.service.ts:24-113 | Days that no settlement of the agent touches can be settled if and only if they run forwards, the agent exists and the fares cover the commissions. The new settlement takes exactly the agent's unreversed commissions from the start of the first to the end of the last day that no settlement took before, and its totals are the sums over these. |
| SettlementTerms.DrawingUpAgain | backend/src/settlements/settlements.service.ts:37-113 | An unsettled settlement over exactly the same days is drawn up again with the unreversed commissions on its own lines, under the same condition and with totals that are their sums. |
| SettlementTerms.OtherwiseRefused | backend/src/settlements/settlements.service.ts:37-54 | Any other days that a settlement of the agent touches are refused. |
| SettlementTerms.LossRefused | backend/prisma/migrations/20260826172000_settlement_period_integrity/migration.sql:1-7 | In the remaining cases only the database refuses a settlement, because its net would be negative. |
| SettlementProofs.RegenerationKeeps | backend/src/settlements/settlements.service.ts:56-112 | Drawing up an open settlement again keeps exactly those of its own lines whose commissions are still unreversed. |
| SettlementProofs.GenerateKeepsInv | backend/src/settlements/settlements.service.ts:37-113 | Generating keeps periods of one agent disjoint, lines true to their commissions, and totals equal to the sums of lines. |
| SettlementProofs.PaidOverall | backend/src/agents/agents.service.ts:73-82 | What final settlements paid an agent is the sum of the commissions on their lines. |
| SettlementProofs.BalanceMeaning | backend/src/agents/agents.service.ts:90-101 | The balance shown is what is earned and on no final settlement, less what final settlements paid for commissions reversed later. |
| BookRuns.BalanceExplained | backend/src/agents/agents.service.ts:63-101 | The balance has that meaning in every reachable state. |
| BookRuns.SettlementsSound | backend/src/settlements/settlements.service.ts:158-190 | In every run settlements of one agent are disjoint, each is the sum of its lines with net equal to sales minus commission, and a SETTLED one never changes. |
| AgencyRuns.SettledForGood | backend/prisma/migrations/20260826172000_settlement_period_integrity/migration.sql:12-25 | A SETTLED settlement and its lines are the same in every later state. |
| BookRuns.CommissionsSound | backend/src/bookings/bookings.service.ts:502-505 | In every reachable state a commission is unreversed exactly while its booking is CONFIRMED. |
| SettlementsService.SettlementDesk.DrawUp | backend/src/settlements/settlements.service.ts:24-114 | Generation has the effect of its request and the unique index on lines never objects. (Which commissions: SettlementTerms.FirstDrawingUp.) |
| SettlementsService.SettlementDesk.Settle | backend/src/settlements/settlements.service.ts:158-190 | Finishing a settlement marks it, enqueues its event, and is refused the second time. |
| ExpensesService.Expenses.Approve | backend/src/expenses/expenses.service.ts:119-150 | A draft is approved once and its event enqueued. |
| ExpensesService.Expenses.Adjust | backend/src/expenses/expenses.service.ts:152-182 | Only an approved expense is adjusted, by appending. |
| LedgerProofs.DraftsCanBePosted | backend/src/accounting/accounting.service.ts:510-527 | Every draft can be posted at any time: its period is still open although posting never looks. |
| LedgerTerms.DraftExactly | backend/src/accounting/accounting.service.ts:423-496 | A draft is accepted if and only if it has lines, each debits or credits one known account, debits equal credits, the period is open on the date, and number and source are new. |
| LedgerTerms.TriggerRefuses | backend/prisma/migrations/20260901094000_journal_reversal_transition/migration.sql:1-55 | The trigger refuses exactly: to post an unbalanced entry or one whose period is not open on its date, to change a posted entry other than to REVERSED once a posted entry reverses it, and to change a reversed one. |
| LedgerTerms.ReversalExactly | backend/src/accounting/accounting.service.ts:529-614 | In a reachable ledger an entry can be reversed if and only if it is POSTED, the period is open on the date, and number and source are new; the reversal takes back the entry's net on every account. |
| LedgerTerms.ClosingExactly | backend/src/accounting/accounting.service.ts:666-688 | A period can be closed if and only if it is open and holds no draft; it alone is closed afterwards. |
| LedgerTerms.ReportNets | backend/src/accounting/accounting.service.ts:269-310 | Over every account the report's balance is the net of the posted entries. |
| LedgerProofs.CreateKeepsInv | backend/src/accounting/accounting.service.ts:423-496 | A new draft keeps every invariant of the ledger: balanced one-sided entries in their periods, unique numbers and sources, no draft in a closed period. |
| LedgerProofs.ReversalKeepsReversals | backend/src/accounting/accounting.service.ts:565-614 | After a reversal each entry still has at most one reversal and is REVERSED exactly when it has one. |
| LedgerProofs.ReversalKeepsNets | backend/src/accounting/accounting.service.ts:594-614 | After a reversal all that was ever booked still nets, on every account, to what is in force. |
| LedgerProofs.ChainNet | backend/src/accounting/accounting.service.ts:582-614 | Over any account a chain of reversals of even length adds nothing and one of odd length its first entry. |
| LedgerProofs.ChainsAscend | backend/src/accounting/accounting.service.ts:562-570 | Chains only lead to later entries, so they are finite, and all but the last entry are REVERSED. |
| LedgerProofs.ReportBalances | backend/src/accounting/accounting.service.ts:269-310 | Over all accounts the report's debits, and so its credits, are the debits of the posted entries. |
| LedgerProofs.ReportCorrectExactly | backend/src/accounting/accounting.service.ts:269-273 | An account's reported balance is that of the books if and only if posted reversals add nothing to it. |
| BookRuns.ReversalMiscounted | backend/src/accounting/accounting.service.ts:269-273 | A run of six requests after which the books net to zero and the report shows minus 100. |
| BookRuns.BooksBalance | backend/src/accounting/accounting.service.ts:423-438 | In every reachable ledger each entry balances with one-sided lines and is dated inside its period, the report balances, every draft can be posted, and bookings net to what is in force. |
| BookRuns.ChainsCancel | backend/src/accounting/accounting.service.ts:557-614 | In every reachable ledger chains cancel or leave their first entry by their length. |
| BookRuns.ReversedExactly | backend/src/accounting/accounting.service.ts:565-614 | In every reachable ledger an entry is REVERSED exactly when one, and only one, later entry reverses it. |
| BookRuns.ClosedPeriodFrozen | backend/src/accounting/accounting.service.ts:666-688 | A closed period stays closed, gains no entry and holds no draft in any later state. |
| BookRuns.OneEntryForGood | backend/prisma/schema.prisma:879-921 | An event that has an entry keeps it through every run; the entry changes by being reversed only, and no other entry has its source. |
| BookRuns.FaresReachTheBooks | backend/src/accounting/accounting.service.ts:157-193 | The entry of a booking's payment debits and credits the sum of the booking's ticket fares. |
| BookRuns.OutboxComplete | backend/src/bookings/bookings.service.ts:296-303 | The outbox holds exactly one event for each payment, refund, approved expense and final settlement. |
| BookRuns.PostedExpenseDrifts | backend/src/accounting/accounting.service.ts:645-657 | After an expense was posted, its amount differs from its entry by exactly the adjustments made since. |
| BookRuns.PostedExpenseExactly | backend/src/accounting/accounting.service.ts:645-657 | The entry carries the amount now due if and only if the adjustments since posting add up to nothing. |
| Drift.ExpenseDrifted | backend/src/expenses/expenses.service.ts:152-173 | A run of eight requests after which the event is POSTED, its entry carries 100 and 150 is due. |
| PostingProofs.FreshPostingLinks | backend/src/accounting/accounting.service.ts:161-217 | A new posting makes one entry of two lines that carry the amount of the source at that moment, and links the event to it. (On which accounts: Postings.FreshPostingMoves.) |
| Postings.FreshPostingMoves | backend/src/accounting/accounting.service.ts:157-217 | The entry of a new posting nets to the amount on the policy's debit account, to its negative on the credit account, and to nothing on any other. |
| Postings.RequestLinksRightly | backend/src/accounting/accounting.service.ts:388-421 | Whatever request links an event to an entry, the entry debits and credits the accounts of the policy, and carries the amount of the source, of that moment. |
| Postings.EntriesMoveRightly | backend/src/accounting/accounting.service.ts:181-192 | In every reachable state each linked event was posted in some step of the run, and its entry still moves what the event was worth then from the credit to the debit account that the policy of its type named then, and touches no other account. |
| Postings.ResolveExactly | backend/src/accounting/accounting.service.ts:625-664 | A payment or refund is posted at its amount, a final settlement at its net, an approved expense at its amount with increases added and decreases taken off; nothing else can be posted. |
| Postings.EarliestOpenPeriod | backend/src/accounting/accounting.service.ts:398-407 | Automatic posting finds a period whenever one is open on the day, and takes the one that starts first. |
| RequestTerms.FreshPosting | backend/src/accounting/accounting.service.ts:132-218 | Under a free key an event is posted if and only if the key fits, its type has a policy, there is an amount above zero, the period is open on the date, and number and source are new. |
| RequestTerms.FreshPostingWrites | backend/src/accounting/accounting.service.ts:181-217 | It adds one posted entry with the number, date and period asked for, marks the event of the source POSTED under it and frees its lease, and keeps the key for 24 hours; nothing else changes. |
| Unpostable.ZeroNeverPosted | backend/src/accounting/accounting.service.ts:423-434 | The event of a settlement finished with a net of zero is in the queue in every later state and no request of any run posts it. |
| Unpostable.EmptySettlementNeverPosted | backend/src/settlements/settlements.service.ts:56-113 | Three requests reach such a settlement, over a day on which nothing was sold. |
| AccountingService.Accounting.DraftAndPost | backend/src/accounting/accounting.service.ts:167-194 | An entry that could be drafted is posted at once; posting never fails then. |
| AccountingService.Accounting.WriteReversal | backend/src/accounting/accounting.service.ts:557-614 | A reversal is drafted with sides exchanged and posted, and marking the original never fails. |
| AccountingService.Accounting.ReverseEntry | backend/src/accounting/accounting.service.ts:529-623 | A reversal request is replayed, refused, or carried out as one step. |
| AccountingService.Accounting.PostBusinessEvent | backend/src/accounting/accounting.service.ts:132-218 | A posting is replayed or made; where it stops it leaves its idempotency record and nothing else. (When and what: RequestTerms.FreshPosting, Postings.FreshPostingMoves.) |
| AccountingService.Accounting.ProcessEvent | backend/src/accounting/accounting.service.ts:388-421 | An event is posted under the key derived from it, unless it has its entry already. |
| BackendInvariants.OldestFirst | backend/src/accounting/accounting.service.ts:318-329 | The event taken from the queue was created no later than any other that could be claimed, and none is taken only if none could be. (When an event can be claimed: Leases.OthersAppendEvents for a new one, Abandoned.LeaseRunsOut for a claimed one, Leases.FailedEventWaits for a failed one.) |
| AccountingService.Accounting.ClaimNext | backend/src/accounting/accounting.service.ts:317-341 | The claim takes the earliest created of all claimable events that are not locked, counts the attempt and leases the event. (When a lease has run out: Abandoned.LeaseRunsOut.) |
| AccountingService.Accounting.ProcessNextEvent | backend/src/accounting/accounting.service.ts:314-364 | A caught error is committed with the failure mark and the record; a database error undoes the request. |
| AccountingEventWorker.Worker.RunOnce | backend/src/accounting/accounting-event.worker.ts:41-70 | A round does nothing while another runs; otherwise it claims, processes, and after a rollback reports failure, and is ready again. |
| Retries.RecordLasts | backend/src/common/idempotency.ts:33-44 | No request of any run changes an idempotency record before it expires. |
| Retries.RecordDecides | backend/src/common/idempotency.ts:33-41 | While its record lives a key takes effect once: the same payload replays the resource, another payload is refused. |
| Retries.BookingCancelledOnce | backend/src/bookings/bookings.service.ts:416-439 | For 24 hours a repeated cancellation changes nothing and yields the booking; another one under the key is refused. |
| Retries.TripCancelledOnce | backend/src/trips/trips.service.ts:284-305 | The same for trip cancellations. |
| Retries.EntryReversedOnce | backend/src/accounting/accounting.service.ts:541-555 | The same for reversals, which yield the first reversal; one that differs in entry, period, number, date or reason is refused. |
| RequestTerms.FirstReversal | backend/src/accounting/accounting.service.ts:529-614 | Under a free key a reversal succeeds if and only if the key fits and the entry can be reversed; it is recorded for 24 hours. |
| Retries.EventPostedOnce | backend/src/accounting/accounting.service.ts:141-155 | The same for postings, which yield the first entry; one that differs in anything is refused. |
| Retries.OrderTakenOnce | backend/src/bookings/bookings.service.ts:130-163 | The key of a booking is used up for good: a later order with it gets the booking, or is refused to an agent who did not make it. |
| Retries.ReadyEventPostsExactly | backend/src/accounting/accounting.service.ts:141-155 | An event that nothing stands in the way of is posted by a worker if and only if no live idempotency record exists under its key. |
| Retries.BlockedEvent | backend/src/accounting/accounting.service.ts:347-363 | A reachable state in which such an event is refused. |
| Leases.ClaimsBounded | backend/src/accounting/accounting.service.ts:318-340 | In any run an event is claimed at most five times between two requeues. |
| Leases.AttemptsCountClaims | backend/src/accounting/accounting.service.ts:332-340 | Attempts count committed claims; only a requeue sets them back. |
| Leases.FailedEventWaits | backend/src/accounting/accounting.service.ts:366-386 | A failed event can be claimed again exactly from a minute per attempt after the failure, never after five attempts, and can be requeued at once. |
| Abandoned.LeaseRunsOut | backend/src/accounting/accounting.service.ts:318-340 | A claimed event can be claimed again if and only if more than five minutes have passed and fewer than five attempts are counted. |
| Abandoned.AbandonedComesBack | backend/prisma/migrations/20260901113000_accounting_worker_claim/migration.sql:8-37 | After a worker claimed an event and crashed, and through any run in which nobody touches the event, it is refused for five minutes and can be claimed from then on, unless that was the fifth attempt; the next claim that finds it unlocked takes it or an event created no later. |
| Leases.HeldIsSafe | backend/src/accounting/accounting.service.ts:220-237 | While a worker is within five minutes of its claim nobody can claim or requeue its event. |
| Leases.LeasesExclude | backend/prisma/migrations/20260901113000_accounting_worker_claim/migration.sql:8-37 | If every worker finishes, fails or crashes within five minutes of its claim, no two ever hold the same event. |
| AdvisoryLocks.LevelsRise | backend/src/common/transaction-locks.ts:8-19 | Every request takes its advisory locks in rising level, whatever text clients send as keys. |
| AdvisoryLocks.NoDeadlock | backend/src/accounting/accounting.service.ts:513-547 | Among any requests that wait for advisory locks, one waits for a lock that none of the others has. |
| AdvisoryLocks.SomeoneMoves | backend/src/bookings/bookings.service.ts:147-148 | In every reachable state with requests under way one of them can take its next lock or end. |
| AdvisoryLocks.WaitingEnds | backend/src/common/idempotency.ts:27-32 | From any request, following who has the lock it wants is one path of at most five requests, because a lock has one holder, and ends in a request that can go on. |
| AdvisoryLocks.Excludes | backend/src/common/transaction-locks.ts:3-19 | In every reachable state two requests that have all their locks work on different trips, entries, agents, settlements and keys. |
| AdvisoryLocks.WaitsOnlyFor | backend/src/bookings/bookings.service.ts:147-148 | A request waits for another only if both work on the same of these, or an order's key spells the name of the other's lock. |
| Interleaving.NoDoubleSaleEver | backend/src/bookings/bookings.service.ts:214-235 | Under every interleaving of statements, with aborts and price edits, a committed seat is BOOKED exactly when one live ticket names it. |
| InterleavedMoney.MoneyAddsUpEver | backend/src/bookings/bookings.service.ts:237-280 | Under every such interleaving a booking's total is the sum of its fares and its payment, refunded amounts are the sums of refunds and within the payment, and REFUNDED means that there is a refund. |
| Serializability.SaleExactly | backend/src/bookings/bookings.service.ts:196-335 | A transaction commits the sale of an undivided request if and only if the prices and the count it has read are still right. |
| Serializability.CommitExactly | backend/src/bookings/bookings.service.ts:518-523 | A commit has the effect of the request run whole at that moment if and only if the status, prices and count it has read are still right (for a cancellation: the trip has not ended, and FULL or not is as read). |
| Serializability.Serializable | backend/src/common/transaction-locks.ts:3-19 | Any interleaving that no single statement disturbs has the effect of the same requests run whole in the order of their commits, none of them refused. |
| Serializability.LockHoldersSerialize | backend/src/common/transaction-locks.ts:3-19 | Orders, booking and trip cancellations and departures are serializable among themselves without condition. |
| Serializability.StalePriceNotSerial | backend/src/trips/trips.service.ts:242-249 | A price change between an order's read and its claim commits a desk that no sequence of whole requests produces. |
| SerialRuns.EverySerialRun | backend/src/common/transaction-locks.ts:3-19 | Conversely, any requests that can be run whole one after another can be run as transactions cut into statements that commit exactly them, in that order, with the same result. |
| SerialRuns.NobodyElseBlocks | backend/src/common/transaction-locks.ts:3-19 | Under every interleaving a transaction can start exactly on a trip that has none, unless an order under its key is under way, and an aborted one leaves no trace. |
| SerialRuns.FinishedCanCommit | backend/src/bookings/bookings.service.ts:196-344 | Under every interleaving a transaction that has done all its work is never refused its commit. |
| TenantContext.NestingDoesNothing | backend/src/prisma/prisma.service.ts:89-110 | Inside a request nested transactions and contexts of the organisation can be erased. |
| TenantContext.AbortedForGood | backend/src/prisma/prisma.service.ts:163-184 | Once the database has refused a statement the request writes nothing more and cannot end well, whatever it catches. |
| TenantContext.CaughtErrorsCommitExactly | backend/src/accounting/accounting.service.ts:344-363 | A request whose main work fails and is caught is committed if and only if no statement was refused by the database and the handler succeeds on what was left; otherwise nothing is. |
| TenantContext.OnlyCommittedRequestsWrite | backend/src/prisma/prisma.service.ts:124-131 | Outside a request the state after any work is exactly the effects of the requests that committed, in order. |
| EventTransactions.UsersRequestIs | backend/src/accounting/accounting.service.ts:314-364 | The nested transactions of a user's processing have exactly the outcome specified for the request, errors of the database included. |
| EventTransactions.WorkersRoundIs | backend/src/accounting/accounting-event.worker.ts:45-65 | The worker's separate transactions have exactly the effect specified for its round; a failed posting leaves nothing. |

## Left out

- The web application, controllers, guards, login, dashboards, searches, list queries, audit entries and health checks.
- Row-level security, tenant and branch filters: one organisation is modelled.
- Checks on buses, drivers, routes, customers and passengers; ticket check-in; manifest versions; journals and currencies; the deactivation of accounts and policies.
- The deletion of trips, agents, expense drafts and seats: rows keep their numbers.
- Below one request, the writes of a cancellation or departure are made in one step with its commit; a hold is a single statement, so its reading of the trip's status is not separated from its update; the repair of old trips and changes of the cancellation fee are not interleaved with other transactions.
- Locks on rows as a source of deadlock: row and advisory locks can cross when events are processed by hand.
- The order of rows in query results: an order visits its seats as requested, payments and bookings come by number, a trip's first seat is the first in the table.
- The width of numeric columns and the twenty significant digits of decimal arithmetic, beyond which the original would fail or round.
- Random ticket numbers and QR codes, hash collisions, and two events created in the same millisecond, which are taken in the order of their numbers.
- The timer that starts the worker's rounds, and the roles and settings that open a tenant's transaction.
