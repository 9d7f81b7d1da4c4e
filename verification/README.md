# The money and stock kernel of a billing platform, modelled and proved

This project models the part of the platform that counts things: the stock ledger and its balance
rows, the double-entry ledger with its fiscal periods and party ledgers, the GST engine and the money
type under it, the purchase documents that join stock and ledger, the tax snapshot that the two
government portals read, the outbox with its e-Invoice and e-Way Bill records, and the two bulk
importers. `dafny verify dfyconfig.toml` checks all of it.

How to read it:

- Each module has functions that say what an operation does to the tables, and a class or loop
  method that carries the operation out step by step as the Go code does and is proved to do the
  same. The laws are lemmas about the functions, so they hold of the methods.
- A decimal in memory is a `real`; a `numeric(20,6)` column is an `int` counting millionths, a
  `numeric(24,12)` rate an `int` counting its 12th place. `Decimals.ToColumn`, `Decimals.Div` and
  `TaxSnapshot.ToRate` are the roundings between them: to nearest, halves away from zero, and 16
  places for a division.
- Every induction is written out: lemmas carry `{:induction false}`.
- A row's id is its position in a table that only grows. Unique keys, CHECKs, COALESCE updates, row
  locks and the deferred journal trigger are modelled; a failed transaction leaves the tables as they
  were.
- The clock, the providers' answers, live master data, the rule evaluation, the exporter and whether
  a commit succeeds are parameters of the operations, so the laws hold for all of them.

## What is proved

**Stock** (`stock*.dfy`, `conversions.dfy`, `first_movements.dfy`, `interleaved_transfers.dfy`,
`reservation_interleaving.dfy`). A recorded movement says what was asked for and moves its row by the base
quantity that the recorded conversion between the two units gives, multiplied by one recorded towards the
base unit and divided by one recorded from it. Over every run: stock is never negative where the policy
forbids it; balance row and ledger differ by exactly the millionths by which single movements rounded
apart, which only a base quantity half-way between two storable ones can do; the average cost stays
between the smallest and largest base-unit receipt cost as the column stores them, unless a receipt
arrives on negative stock; reserved quantities are the sums of active reservations as long as releases
name their own keys, and then stay within the quantity on hand exactly if every outward movement takes no
more than is available. A receipt conserves value up to half a 16th-place unit per base unit on hand and
received, whatever the stock before it and for either direction of the unit conversion, unless it brings
the stock to exactly zero, and so do chains of receipts over any set of rows. Under row locks held to
commit, every interleaving of movement transactions on a set of keys commits what a serial run in commit
order does, exactly when the row of each known product among them exists; there transfers keep the total
over warehouses. For every interleaving of movements, reservations and releases in which movements find
their row and take only what is available and releases name their own keys, no stock is promised twice.

**Ledger** (`ledger*.dfy`, `account_balances.dfy`, `ageing.dfy`, `party_ledger.dfy`, `purchase*.dfy`,
`platform_runs.dfy`, `finalized_documents.dfy`). Over every serial run of direct posts, receipts,
payments, periods and locks, stock movements and purchase documents: earlier journals are never changed,
each journal has at least two one-sided lines and balances, and so does the whole ledger; a locked period
that no other period overlaps stays locked and gains no journal without the override permission; documents
only gain lines while they are drafts and never change once final. If no direct post or stock request
passes itself off as a purchase document's, every finalized document has posted its movements and its
journal exactly once and no other has posted any. If the direct posts of the run book nothing on a party,
that party's balance is payments minus receipts plus reducing documents minus the other posting ones. An
account that no direct post of the run names holds exactly what its receipts, payments and documents
booked there, each through the bank account its row names or else through cash. A finalized document
appends one stock entry and one journal as its own lines, dates and parties say; in base units it moves
each quantity by exactly what its lines say, and a receipt of goods not owed raises the value of stock by
quantity times price up to the slack of each line. The party ledger lists each day's lines in the order of
posting. The ageing loop leaves each debit open for what remains of the total after all later debits, its
total is the final balance minus the lowest balance ever reached, and each of the five bands sums the open
debits of its own dates.

**Tax** (`money.dfy`, `gst*.dfy`, `inclusive_prices.dfy`, `tax_snapshot.dfy`). Documents reconcile for
every list of lines; line and document tax stay within half a minor unit per component of the exact tax
(plus the slack of the 16-place divisions, which the lemmas name); a line bears CGST with UTGST or SGST
exactly within a state and IGST exactly between states; an inclusive line out of the database never gets a
negative taxable value exactly at combined rates below 150.00015000015%; splitting a supply within a state
or between states moves the rounded tax by at most one minor unit; and both portals receive exactly the
stored document tax, and for each line the rates configured for its code, halves rounded up.

**Portals** (`outbox.dfy`, `einvoice*.dfy`, `ewaybill*.dfy`). Over every sequential run of the poller,
with duplicate enqueues, retries, refused requests, lost answers and lost commits: one e-Invoice record
per document, every generated or finally failed record announced to webhooks, no committed record queued
or being submitted, a terminal record never changed and its document never sent to the provider again,
and, for documents queued under their own key, nothing sent after an answer and at most one invoice issued
unless an issuing call follows a lost answer. Over every serial run of e-Way Bill operations: one
free-portal record per document, its captured invoice unchanged but for transport details, and a
government result linked exactly when its four identifiers are those of that first capture.

**Imports** (`importer.dfy`, `catalogue_import.dfy`, `contacts_import.dfy`). A dry run and a committing
run of the same rows give the same outcome row by row, the four counts add up to the rows, re-importing
writes nothing, a row is accepted exactly if its cells allow it, and no two products or parties come to
bear names alike but for case and surrounding space.

## Where the code does not do what it says

The model follows the code. These statements of the code's own documentation or of its design do not
hold as they stand; each has a concrete or parametric counterexample and the exact condition under
which the statement holds.

- "Always re-derivable by replaying stock_movements" (the balance cache): the quantity and the ledger
  entry are rounded to six places separately. `StockLimits.CacheCanLeaveTheLedger`,
  `StockLaws.MovementDrift`, `StockLimits.DriftOfRun`.
- Transfers conserve the total quantity: exactly when both legs round alike.
  `StockLimits.TransferCanMakeStock`, `StockLaws.TransferTotal`.
- The total after a receipt is zero "only if both inputs are zero": a receipt can also bring negative
  stock to exactly zero. It is then stored at no cost, and value is kept exactly if there was none.
  `StockLaws.ReceiptToZeroLosesValue`, `StockLaws.ReceiptConservesValue`.
- The average cost lies between the receipt costs: for all runs exactly when the column does not round
  the smallest cost down or the largest up. `StockRuns.AverageCanLeaveTheCosts`,
  `StockLimits.AverageWithinExactly`.
- A released reservation gives back what it held: exactly if the caller names the reservation's own
  keys. `StockLimits.ForeignKeyKeepsReserved`, `StockLaws.ReleaseAgrees`.
- Reserved stock stays on hand: exactly if each outward movement takes no more than is available, which
  nothing checks. `StockLimits.OutwardIgnoresReservations`, `StockLimits.OutwardKeepsReserved`,
  `StockLimits.OutwardsDecide`.
- Row locks serialise movements: not the first ones, because a row that does not exist yet is not
  locked; every schedule is serial exactly if the rows of all known products concerned exist.
  `FirstMovements.FirstMovementCanBeLost`, `FirstMovements.SerialExactlyOnExistingRows`.
- A locked period is closed to users without the override: unless an unlocked period is laid over it,
  which needs no override. `LedgerLaws.OverlapOpensLockedPeriod`, `LedgerLaws.ClosedDates`.
- The intra-state halves and the inter-state whole are equal before rounding: exactly when the whole is
  an even number of 16th-place units. `GstLaws.HalvesCanExceedTheWhole`, `GstLaws.HalvesBeforeRounding`.
- The taxable value of an inclusive price is not negative: for amounts out of the database exactly at
  combined rates below 150.00015000015%, for any amount at least up to 149%.
  `InclusivePrices.TaxCanExceedGross`, `InclusivePrices.TaxableNotNegativeExactly`,
  `InclusivePrices.InclusiveTaxableNotNegative`.
- The rate the portals receive is the configured GST rate: exactly between states or when the rate is
  even in its 12th place. `TaxSnapshot.RateCanBeFiledHigher`, `TaxSnapshot.PortalRate`.
- Reprocessing "can never produce two IRNs for one document": if the provider issues an invoice and its
  answer is lost to a time-out or does not decode, the retry asks again under the same key, and there is
  a second invoice exactly if that call issues one.
  `EInvoiceRuns.LostAnswerIssuesTwice`, `EInvoiceRuns.RetryIssuesAgain`, `EInvoiceRuns.AtMostOneInvoice`.
- A dry run predicts the committing import: for parties, exactly if every row it calls valid has a
  currency code of at most three characters; otherwise the whole import fails.
  `ContactsImport.ValidRowCanFail`, `ContactsImport.CommitsWhatWasValid`.

Four guarantees rest on what callers do today, and the model shows where they would end. The e-Invoice
request of a document is queued under one key only; under a second one a lost commit would lead to a
second invoice even without a lost answer (`EInvoiceRuns.SecondKeyIssuesAgain`). Every caller of the
e-Way Bill service rolls back when the provider fails; one that kept the failed write would leave a
free-portal record in an API status (`EWayBillRuns.FreePortalCanFailLikeApi`,
`EWayBillRuns.OnlyLastingStatuses`). Rolling back also loses the NEEDS_INFORMATION mark of a failed
export (`EWayBillRuns.FailedExportMark`). Nothing calls the ledger's Post: a journal of finer amounts
than six places can pass the application's balance check and fail the database's, and the two agree
exactly when what the lines round away cancels out (`LedgerLaws.LayersCanDisagree`,
`LedgerLaws.LayersAgree`), which it always does for the two equal lines of a receipt, a payment or a
purchase (`LedgerLaws.MirroredPosts`). Nothing calls the e-Way Bill's Close, which says it marks "an
already-GENERATED" bill and looks at no status, so that the closed bill was a generated one exactly if
its record was (`EWayBillRuns.ClosesUngenerated`, `EWayBillRuns.CloseTakesAnyStatus`).

## Model

| member | source | states |
|---|---|---|
| Decimals.HalfAwayShift | internal/modules/inventory/app/service.go:217-235 | rounding to a column commutes with adding a stored quantity unless a tie changes sign, and then is one off in a known direction |
| Decimals.DivTimes | internal/modules/inventory/domain/costing.go:29-36 | multiplying a 16-place quotient back misses the dividend by at most half a 16th-place unit per divisor |
| Money.RoundingModes | internal/platform/money/money.go:177-194 | the two half modes are nearest and differ exactly on a tie with an even smaller neighbour; RoundDown never grows an amount and loses less than a minor unit |
| Money.RoundOnce | internal/platform/money/money.go:177-194 | a rounded amount is unchanged by rounding again, in any mode |
| Money.RoundOfNeg | internal/platform/money/money.go:153-194 | rounding and negation commute in every mode |
| Money.SumsAndDifferences | internal/platform/money/money.go:119-156 | amounts add and subtract exactly within one currency, and the one takes back the other |
| Money.UnitsPerMajor | internal/platform/money/money.go:31-63 | which currencies are registered and how many minor units a major one has |
| Stock.InverseIsPositive | internal/modules/catalogue/domain/domain.go:45-60 | an inverted conversion factor is usable exactly when the recorded one is at most 2e16 |
| Stock.Inventory.Record | internal/modules/inventory/app/service.go:131-250 | recording a movement on the tables is RecordMovement, whose effects and errors Conversions states, and an error changes nothing |
| Conversions.RecordedMovement | internal/modules/inventory/app/service.go:131-285 | in terms of request and recorded conversions: the entry a movement appends, and by how much its row moves and which way; no other row or reserved quantity changes |
| Conversions.WhenRecorded | internal/modules/inventory/app/service.go:131-250 | exactly when a movement is recorded |
| Conversions.ErrorsTell | internal/modules/inventory/app/service.go:131-250 | what is wrong with a movement refused with each error |
| Conversions.OnlyReceiptsCost | internal/modules/inventory/app/service.go:185-212 | only openings and purchase receipts change the average cost |
| Conversions.AdjustmentsPost | internal/modules/inventory/app/service.go:354-398 | an adjustment appends one costless entry per line as it was entered, and only damage, expiry and the two adjustment types are allowed |
| Conversions.TransferPosts | internal/modules/inventory/app/service.go:410-451 | a transfer appends its quantity, unit and reference out of the one warehouse and into the other |
| Stock.Inventory.RecordEach | internal/modules/inventory/app/service.go:378-388 | the loop over lines posts each in turn or nothing |
| Stock.Inventory.OpeningStock | internal/modules/inventory/app/service.go:312-340 | opening stock is an OPENING receipt |
| Stock.Inventory.Adjust | internal/modules/inventory/app/service.go:354-398 | an adjustment posts its lines together or not at all, and only of adjustment types |
| Stock.Inventory.Transfer | internal/modules/inventory/app/service.go:410-451 | a transfer posts both legs or neither, and never within one warehouse |
| Stock.Inventory.ReserveStock | internal/modules/inventory/app/service.go:465-500 | a reservation is written with the reserved quantity, if enough is available |
| Stock.Inventory.Release | internal/modules/inventory/app/service.go:504-522 | a release closes an active reservation and lowers the named row's reserved quantity |
| StockLaws.MovementDrift | internal/modules/inventory/app/service.go:178-235 | one movement keeps balance row and ledger in step exactly when its quantity does not round apart; otherwise they part by one millionth |
| StockLimits.CacheCanLeaveTheLedger | migrations/0012_inventory.up.sql:116-181 | a concrete run of an opening and an adjustment after which the balance row is not the sum of the ledger |
| StockLaws.CostlessMovement | internal/modules/inventory/app/service.go:183-212 | a movement that is no receipt shifts the quantity and leaves the cost |
| StockLaws.TransferTotal | internal/modules/inventory/app/service.go:424-446 | a transfer keeps both costs, and the total over the warehouses exactly when its legs round alike |
| StockLaws.ReceiptConservesValue | internal/modules/inventory/app/service.go:185-200 | whatever the stock before, value grows by the transacted value up to half a 16th-place unit per base unit on hand and received; at a total of zero it is kept exactly if there was none |
| StockLaws.ExactReceiptConservesValue | internal/modules/inventory/domain/costing.go:29-36 | with exact divisions value grows by exactly the transacted value unless the total is zero |
| StockLaws.ReceiptToZeroLosesValue | internal/modules/inventory/domain/costing.go:22-31 | a concrete receipt that brings negative stock to zero and loses five of value |
| StockLaws.StorageShiftsValue | internal/modules/inventory/pg/pg.go:145-157 | storing the row moves its value by at most half a millionth per unit and unit cost |
| StockValue.ReceiptsAddValue | internal/modules/inventory/app/service.go:185-200 | a chain of receipts raises the stored value of any rows holding theirs by what was paid, up to the slack of each receipt |
| StockLaws.ReceiptKeepsAverageBetween | internal/modules/inventory/domain/costing.go:29-36 | a receipt keeps the stored average between the stored costs |
| StockLaws.WhenReserved | internal/modules/inventory/app/service.go:465-500 | exactly when a reservation is made; it appends one active row and touches no stock |
| StockLaws.WhenReleased | internal/modules/inventory/app/service.go:504-522 | exactly when a reservation is released; it is kept as released and no stock is touched |
| StockLaws.ReserveAgrees | internal/modules/inventory/app/service.go:480-497 | reserving keeps reserved equal to the active reservations and within the quantity on hand |
| StockLaws.ReleaseAgrees | internal/modules/inventory/app/service.go:504-522 | releasing keeps it exactly when the keys are the reservation's own |
| StockRuns.StockNeverNegative | internal/modules/inventory/app/service.go:201-212 | over every run stock is never negative where the policy forbids it |
| StockRuns.CacheFollowsLedger | internal/modules/inventory/app/service.go:178-235 | over every run of untied movements the balance row is the signed sum of the ledger |
| StockRuns.AverageCostBetween | internal/modules/inventory/domain/costing.go:29-36 | over every run first filled by a receipt, with none arriving on negative stock, the stored average lies between the stored extreme costs |
| StockRuns.PolicyKeepsReceiptsSafe | internal/modules/inventory/app/service.go:201-212 | where the policy forbids negative stock no receipt ever arrives on any |
| StockRuns.AverageBetweenStorableCosts | internal/modules/inventory/domain/costing.go:29-36 | it lies between the costs themselves if those fit the column |
| StockRuns.AverageCanLeaveTheCosts | migrations/0012_inventory.up.sql:169-181 | a concrete receipt whose stored average is below its cost |
| StockRuns.ReservedFollowsReservations | internal/modules/inventory/app/service.go:465-522 | over every run with matching releases reserved is the sum of active reservations, and within on hand if nothing moves out |
| StockLimits.DriftOfRun | internal/modules/inventory/app/service.go:178-235 | over every run row and ledger differ by exactly what its movements rounded apart, and agree exactly if that cancels out |
| StockLimits.OutwardKeepsReserved | internal/modules/inventory/app/service.go:201-212 | an outward movement keeps reserved within on hand exactly if it takes no more than is available |
| StockLimits.OutwardsDecide | internal/modules/inventory/app/service.go:201-212 | over every run with matching releases reserved stays within on hand exactly if every outward movement fits |
| StockLimits.OutwardIgnoresReservations | internal/modules/inventory/app/service.go:201-212 | a concrete run that opens, reserves and sells the same unit |
| StockLimits.AverageWithinExactly | internal/modules/inventory/domain/costing.go:29-36 | the average lies between the extreme costs in all runs exactly when the column does not round the smallest down or the largest up |
| StockLimits.TransferCanMakeStock | internal/modules/inventory/app/service.go:424-446 | a concrete transfer that leaves one millionth more than there was |
| StockLimits.ForeignKeyKeepsReserved | internal/modules/inventory/app/service.go:504-522 | a concrete release under another key that gives nothing back |
| StockInterleaving.InterleavingsAreSerial | internal/modules/inventory/pg/pg.go:121-157 | every schedule that finds its rows commits what the same programs commit one at a time in commit order |
| StockInterleaving.InterleavingsKeepStock | internal/modules/inventory/app/service.go:178-235 | so no interleaving makes stock negative or parts untied rows from the ledger |
| InterleavedTransfers.CommittedTransferTotal | internal/modules/inventory/app/service.go:410-451 | among any other transactions a committing transfer keeps the total of its two warehouses exactly when its legs round alike |
| InterleavedTransfers.InterleavedTransfersKeepTotal | internal/modules/inventory/app/service.go:410-451 | no interleaving of untied transfers changes the total over any rows they stay within |
| ReservationInterleaving.InterleavedReservationsAgree | internal/modules/inventory/app/service.go:463-522 | no interleaving of movements, reservations and releases parts a reserved quantity from the active reservations |
| ReservationInterleaving.NothingIsPromisedTwice | internal/modules/inventory/app/service.go:463-500 | concurrent reservations against the last unit cannot both succeed: active reservations stay within on hand |
| ReservationInterleaving.AloneIsSerial | internal/modules/inventory/app/service.go:463-522 | run alone, a transaction of one movement, reservation or release commits exactly what its operation does to the tables |
| FirstMovements.FirstMovementCanBeLost | internal/modules/inventory/pg/pg.go:112-157 | from any tables without the row, two first movements of any kind on one key can both commit and be counted once in the row, unlike in any serial run |
| FirstMovements.SerialExactlyOnExistingRows | internal/modules/inventory/pg/pg.go:112-157 | every schedule of transactions on a set of keys is serial exactly when the row of each known product among them exists |
| Ageing.GetPartyLedger | internal/modules/accounting/app/service.go:499-527 | the running balances are those of the prefixes |
| Ageing.LowestIsLowest | internal/modules/accounting/app/service.go:512-525 | LowestBalance is reached by some prefix and by none undercut |
| Ageing.OpenDebitsClosedForm | internal/modules/accounting/app/service.go:555-580 | the consumption leaves each debit what remains after all later ones; the total is final minus lowest balance |
| Ageing.AgeingAgreesWithLedger | internal/modules/accounting/app/service.go:512-525 | the ageing total is the last running balance exactly when no running balance was negative |
| Ageing.ClosedAt | internal/modules/accounting/app/service.go:556-580 | the open amount of debit i is the total minus all later debits, clamped to the debit |
| Ageing.BandsPartition | internal/modules/accounting/app/service.go:581-603 | for every date the five bands partition the open amounts |
| Ageing.ReportOfSorted | internal/modules/accounting/app/service.go:581-603 | the report does not depend on the order in which open debits are visited |
| Ageing.ReportIsByDate | internal/modules/accounting/app/service.go:581-603 | each band is the sum of the open debits dated in its own stretch of days before the report |
| Ageing.ConsumeInPlace | internal/modules/accounting/app/service.go:560-577 | the in-place loop over the array is Consume |
| Ageing.GetAgeing | internal/modules/accounting/app/service.go:537-607 | the whole operation returns the open debits of the closed form summed band by band, each band by the dates it covers, and their total |
| Ledger.ValidateBalanced | internal/modules/accounting/app/service.go:228-241 | the loop accepts exactly one-sided lines with equal totals, and says which check failed |
| Ledger.Accounting.DoPost | internal/modules/accounting/app/service.go:243-315 | posting checks, locks and inserts as PostTx does |
| Ledger.Accounting.PostJournal | internal/modules/accounting/app/service.go:186-200 | a post commits whole, through the deferred trigger, or leaves the books unchanged |
| Ledger.Accounting.Receive | internal/modules/accounting/app/service.go:355-420 | a receipt row with its bank account, and its journal, together or nothing |
| Ledger.Accounting.Pay | internal/modules/accounting/app/service.go:425-490 | a payment row with its bank account, and its journal, together or nothing |
| LedgerLaws.NewPeriodOpens | internal/modules/accounting/app/service.go:615-631 | a period is created exactly by a poster, with its end after its start; it closes no date and opens every closed date it covers |
| LedgerLaws.LockingLaws | internal/modules/accounting/app/service.go:651-690 | locking opens no date, unlocking closes none and takes the override, and the opposite call undoes either for whoever may make it |
| LedgerLaws.LedgerBalances | migrations/0020_accounting.up.sql:85-136 | the whole ledger balances when each journal does |
| LedgerLaws.PostingGrows | internal/modules/accounting/app/service.go:243-315 | a committed posting appends one balanced, one-sided journal dated outside what is barred |
| LedgerLaws.WhenPosted | internal/modules/accounting/app/service.go:186-315 | exactly when a direct post goes through, and what is wrong with a journal refused with each error |
| LedgerLaws.PostedAsRequested | internal/modules/accounting/app/service.go:243-315 | the journal appended has the requested source, date and lines, each amount rounded to the nearest the column stores |
| LedgerLaws.StorableJournalsCommit | migrations/0020_accounting.up.sql:111-136 | amounts that fit six places pass the trigger whenever they pass the application's check |
| LedgerLaws.LayersAgree | migrations/0020_accounting.up.sql:111-136 | the trigger passes what the application passed exactly when the lines' rounding errors cancel out |
| LedgerLaws.LayersCanDisagree | internal/modules/accounting/app/service.go:228-241 | a concrete journal balanced as requested and not as stored |
| LedgerLaws.MirroredPosts | internal/modules/purchases/app/service.go:295-317 | exactly when a two-line journal posts, swapped or not; the trigger never objects |
| LedgerLaws.ReceiptBooksTheCustomer | internal/modules/accounting/app/service.go:355-420 | exactly when a receipt is recorded, and the two lines it books |
| LedgerLaws.PaymentBooksTheSupplier | internal/modules/accounting/app/service.go:425-490 | exactly when a payment is recorded, and the two lines it books |
| LedgerLaws.SettlementErrors | internal/modules/accounting/app/service.go:355-490 | exactly when a receipt or payment is refused for its permission, amount, bank account or locked period |
| AccountBalances.ReceiptMovesItsAccount | internal/modules/accounting/app/service.go:355-420 | a receipt debits its bank account's ledger account or cash, credits receivables and moves no other balance |
| AccountBalances.PaymentMovesItsAccount | internal/modules/accounting/app/service.go:425-490 | a payment credits its bank account's ledger account or cash, debits payables and moves no other balance |
| AccountBalances.AccountsExplained | internal/modules/accounting/app/service.go:355-490 | over every run whose direct posts leave an account alone its balance is what the receipts, payments and documents on record booked there |
| LedgerLaws.ClosedDates | internal/modules/accounting/app/service.go:257-265 | a date is closed to a user whatever row the lookup returns exactly when the user has no override, it is covered and every covering period is locked; it can be found closed exactly when some covering period is |
| LedgerLaws.OverlapOpensLockedPeriod | internal/modules/accounting/pg/pg.go:277-280 | laying a period over a locked one lets a user without the override post into it |
| PurchaseLaws.TotalIsClose | internal/modules/purchases/app/service.go:190-240 | however many lines are added, the total is within half a millionth a line of the exact sum and nothing else changes |
| PurchaseLaws.LinesAreEntered | internal/modules/purchases/app/service.go:190-240 | the lines of a document are those entered, in their order, each column with its own nearest figure |
| PurchaseLaws.WhenLinesAdded | internal/modules/purchases/app/service.go:190-240 | exactly when any number of lines can be added to a document |
| PurchaseLaws.WhenDrafted | internal/modules/purchases/app/service.go:83-124 | exactly when a document can be created, the empty draft it starts as, and when it can then be filled |
| PurchaseLaws.PurchaseBooksTheSupplier | internal/modules/purchases/app/service.go:246-331 | a document created, filled and finalized moves its supplier's balance by the exact cost of its lines up to half a millionth a line |
| Purchases.Purchasing.PostStock | internal/modules/purchases/app/service.go:269-293 | one movement per line of a stock-affecting document |
| Purchases.Purchasing.PostJournal | internal/modules/purchases/app/service.go:295-317 | the in-place swap turns a purchase journal into a return's; nothing is posted for a total of zero |
| Purchases.Purchasing.FinalizeDocument | internal/modules/purchases/app/service.go:246-331 | stock, journal and status change together, or a failed finalize changes none of them |
| PlatformRuns.LedgerStaysSound | internal/modules/accounting/app/service.go:228-315 | over every run earlier journals stay and every journal and the ledger balance |
| PlatformRuns.LockedPeriodStaysShut | internal/modules/accounting/app/service.go:257-265 | over every run without the override in which no new period overlaps it a locked period stays locked and gains no journal |
| PlatformRuns.FinalDocumentsStay | internal/modules/purchases/app/service.go:83-124 | over every run documents are never removed, keep all but lines and status, gain lines only as drafts and never change once final |
| PlatformRuns.PayablePosts | internal/modules/purchases/app/service.go:295-317 | the journal of a document posts exactly unless its date is barred or one of the two accounts is missing |
| PlatformRuns.FinalizePosts | internal/modules/purchases/app/service.go:252-331 | exactly when a finalization goes through, and which movements, journal and status it then leaves |
| FinalizedDocuments.FinalizedEntries | internal/modules/purchases/app/service.go:269-317 | the stock entries and the journal a finalized document appends, in terms of the document alone |
| FinalizedDocuments.FinalizedQuantities | internal/modules/purchases/app/service.go:269-293 | a finalized document in base units moves every row by exactly what its lines say |
| FinalizedDocuments.FinalizedValue | internal/modules/purchases/app/service.go:269-293 | a finalized receipt of goods not owed raises the stored value by quantity times price over its lines, up to the slack of each line |
| PlatformRuns.FinalizedPostedOnce | internal/modules/purchases/app/service.go:252-331 | over every run in which nothing else posts in a document's name, each finalized document has its movements and its journal exactly once, others none |
| PlatformRuns.SupplierBalance | internal/modules/accounting/app/service.go:439-476 | over every run whose direct posts leave the party alone its balance is payments minus receipts plus reducing documents minus other posting ones |
| PartyLedger.LastBalanceIsPartyBalance | internal/modules/accounting/pg/pg.go:217-240 | the last running balance of the party ledger is the party's balance in the journals up to the date |
| PartyLedger.ListedByDay | internal/modules/accounting/pg/pg.go:217-240 | the rows run from the earliest day to the latest, each day holding the party's lines in the order of posting and no day after the report's any |
| PartyLedger.ReachableRowsAreValid | migrations/0020_accounting.up.sql:92-96 | after every run the party ledger has only the rows ageing relies on |
| PartyLedger.SupplierLedgerAfterRun | internal/modules/accounting/app/service.go:499-527 | after every such run the supplier's party ledger ends at payments minus receipts plus reducing minus other documents |
| Gst.RoundEach | internal/modules/gstindia/engine.go:160-171 | the loop rounds each component in place and sums the rounded amounts |
| Gst.CalculateLine | internal/modules/gstindia/engine.go:96-208 | a line fails exactly for a missing rate, and reconciles gross, taxable and tax in minor units |
| Gst.LineLevied | internal/modules/gstindia/engine.go:124-158 | within a state CGST then UTGST or SGST at half the rate each, between states IGST at the rate, and cess exactly if it has a rate |
| Gst.CalculateLines | internal/modules/gstindia/engine.go:64-85 | the loop over the lines keeps results and both totals, and fails exactly if some line has no rate |
| Gst.Calculate | internal/modules/gstindia/engine.go:54-93 | when a document is accepted and with which error it is not; the kinds, rates and order of every line's components by its two state codes; grand total = taxable + tax = sum of grosses, with the entered amounts the grosses if all are inclusive and the taxable values if all are exclusive |
| Gst.LinesReconcile | internal/modules/gstindia/engine.go:160-194 | for every list of lines the grosses are the taxables plus the taxes |
| GstLaws.InclusiveSplits | internal/modules/gstindia/engine.go:117-122 | an inclusive amount is exactly its exact taxable value plus its exact tax |
| GstLaws.PercentagesAddUp | internal/modules/gstindia/engine.go:124-158 | however a supply is split its percentages add up to GST plus cess |
| GstLaws.LineTaxIsClose | internal/modules/gstindia/engine.go:160-183 | a line's tax is within half a minor unit per component of the exact tax |
| GstLaws.ComponentIsClose | internal/modules/gstindia/engine.go:160-172 | each component of a calculated line is within half a minor unit of its own percentage of the exact taxable value |
| GstLaws.InclusiveTaxableIsClose | internal/modules/gstindia/engine.go:117-122 | the derived taxable is within (components + 1)/2 minor units of the exact quotient |
| InclusivePrices.InclusiveTaxableNotNegative | internal/modules/gstindia/engine.go:160-183 | at combined rates up to 149% an inclusive line of any amount has a tax between zero and its rounded gross |
| InclusivePrices.TaxableNotNegativeExactly | internal/modules/gstindia/engine.go:160-183 | inclusive lines of stored amounts all keep a taxable value that is not negative exactly at combined rates below 150.00015000015% |
| InclusivePrices.TaxCanExceedGross | internal/modules/gstindia/engine.go:160-183 | a concrete line of 2.49 paise with a gross of two paise and a tax of three |
| GstLaws.HalvesBeforeRounding | internal/modules/gstindia/engine.go:124-158 | before rounding the two halves equal the whole exactly when it is an even count of 16th-place units |
| GstLaws.HalvesCanExceedTheWhole | internal/modules/gstindia/engine.go:124-158 | a concrete line, a hundred rupees inclusive of 5%, whose two halves exceed the whole |
| GstLaws.IntraAndInterState | internal/modules/gstindia/engine.go:124-172 | the two splits' taxes differ by at most one minor unit, with or without cess |
| GstLaws.DocumentTaxIsClose | internal/modules/gstindia/engine.go:64-93 | a document's tax is within the summed line bounds of the exact tax |
| TaxSnapshot.StoredExactly | migrations/0016_taxation.up.sql:72-79 | a rounded amount of any registered currency is stored without loss |
| TaxSnapshot.SplitForEWayBill | internal/modules/ewaybill/app/service.go:533-571 | the nested loops compute the four totals and the rates per line reference |
| TaxSnapshot.RateForEInvoice | internal/modules/einvoice/app/service.go:222-231 | the loop computes the same combined rate as the e-Way Bill |
| TaxSnapshot.TaxIsKept | internal/modules/ewaybill/app/service.go:541-603 | the four totals and the line taxes add up to the stored document tax, which is the calculated one |
| TaxSnapshot.LineRates | internal/modules/taxation/app/service.go:188-206 | the rates stored for a line under each heading |
| TaxSnapshot.PortalRate | internal/modules/einvoice/app/service.go:222-231 | both portals receive the configured rate exactly between states or at a rate even in its 12th place |
| TaxSnapshot.RateCanBeFiledHigher | internal/modules/einvoice/app/service.go:222-231 | 18.000000000001 per cent within a state is filed as 18.000000000002 |
| TaxSnapshot.FiledUnderRef | internal/modules/ewaybill/app/service.go:567-570 | a line is filed at its own rates unless a later line repeats its reference |
| TaxSnapshot.FiledAtConfiguredRates | internal/modules/ewaybill/app/service.go:533-571 | a line of a calculated and stored document whose reference is not repeated is filed at the rates configured for its HSN/SAC code |
| Outbox.Backoff | internal/platform/outbox/outbox.go:193-202 | the doubling loop waits min(2^(attempts-1), 60) minutes |
| Outbox.DelayDoubles | internal/platform/outbox/outbox.go:193-202 | the first delay is a minute and each further one twice the last, an hour at most |
| Outbox.WhenClaimable | internal/platform/outbox/outbox.go:161-191 | when a marked event can be claimed again: a retryable one within the hour, a permanent one after a hundred years, a done one never |
| Outbox.NextIsUnique | migrations/0023_outbox.up.sql:67-85 | the event claimed is the oldest claimable one |
| Outbox.EnqueuedOnce | internal/platform/outbox/outbox.go:110-127 | after enqueueing there is exactly one event under the key, the first one, and enqueueing under it again changes nothing |
| EInvoice.Worker.ClaimNext | internal/platform/outbox/outbox.go:137-153 | the oldest claimable event becomes PROCESSING with one more attempt |
| EInvoice.Worker.MarkFailed | internal/platform/outbox/outbox.go:175-191 | a failure is rescheduled by the backoff, or a hundred years on |
| EInvoiceRuns.IrnIsTheLatest | internal/modules/einvoice/pg/pg.go:73-100 | through any number of partial updates the IRN is the latest one brought, or the original |
| EInvoiceRuns.IrnNeverReset | internal/modules/einvoice/pg/pg.go:73-100 | no number of partial updates takes an IRN away, and the status is the last one set |
| EInvoice.Worker.GenerateForDocument | internal/modules/einvoice/app/service.go:96-164 | the record's path through one attempt, and the one call it may make |
| EInvoice.Worker.ProcessOnce | internal/platform/outbox/poller.go:61-90 | the claim commits alone, handler and mark together or not at all |
| EInvoiceRuns.EventAfterPoll | internal/platform/outbox/poller.go:61-91 | what each way a handler can end makes of the event it was given: done, due after the next delay, or resting |
| EInvoiceRuns.OthersAreSubmitted | internal/modules/einvoice/app/service.go:96-164 | exactly the generated, finally failed and cancelled records are left alone; any other is sent and ends in one of three statuses |
| EInvoiceRuns.EverySaleIsAsked | internal/modules/sales/app/service.go:508-515 | over every run a document that was ever queued has a request, whatever else was queued |
| EInvoiceRuns.RecordsStaySound | internal/modules/einvoice/app/service.go:96-164 | over every run: one record per document, none queued or submitting, terminal records unchanged |
| EInvoiceRuns.TerminalIsLeftAlone | internal/modules/einvoice/domain/domain.go:112-124 | over every run the provider is never asked about a document whose record is generated, finally failed or cancelled |
| EInvoiceRuns.OutcomesAreAnnounced | internal/modules/einvoice/app/service.go:96-187 | over every run a record generated or finally failed has its webhook event, under its own key, and no other record has one |
| EInvoiceRuns.AtMostOneInvoice | internal/modules/sales/app/service.go:508-515 | over every run, lost commits included, nothing is sent for a document after an answer, and at most one invoice is issued for it exactly if no issuing call follows a lost answer |
| EInvoiceRuns.AtMostOneWithoutLoss | internal/modules/sales/app/service.go:508-515 | over every run in which no answer is lost at most one invoice is issued per document queued under its key |
| EInvoiceRuns.RetryIssuesAgain | internal/modules/einvoice/app/service.go:136-150 | after a lost answer the retry issues a second invoice exactly if it issues at all |
| EInvoiceRuns.LostAnswerIssuesTwice | internal/modules/einvoice/v1/sandbox/sandbox.go:222-242 | a concrete run under one key with a lost answer and two invoices |
| EInvoiceRuns.RecordedInvoicesWereIssued | internal/modules/einvoice/app/service.go:150-163 | over every run a recorded IRN and acknowledgement were issued for that document |
| EWayBill.Service.GenerateForDocument | internal/modules/ewaybill/app/service.go:108-165 | the provider's route: one record, or the latest one unless terminal |
| EWayBillRuns.ProviderRoute | internal/modules/ewaybill/app/service.go:108-165 | what the provider's route leaves of a document with no record, with a terminal one and with any other |
| EWayBill.Service.GetOrCreateFreePortalRecord | internal/modules/ewaybill/app/service.go:450-489 | the stored bill is reused; live data is read only for a first capture |
| EWayBill.Service.EvaluateEligibility | internal/modules/ewaybill/app/service.go:286-314 | eligibility sets the status unless the record is terminal for another reason |
| EWayBillRuns.AssessedStatus | internal/modules/ewaybill/app/service.go:286-314 | the status each requirement gives, and the statuses it does not overwrite |
| EWayBill.Service.UpdateTransportInfo | internal/modules/ewaybill/app/service.go:243-272 | only the given transport fields of the bill change |
| EWayBillRuns.PatchedExactly | internal/modules/ewaybill/app/service.go:243-272 | each given transport field replaces its own and every other one stays |
| EWayBill.Service.PrepareFreePortalUpload | internal/modules/ewaybill/app/service.go:319-363 | a file is prepared only for a ready bill |
| EWayBillRuns.UploadNeedsReady | internal/modules/ewaybill/app/service.go:319-363 | a file is prepared exactly if the bill is captured, the rules call it ready and it exports; the record then awaits the portal |
| EWayBillRuns.ManualResultAlwaysTaken | internal/modules/ewaybill/app/service.go:378-396 | a typed-in result is taken whatever the status, keeps the capture, and makes the bill cancellable |
| EWayBillRuns.ResultsAreLinked | internal/modules/ewaybill/app/service.go:378-440 | number, validity from and until, and source of a linked result |
| EWayBill.Service.ImportAndVerifyResult | internal/modules/ewaybill/app/service.go:412-440 | an imported result is linked only if its four identifiers match |
| EWayBillRuns.CloseTakesAnyStatus | internal/modules/ewaybill/app/service.go:178-186 | closing succeeds for a known role and record of any status, and closes a generated bill exactly if the record was one |
| EWayBillRuns.ClosesUngenerated | internal/modules/ewaybill/app/service.go:178-186 | a concrete run that closes a bill assessed as not required |
| EWayBillRuns.CancelledOnce | internal/modules/ewaybill/app/service.go:198-211 | exactly when a bill is cancelled; it is then neither cancelled again nor sent to the provider again |
| EWayBillRuns.CaptureIsKept | internal/modules/ewaybill/app/service.go:442-489 | over every run one free-portal record per document, its capture unchanged but for transport |
| EWayBillRuns.ImportLinksOnlyItsInvoice | internal/modules/ewaybill/app/service.go:412-435 | after any run a result is linked exactly if it matches the first capture, else nothing changes |
| EWayBillRuns.FailedExportMark | internal/modules/ewaybill/app/service.go:343-363 | a failed export marks the record, and a caller that rolls back loses the mark |
| EWayBillRuns.OnlyLastingStatuses | internal/modules/ewaybill/domain/domain.go:35-48 | if callers roll back failures no record is seen queued, submitting, preparing or failed |
| Importer.ToRows | internal/platform/importer/importer.go:72-95 | every record becomes a numbered row of its trimmed cells under the trimmed header |
| Importer.FieldHoldsItsCell | internal/platform/importer/importer.go:78-92 | every named column is a field of every row, with the last such column's cell or an empty one |
| Importer.TrimKeepsTheMiddle | internal/platform/importer/importer.go:72-95 | trimming removes white space at both ends, all of it and nothing else |
| Importer.SpacesByCode | internal/platform/importer/importer.go:72-95 | which characters are the white space that trimming removes |
| Importer.Builder.Report | internal/platform/importer/importer.go:150-165 | the four counts are those of the results and add up to the rows |
| Importer.DryRunPredicts | internal/platform/importer/importer.go:100-107 | dry run and commit agree row by row with VALID for COMMITTED, and in all other counts |
| Importer.WrittenKeys | internal/modules/catalogue/app/import.go:63-86 | an entity is written under a key exactly if some acceptable row brings it and it was free |
| CatalogueImport.Catalogue.ImportProducts | internal/modules/catalogue/app/import.go:24-95 | the loop's report and writes are those of one pass over the validated rows |
| CatalogueImport.AcceptedExactly | internal/modules/catalogue/app/import.go:46-86 | exactly which rows are acceptable, and the product each becomes |
| CatalogueImport.ReimportCommitsNothing | internal/modules/catalogue/app/import.go:30-90 | importing the same rows again finds only duplicates and the same errors |
| CatalogueImport.NamesStayDistinct | internal/modules/catalogue/app/import.go:63-86 | products named differently stay so |
| CatalogueImport.ProductsStayDistinct | internal/modules/catalogue/app/import.go:63-86 | no two products come to bear names alike but for case and surrounding space |
| ContactsImport.Contacts.ImportParties | internal/modules/contacts/app/import.go:23-91 | likewise for parties; the commit fails whole exactly if the table refuses a row |
| ContactsImport.AcceptedExactly | internal/modules/contacts/app/import.go:40-81 | exactly which rows are acceptable, and the party each becomes |
| ContactsImport.CommitsWhatWasValid | migrations/0009_contacts.up.sql:8-13 | a commit goes through exactly if every valid row's currency code fits |
| ContactsImport.ValidRowCanFail | internal/modules/contacts/app/import.go:46-81 | a valid row with a longer currency code fails the import |
| ContactsImport.ReimportCommitsNothing | internal/modules/contacts/app/import.go:29-95 | importing the same rows again finds only duplicates and the same errors |
| ContactsImport.KeysStayDistinct | internal/modules/contacts/app/import.go:93-95 | parties of a type named differently stay so |
| ContactsImport.PartiesStayDistinct | internal/modules/contacts/app/import.go:93-95 | no two parties of a type come to bear names alike but for case and surrounding space |

## Left out

- Serial numbers and batches of stock movements: their status is not checked on the way out, so there is no invariant to state.
- Column overflow: `numeric(20,6)` and `numeric(24,12)` are unbounded here, and a text column takes any text.
- Transfer, adjustment and receipt header rows that nothing reads back, audit entries, document numbers, view permissions.
- The sales module and its finalization: the queue entry it makes is a parameter of the runs.
- `RegisterCurrency`: the currency table is the one the money package starts with.
- MulDecimal, Cmp and the string and JSON forms of money; purchase line totals multiply decimals directly.
- A service built without its accounting, outbox or free-portal dependencies.
- Concurrent purchases, postings and polls: only stock movements, transfers, reservations and releases are interleaved, everything else is serial. FinalizeDocument reads its document without a lock, so exactly-once is a claim about serial runs.
- Database failures other than the CHECKs, keys, column lengths and lost commits named above; deadlocks and liveness.
- Ties in `created_at`: records and events are found in the order they were written.
- Part-B history of e-Way Bills, and when they were closed or cancelled.
- Evaluation of eligibility rules, the portal file format, provider clients, webhooks and notifications: their outcomes are parameters.
- Letter case is mapped character by character, by any mapping; text the database rejects for its encoding is not modelled.
- The numbering of importer rows that a caller passes in, and the CSV and XLSX readers.
- PlatformRuns.SupplierBalance: a direct post may book anything on any party, so runs in which one names the party are excluded.
- FinalizedDocuments.FinalizedQuantities: a document with a line in another unit than the base one moves its rows by what Conversions.RecordedMovement says line by line, because each line's conversion is rounded on its own.
- FinalizedDocuments.FinalizedValue: receipts of goods owed at the warehouse are excluded, because one that brings stock to exactly zero loses value (StockLaws.ReceiptToZeroLosesValue).
- The endless polling loop around ProcessOnce and its sleep.
- HTTP handlers, the web client, crypto, sessions, roles, pricing, eligibility selection, logistics and organisation records: no hard property.
