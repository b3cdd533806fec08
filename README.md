# Clinic ledger — a verified model of the money-handling core of `app.js`

The application is a single-page dental-clinic manager. All of its data lives in
one global object, `appData`, which the handlers mutate and then persist with
`saveData()`. This project models the part of it that handles money and the
records that depend on it:

- the invoice ledger: adding procedure lines, totals and discount, invoice
  numbering, and the link to the same-day appointment;
- payments with the 0.01 overpayment tolerance, and the strictly
  last-in-first-out reversal of payments;
- commissions and payroll: commission rates, the accrual window after the last
  payout, salary advances and their cap, net salary, and staff deletion;
- the daily cash reconciliation (the "cuadre"): per-method sums, cash on hand,
  the write-only-on-change snapshot store, and the 7-day history;
- patient balances, the amount still owed ("por cobrar"), and the audit log
  written before an invoice is deleted;
- the secondary sequential logic around it: the appointment checks and overlap
  rule, the lab-order state machine and timeline, the appointment status
  history, the data migration, CSV parsing and the import filter, and the
  batching of the patient list when saving.

## Layout

| file | module | what it holds |
|---|---|---|
| `wrappers.dfy` | `Wrappers` | `Option`, `Result`, `Outcome` |
| `text.dfy` | `Text` | the string built-ins the code relies on (`trim`, `toLowerCase`, `split`, `padStart`, `String(n)`, `parseInt`) |
| `agenda.dfy` | `Agenda` | appointments: day start, the link to an invoice, the booking checks, status history, migration |
| `invoices.dfy` | `Invoices` | line items, totals, numbering, payments, reversals, the invoice built by `generarFactura` |
| `lab.dfy` | `Lab` | lab orders, the transition table, the timeline |
| `payroll.dfy` | `Payroll` | commission rate and accrual, advances, net salary, staff lookup and migration |
| `cuadre.dfy` | `Cuadre` | day income and expenses, the cuadre figures, the snapshot store, the history |
| `balances.dfy` | `Balances` | per-patient balance and "por cobrar" |
| `audit.dfy` | `Audit` | audit entries and the text logged for a deleted invoice |
| `csvimport.dfy` | `CsvImport` | `parsearCSV` and the `generarVistaPrevia` filter |
| `batching.dfy` | `Batching` | the patient-list save plan of `saveData` |
| `clinic.dfy` | `Ledger` | class `Clinic`, the state `appData` and the handlers that change it |

The aggregates the code computes with `filter`/`reduce` are functions with
lemmas. The handlers that push onto, pop from or reassign the arrays of
`appData` are methods of class `Clinic`. Each handler has a `modifies` clause
naming the fields it changes. It keeps the invariant `Valid()`:

- every invoice has positive payments whose sum is at most its total plus 0.01,
  and a state that agrees with that sum;
- invoice numbers are distinct;
- reversals and advances are positive;
- every lab order's timeline ends in its current state;
- no day has two stored snapshots.

The loops of the source are `while` loops with invariants:

- the migration `forEach` loops of `limpiarDatosAntiguos`;
- the data-line loop and the row-filling loop of `parsearCSV`;
- the batching loop of `saveData`.

Money is `real` with the tolerance `Tolerance = 0.01`. Instants are integer
milliseconds, and a day is the integer `DayStart(t)`. The current time, the
current user, the user's role and every generated id are parameters.
`saveCount` counts the calls to `saveData()`.

## Model

| member | source | states |
|---|---|---|
| `Invoices.AddLineItem` | app.js:596-626 | a missing, unparsable or zero field is reported first, then a negative price, then a non-positive quantity; the line is accepted exactly when all are present and positive, and is then appended as the last draft line |
| `Invoices.LinesTotalPositive` | app.js:667 | the sum of quantity × unit price over accepted lines is non-negative, and positive when there is a line |
| `Invoices.LabTotalPositive` | app.js:670 | the lab-order sum is non-negative, and positive when there is an order |
| `Invoices.DiscountedTotal` | app.js:673-674 | the discounted total lies between 0 and the subtotal; no discount keeps the subtotal, 100 % gives 0 |
| `Invoices.MaxOf` | app.js:746 | the `reduce` with `Math.max` from 0 is at least every value and is either 0 or one of them |
| `Invoices.MaxNumber` | app.js:744-746 | the largest numeric suffix in use (0 for malformed or none) bounds every invoice's number and is attained by one of them unless 0 |
| `Invoices.FormatNumberRoundTrip` | app.js:745-747 | reading the suffix of `"F-" + padStart(String(n), 4, '0')` back with `parseInt` gives `n` |
| `Invoices.NextNumber` | app.js:744-747 | the new number's value is the maximum plus 1: greater than every existing number, prefixed `F-`, at least 4 digits |
| `Invoices.NumbersUniqueAppend` | app.js:769 | appending an invoice numbered above every other keeps all numbers distinct |
| `Invoices.PaymentRuleMatchesStateOf` | app.js:996-1000 | once a payment was added, the state rule of `confirmarPago` gives the same state as the rule that derives it from the sum |
| `Invoices.PaidOfPositive` | app.js:995 | the sum of positive payments is non-negative and zero exactly when there are none |
| `Invoices.ApplyPayment` | app.js:964-1000 | a non-positive amount is refused, an amount above balance + 0.01 is refused, otherwise accepted (all three iff); an accepted payment is the new last element with the earlier ones untouched, the sum grows by the amount and stays within total + 0.01, and the state follows from the new sum |
| `Invoices.PaymentKeepsInvoiceOk` | app.js:993-1000 | an accepted payment keeps the invoice invariant, and the state is `pagada` exactly when the new sum reaches the total, `partial` otherwise |
| `Invoices.MakePayment` | app.js:978-991 | the payment carries the id, amount, method and time given; a transfer keeps the given proof image and any other method has none |
| `Invoices.ReverseLast` | app.js:2313-2370 | refused without payments and (iff) without a trimmed reason; otherwise exactly the last payment is removed, the state is recomputed from the remaining sum, everything else on the invoice is kept, and the one reversal record copies the removed payment's amount and method and the invoice's id, number and patient |
| `Invoices.ReversalKeepsInvoiceOk` | app.js:2344-2354 | a reversal keeps the invoice invariant and lowers the sum by exactly the reversed (positive) amount |
| `Invoices.PayThenReverseRestores` | app.js:2344-2370 | paying and then reversing gives back the original invoice (payments, sum and state), and the reversal record carries the amount and method just paid |
| `Invoices.CheckInvoiceForm` | app.js:683-721 | missing patient, patient not picked from the list, no procedures and no lab orders are reported in that order (each iff); the form passes exactly when none applies and an admin named a professional; the billed professional is that one for an admin and the current user otherwise |
| `Invoices.BuildInvoice` | app.js:699-769 | the new invoice's subtotal is procedures plus lab orders, its total the discounted subtotal; it is `pendiente` with no payments, satisfies the invoice invariant, is numbered `NextNumber` (max + 1, so above every existing invoice); it copies the patient id, procedure lines, lab orders, discount and notes of the form, flags whether it has lab orders, and records the linked appointment's id, time and reason if there is one |
| `Invoices.WithoutInvoice` | app.js:2293 | the `filter` keeps exactly the invoices with another id, and keeps numbers distinct |
| `Invoices.WithoutInvoiceCounts` | app.js:2293 | every invoice with another id is kept as often as it occurs, and none with the id |
| `Invoices.WithoutInvoiceConcat` | app.js:2293 | the filter keeps list order |
| `Invoices.FindInvoice` | app.js:2245 | the index of the first invoice with the id, or none exactly when no invoice has it |
| `Invoices.ProcedureSummary` | app.js:776 | the corrected summary starts with the first procedure's description and is exactly it for a single line |
| `Invoices.JoinCommaContains` | app.js:776 | every part occurs in full in its `join(', ')` |
| `Invoices.ProcedureSummaryNamesEveryLine` | app.js:776 | the corrected summary contains every procedure line's description |
| `Invoices.SummaryAsWrittenLosesDescriptions` | app.js:776 | as written, a one-procedure invoice stamps an empty summary where the description was meant |
| `Invoices.SummaryAsWrittenIsSeparators` | app.js:776 | as written, the summary of n lines is n − 1 copies of `", "` and nothing else |
| `Agenda.DayStart` | app.js:3263-3264 | `setHours(0,0,0,0)` gives the day boundary at or before the instant, less than a day before it |
| `Agenda.DayStartIdempotent` | app.js:3264 | the start of a day is its own day start |
| `Agenda.FindLinkCandidate` | app.js:725-741 | the appointment linked to a new invoice is the first one of that patient with that professional on the same day that is neither cancelled nor a no-show; none exactly when there is no such appointment |
| `Agenda.MarkCompleted` | app.js:772-777 | the linked appointment becomes `Completada` at the invoice's time with the corrected procedure summary (`ProcedureSummary`, see Findings); no other field changes |
| `Agenda.Overlapping` | app.js:3283-3292 | exactly the appointments in the same room, not cancelled, no-show or completed, less than 30 minutes away, each as often as it occurs |
| `Agenda.OverlappingConcat` | app.js:3283-3292 | the clash filter keeps list order: the clashes of `a + b` are those of `a`, then those of `b` |
| `Agenda.FirstOverlapIsFirstClash` | app.js:3283-3295 | the overlap reported is the first clashing appointment in list order |
| `Agenda.CheckAppointment` | app.js:3249-3302 | each refusal holds exactly when its check is the first to fail: missing fields, no patient picked, a day before today, an hour outside 08:00–20:00, a clash; an overlap names the first clashing appointment (`Overlapping(…)[0]`); the booking passes exactly when all checks hold and it is at least 30 minutes from every appointment still holding the room |
| `Agenda.NewAppointment` | app.js:3304-3316 | the booked appointment carries the id, the trimmed patient name and reason, the patient id, professional, slot and room of the form, is `Pendiente`, records who created it and when, and has no other optional field (no history) |
| `Agenda.HistoryBeforeChange` | app.js:3833-3841 | a missing history is first created with one "Estado inicial" entry for the status held before the change |
| `Agenda.ChangeStatus` | app.js:3809-3870 | exactly one entry for the new status, time and user is appended to the history; the status and modification stamp change; completion notes go to the appointment and the entry only for a completion with notes; no other field changes |
| `Agenda.ChangeStatusTracksHistory` | app.js:3833-3852 | after a change the last history entry is the current status; on a first change the history holds the previous status and then the new one |
| `Agenda.FindAppointment` | app.js:3810 | the index of the first appointment with the id, or none exactly when there is none |
| `Wrappers.FirstIndex` | app.js:3810 | `findIndex`: the first position satisfying the test, or none exactly when no element satisfies it |
| `Agenda.MigrateAppointment` | app.js:4284-4289 | every result has a status; a missing status becomes `Pendiente`; an appointment with a status is unchanged; nothing else changes |
| `Agenda.CountMissingStatus` | app.js:4284-4289 | the number of appointments the migration changes is at most their number |
| `Agenda.NoneMissingIffZero` | app.js:4284-4289 | that number is zero exactly when every appointment has a status |
| `Lab.TransitionTable` | app.js:3678-3734 | `Entregado` offers no button and every other state offers one; `Entregado` is reachable only from `Listo para prueba`; no state offers itself |
| `Lab.OrdersForInvoice` | app.js:3452-3490 | one order per lab line of the invoice: the invoice's id, number, patient and professional; the line's kind, teeth, description, lab, price and cost; margin = price − cost; a one-entry timeline in `Toma de impresión`; created now by the user |
| `Lab.FindOrder` | app.js:3748 | the index of the first order with the id, or none exactly when there is none |
| `Lab.Advance` | app.js:3756-3765 | one timeline entry for the new state (blank trimmed notes become "Sin notas adicionales") and the new current state; nothing else changes |
| `Lab.AdvanceFollowsTable` | app.js:3678-3765 | advancing along a button keeps the whole timeline within the transition table |
| `Lab.DeliveredIsFinal` | app.js:3678-3734 | in such a timeline a delivery is the last entry and comes right after `Listo para prueba` |
| `Payroll.CommissionRate` | app.js:849-851 | 60 exactly for `regular`, 50 exactly for `especialista`, 0 exactly for every other kind |
| `Payroll.AccrualIsRateOfCollected` | app.js:1678-1689 | the accrued commission is the rate applied to everything collected on the professional's paid invoices created after the last payout |
| `Payroll.AccrualNonNegative` | app.js:1678-1689 | with positive payments the accrual is never negative |
| `Payroll.PayoutClearsAccrual` | app.js:1873 | after `lastPaymentDate` is set to now, no invoice dated at or before now accrues anything |
| `Payroll.LaterWindowAccruesLess` | app.js:1679-1686 | moving the window start later never raises the accrual |
| `Payroll.LateSettlementNotAccrued` | app.js:1685 | an invoice created at or before the window start adds nothing, however it is paid later |
| `Payroll.TotalAdvancesAppend` | app.js:1691-1695 | one more advance adds its amount to its own person's total and nothing to anyone else's |
| `Payroll.CheckAdvance` | app.js:2043-2060 | an amount that is missing or not positive is refused (iff); for an employee with a salary, an amount above salary − advances is refused (iff); an accepted one fits in the salary |
| `Payroll.AcceptedAdvanceWithinSalary` | app.js:2055-2072 | after an accepted advance a salaried employee's advances still total at most the salary |
| `Payroll.WithoutAdvancesOf` | app.js:1947 | the filter keeps exactly the other people's advances: that person's total becomes 0 and everyone else's is unchanged |
| `Payroll.WithoutAdvancesOfCounts` | app.js:1947 | every other person's advance is kept as often as it occurs, and none of that person's |
| `Payroll.WithoutAdvancesOfConcat` | app.js:1947 | the filter keeps list order |
| `Payroll.NetSalary` | app.js:1894-1895 | net pay plus the advances is the salary; there is none without a salary |
| `Payroll.FindStaff` | app.js:2080 | the index of the first staff member with the id, or none exactly when there is none |
| `Payroll.WithoutStaff` | app.js:2139 | the filter keeps exactly the staff with another id |
| `Payroll.WithoutStaffCounts` | app.js:2139 | every staff record with another id is kept as often as it occurs, and none with the id |
| `Payroll.WithoutStaffConcat` | app.js:2139 | the filter keeps list order |
| `Payroll.MigrateStaff` | app.js:4277-4282 | the legacy kind `profesional` becomes `regular`, so the commission rate is 60; nothing else changes |
| `Payroll.CountLegacy` | app.js:4277-4282 | the number of records the migration changes is at most their number |
| `Payroll.NoLegacyIffZero` | app.js:4277-4282 | that number is zero exactly when no record has the legacy kind |
| `Cuadre.OnDay` | app.js:1306-1307 | exactly the payments whose instant falls on the day |
| `Cuadre.OnDayCounts` | app.js:1306-1307 | every payment on the day is kept as often as it occurs, and none from another day |
| `Cuadre.MethodsPartition` | app.js:1309-1312 | cash + card + transfer is the day's whole income: every payment is in exactly one method's sum |
| `Cuadre.PaidConcat` | app.js:1309 | the sum of payments is additive over concatenation |
| `Cuadre.OnDayConcat` | app.js:1306-1307 | the day filter distributes over concatenation |
| `Cuadre.AllPaymentsConcat` | app.js:1305-1306 | `flatMap` over the invoices distributes over concatenation |
| `Cuadre.DayPaidConcat` | app.js:1305-1312 | the day's income of two invoice lists is the sum of their incomes |
| `Cuadre.OnDayPaidSnoc` | app.js:1306-1309 | one more payment adds its amount to the day's sum exactly when it falls on that day |
| `Cuadre.DayPaidSingle` | app.js:1305-1307 | one invoice's day income is that of its own payments |
| `Cuadre.PaymentRaisesDayIncome` | app.js:993 | a payment added to one invoice raises the day's income by its amount if it falls on the day, and leaves it as it was otherwise |
| `Cuadre.CashExpensesWithinExpenses` | app.js:1314-1320 | with non-negative expenses the cash expenses are between 0 and all expenses of the day |
| `Cuadre.ComputeCuadre` | app.js:1305-1326 | per-method sums of the day's payments, total income = cash + card + transfer = all the day's payments, expenses and cash expenses of the day, balance = income − expenses, cash on hand = opening + cash − cash expenses, and a missing opening amount counts as 0 |
| `Cuadre.Lookup` | app.js:1430 | a stored snapshot is found exactly when its day is stored |
| `Cuadre.LookupUnique` | app.js:1430 | with distinct days, looking up a stored day gives its snapshot |
| `Cuadre.PutLookup` | app.js:1437 | after writing, the day maps to the new snapshot and every other day to what it did |
| `Cuadre.PutUnique` | app.js:1437 | writing keeps days distinct |
| `Cuadre.PutLength` | app.js:1437 | writing adds an entry only for a day not yet stored |
| `Cuadre.Store` | app.js:1425-1439 | nothing is written and nothing saved exactly when the stored snapshot has the same income, expenses and opening cash; otherwise the day maps to the new snapshot; other days are unaffected; days stay distinct |
| `Cuadre.StoreIdempotent` | app.js:1425-1439 | storing the same snapshot a second time changes nothing and saves nothing |
| `Cuadre.SaveIfActive` | app.js:1339-1352 | without income or expenses nothing is stored or saved; otherwise the snapshot is stored under its day |
| `Cuadre.RefreshIsIdempotent` | app.js:1339-1439 | refreshing the tab twice on the same ledger writes at most once |
| `Cuadre.InWindowEntries` | app.js:1451-1452 | the filter keeps exactly the days k with hoy − 7 days ≤ k < hoy |
| `Cuadre.InWindowEntriesCounts` | app.js:1451-1452 | every day in the window is kept as often as it occurs, and none outside it |
| `Cuadre.InWindowEntriesConcat` | app.js:1451-1452 | the filter keeps list order |
| `Cuadre.InsertDesc` | app.js:1453 | inserting into a most-recent-first list keeps it sorted and adds exactly that entry |
| `Cuadre.SortDesc` | app.js:1453 | the sort puts the entries most recent first and is a permutation |
| `Cuadre.History` | app.js:1442-1453 | exactly the stored days of the last 7 days, most recent first, each at most as often as stored |
| `Cuadre.HistoryStrictlyDescending` | app.js:1442-1453 | with distinct stored days the history has strictly decreasing days |
| `Balances.InvoicesOf` | app.js:4991-4996 | exactly the invoices linked to the patient by id or by name |
| `Balances.InvoicesOfCounts` | app.js:4991-4996 | every invoice of the patient is kept as often as it occurs, and no other |
| `Balances.InvoicesOfConcat` | app.js:4991-4996 | the filter keeps list order: the invoices of `a + b` are those of `a`, then those of `b` |
| `Balances.InvoicesNamed` | app.js:5010 | exactly the invoices carrying that name |
| `Balances.InvoicesNamedCounts` | app.js:5010 | every invoice carrying the name is kept as often as it occurs, and no other |
| `Balances.InvoicesNamedConcat` | app.js:5010 | the filter keeps list order |
| `Balances.FindPatient` | app.js:5007 | a patient record with the name such that no earlier record has it (the first match), or none exactly when there is none |
| `Balances.OutstandingIsBilledLessCollected` | app.js:5012-5015 | the summed balances are the total billed less the total collected |
| `Balances.OutstandingLowerBound` | app.js:5012-5015 | under the invoice invariant the summed balances are at least −0.01 per invoice |
| `Balances.PatientBalance` | app.js:5006-5016 | the balance is summed over the patient's invoices, or over the invoices with the name when no patient record has it |
| `Balances.PorCobrarNonNegative` | app.js:5546-5550 | under the invoice invariant the amount still owed is never negative |
| `Balances.OutstandingSplitsByState` | app.js:5546-5550 | the amount owed on unpaid invoices exceeds the summed balances of all invoices by at most 0.01 per invoice, and is never below them |
| `Balances.InvoicesBilledTo` | app.js:803 | exactly the invoices billed to the professional |
| `Balances.InvoicesBilledToCounts` | app.js:803 | every invoice billed to the professional is kept as often as it occurs, and no other |
| `Balances.InvoicesBilledToConcat` | app.js:803 | the filter keeps list order |
| `Balances.PorCobrarConcat` | app.js:5546-5550 | the amount owed is additive over concatenation |
| `Balances.ProfessionalShare` | app.js:819-821 | one professional's amount owed plus that of the invoices of the others is the clinic's amount owed |
| `Audit.InvoiceDeletionDetails` | app.js:2286-2291 | the logged text is `"Factura "`, the number, `" - Paciente: "`, the patient, `" - Total: "` and the formatted total, piece by piece |
| `Audit.InvoiceDeletionEntry` | app.js:2286-2291 | the entry carries the generated id and is an `eliminar` of type `factura` by the user at the time, with those details |
| `CsvImport.CleanCell` | app.js:5953 | a cell is trimmed and loses every double quote |
| `CsvImport.CellsOf` | app.js:5953 | one cell per comma-separated piece of the line |
| `CsvImport.CellsOfPieces` | app.js:5953 | each cell is the cleaned piece between two commas, and holds neither a comma nor a quote |
| `CsvImport.NonBlankLines` | app.js:5914 | exactly the lines that are not blank |
| `CsvImport.NonBlankLinesCounts` | app.js:5914 | every non-blank line is kept as often as it occurs, and no blank one |
| `CsvImport.NonBlankLinesConcat` | app.js:5914 | the filter keeps line order |
| `CsvImport.GenericHeaders` | app.js:5943-5945 | without a header line and with fewer than 10 cells the columns are `Columna1` … `ColumnaN` |
| `CsvImport.GenericHeadersDistinct` | app.js:5945 | the generated column names are distinct |
| `CsvImport.HeadersFor` | app.js:5922-5948 | a first line naming a known field is the header line and data starts after it; otherwise a line of 10 or more cells selects the legacy columns, any other gets the generic names `Columna1…ColumnaN` (`GenericHeaders`), and data starts at the first line |
| `CsvImport.LegacyHeadersDistinct` | app.js:5942 | the legacy column names are distinct |
| `CsvImport.MakeRowMeaning` | app.js:5955-5957 | a row has one key per column name, holding the cell of that name's last column, "" past the end of the line |
| `CsvImport.BuildRow` | app.js:5954-5957 | the `forEach` loop builds exactly that row |
| `CsvImport.DataRows` | app.js:5951-5959 | one row per data line |
| `CsvImport.DataRowsMeaning` | app.js:5951-5959 | row i holds, under each column name, the cell at that column's position on data line i |
| `CsvImport.ParseResult` | app.js:5912-5959 | a file refuses exactly when it has no non-blank line; otherwise the columns come from the first line and there is one row per data line, the header line excluded |
| `CsvImport.ReadRows` | app.js:5951-5959 | the index loop over the data lines returns exactly those rows |
| `CsvImport.ParseCsv` | app.js:5912-5959 | the parse computes exactly that result |
| `CsvImport.ToPatient` | app.js:6115-6152 | the name is the mapped column, or given name then surname when the surname column is mapped and a `Nombre` column exists; the phone is the mapped column, falling back to `Teléfono2` when empty and that column exists; every other field is the mapped column's value, "" when unmapped or absent |
| `CsvImport.ToPatients` | app.js:6115 | one converted patient per row, in order |
| `CsvImport.KeepComplete` | app.js:6160 | exactly the patients having both a name and a phone |
| `CsvImport.KeepCompleteCounts` | app.js:6160 | every patient with name and phone is kept as often as it occurs, and no other |
| `CsvImport.KeepCompleteConcat` | app.js:6160 | the filter keeps row order |
| `CsvImport.ImportPreview` | app.js:6090-6160 | refused exactly when name or phone is not mapped; otherwise exactly the converted rows having both a name and a phone |
| `CsvImport.ImportPreviewCounts` | app.js:6115-6160 | a converted row with name and phone appears in the preview as often as it occurs, and no other |
| `CsvImport.ImportPreviewRowsConcat` | app.js:6115-6160 | the preview follows row order: the preview of rows `a + b` is that of `a`, then that of `b` |
| `CsvImport.LegacyRowNameAndPhone` | app.js:6115-6131 | for the legacy export mapped by surname the name is given name then surname, and an empty first phone falls back to the second |
| `Batching.PlanPatientSave` | app.js:186-223 | up to 100 patients are saved inline; more are cut, in order and losing nothing, into ⌈n/500⌉ consecutive batches |
| `Batching.BatchSizes` | app.js:209-223 | every batch holds between 1 and 500 patients, all but the last exactly 500 |
| `Ledger.Clinic.constructor` | app.js:300-311 | the initial `appData` has every list empty and satisfies the invariant |
| `Ledger.Clinic.CreateInvoice` | app.js:678-799 | a refused form changes nothing and reports the same error as the form checks; an accepted one bills the checked professional, appends the built invoice, completes the first same-day appointment with the corrected procedure summary (`ProcedureSummary`, see Findings), appends one lab order per lab line, and saves once (twice with lab orders); the invariant is kept |
| `Ledger.Clinic.RecordInvoice` | app.js:699-782 | the part after the checks: the new state is exactly as described for `CreateInvoice` |
| `Ledger.Clinic.AddLinkedInvoice` | app.js:723-777 | the built invoice is appended and the linked appointment completed |
| `Ledger.Clinic.AppendInvoice` | app.js:769 | the invoice becomes the last one, keeping the invariant |
| `Ledger.Clinic.CompleteLinked` | app.js:772-777 | only the linked appointment changes, to its completed form |
| `Ledger.Clinic.AppendLabOrders` | app.js:3452-3490 | the orders are appended and the data saved once more when there are orders |
| `Ledger.Clinic.ConfirmPayment` | app.js:960-1002 | a missing amount is refused; otherwise the outcome is that of `ApplyPayment`; a refusal changes nothing; an accepted payment replaces only that invoice and saves once; the invariant is kept |
| `Ledger.Clinic.ReplaceInvoice` | app.js:993-1000 | replacing one invoice by one with the same number satisfying the invoice invariant keeps the invariant |
| `Ledger.Clinic.UpdateKeepsValid` | app.js:993-1000 | that replacement keeps every invoice valid and the numbers distinct |
| `Ledger.Clinic.RemoveInvoice` | app.js:2293-2294 | the invoices with the id go, the others stay, and the data is saved |
| `Ledger.Clinic.ReversePayment` | app.js:2306-2372 | a non-admin is refused; an unknown invoice has no payments to reverse; otherwise the outcome is that of `ReverseLast`, and an accepted reversal replaces the invoice, appends its one record and saves once; a refusal changes nothing |
| `Ledger.Clinic.CommitReversal` | app.js:2344-2372 | the reversed invoice replaces the old one and exactly one reversal record is appended |
| `Ledger.Clinic.DeleteInvoice` | app.js:2244-2297 | an unknown invoice, then a non-admin, is refused with nothing changed; otherwise (iff) the audit entry is appended and saved before the invoice is filtered out and saved again |
| `Ledger.Clinic.RecordAudit` | app.js:5027-5045 | the audit log only grows: one entry is appended, the earlier ones are kept, and the data is saved; the invariant is kept |
| `Ledger.Clinic.PayCommission` | app.js:1795-1888 | pays the accrued commission, moves that person's window start to now and saves; afterwards nothing dated up to now accrues; the invariant is kept |
| `Ledger.Clinic.RegisterAdvance` | app.js:2043-2077 | the outcome is that of `CheckAdvance`; an accepted advance is appended and saved, and a salaried employee's advances stay within the salary |
| `Ledger.Clinic.PayEmployee` | app.js:1890-1960 | the net pay is the salary minus that person's advances, and those advances are cleared; the others are kept |
| `Ledger.Clinic.DeleteStaff` | app.js:2079-2150 | an unknown person is refused, and an admin is refused (iff); otherwise the person and all their advances are removed |
| `Ledger.Clinic.RegisterExpense` | app.js:1504-1535 | refused exactly when description, amount or provider is missing (or the amount is 0); otherwise the expense is appended and saved; the invariant is kept |
| `Ledger.Clinic.UpdateCuadre` | app.js:1300-1352 | computes the day's cuadre and stores it only when there is activity and it changed, saving exactly then |
| `Ledger.Clinic.SaveAppointment` | app.js:3240-3323 | the outcome is that of `CheckAppointment`; a passed booking appends the new appointment and saves; the invariant is kept |
| `Ledger.Clinic.AppendAppointment` | app.js:3318 | the push and save once the checks passed: exactly one appointment is appended; the invariant is kept |
| `Ledger.Clinic.AdvanceLabOrder` | app.js:3736-3767 | reception is refused, then an unknown order, then a cancelled notes prompt; otherwise (iff) only that order advances and the data is saved |
| `Ledger.Clinic.ChangeAppointmentStatus` | app.js:3809-3870 | only the found appointment changes, to its changed form, with the history in step with the status; the invariant is kept |
| `Ledger.Clinic.CleanOldData` | app.js:4273-4290 | every legacy staff kind and every missing status is migrated in place, the change count is their number, the data is saved only when something changed, and afterwards nothing is left to migrate; the invariant is kept |
| `Ledger.Clinic.MigrateStaffRecords` | app.js:4277-4282 | the `forEach` over the staff migrates each record in place and counts the changes; the invariant is kept |
| `Ledger.Clinic.MigrateAppointmentRecords` | app.js:4284-4289 | the `forEach` over the appointments migrates each record in place and counts the changes; the invariant is kept |
| `Text.TrimEmptyIffBlank` | app.js:5914 | a line trims to the empty string exactly when it is blank |
| `Text.Split` | app.js:5914 | `split` gives at least one piece, none holding the separator |
| `Text.JoinSplit` | app.js:5914 | splitting loses no character |
| `Text.PadStart` | app.js:747 | `padStart` fills with the character on the left up to the width, or keeps a longer string |
| `Text.DecimalString` | app.js:747 | `String(n)` is a digit string denoting `n`, with no leading zero unless it is `"0"` |

## Left out

- User interface: HTML rendering, modals, `alert`, tab refresh and receipt
  printing are omitted. A `confirm` or notes `prompt` is modelled as answered;
  a prompt the user cancels is a `None` argument.
- Persistence: Firebase, the `onSnapshot` listener and the localStorage cache
  are asynchronous I/O and are omitted. `saveData()` is counted in `saveCount`;
  only its patient-list batching is modelled (`Batching.PlanPatientSave`).
- Ids, clock and session: `generateId`, `Date.now`/`new Date()` and the
  current user and role arrive as parameters. `Ledger.Clinic.constructor`
  stands for the empty `appData` initialised at start-up. The start-up
  literal (app.js:300-311) lacks `reversiones` and `auditLogs`; loading saved
  data sets both with `|| []` (app.js:42-43, 106-107), and `auditLogs` is
  also created at script start (app.js:5023-5025). The model starts both
  empty; loading saved data is I/O.
- Locale and time zone: `formatCurrency` depends on the locale, so the
  deleted-invoice audit text takes the formatted total as a parameter.
  `setHours(0,0,0,0)` is `DayStart`, a whole-day boundary in UTC
  milliseconds; the browser's time zone is not modelled, and neither are
  ISO-string dates (instants are integers).
- Floating point: money is exact `real`. The 0.01 tolerance is kept, and
  amounts read by `parseFloat`/`parseInt` become `Option` values (`None` for
  an empty or non-numeric field). Rounding and `NaN` arithmetic are not
  modelled.
- `Payroll.NetSalary`: without a salary on record the result is `None`, where
  the source computes `NaN`.
- Text: `trim` and `toLowerCase` are modelled on ASCII whitespace and ASCII
  letters only.
- CSV import: the generated patient id, `fechaRegistro`, the consent flag and
  the nested emergency-contact object are not modelled; the other imported
  fields are.
- Expenses: the attached receipt image (`facturaData`) and the approval flag of
  `registrarGasto` are not modelled. A negative amount passes the check, as
  in the source.
- Lab orders: `avanzarEstadoLab` does not check that the new state is one of
  the offered buttons, and neither does `Lab.Advance`.
  `Lab.AdvanceFollowsTable` states what holds when the buttons are used.
- Patients: the class does not change `pacientes`; the import writes it
  through I/O that is not modelled. Balances are functions of the lists.
- Authentication (login and passwords), global search and filter UI, file
  uploads, the signature canvas, and PDF or spreadsheet export are not part of
  this model.

Two behaviours of the code differ from what one might assume; the model
follows the code.

- The commission window compares the invoice's creation date, not the
  payment date, with `lastPaymentDate` (`Payroll.LateSettlementNotAccrued`).
- Completing an appointment from an invoice does not append to
  `historialEstados`. Only `cambiarEstadoCita` does.

## Findings

| source | as written | input that shows it | evidently intended | confidence | as-written member | corrected member |
|---|---|---|---|---|---|---|
| app.js:776 | `procedimientosRealizados` joins `p.nombre` of the draft procedure lines, but those lines have only `descripcion` (app.js:618-622), so every piece is empty | one procedure line `{descripcion: "Limpieza", cantidad: 1, precioUnitario: 1500}` stamps `""` on the linked appointment; n lines give n − 1 copies of `", "` | the descriptions joined with `", "` | not executed | `Invoices.SummaryAsWritten` (`Invoices.SummaryAsWrittenLosesDescriptions`, `Invoices.SummaryAsWrittenIsSeparators`) | `Invoices.ProcedureSummary` (`Invoices.ProcedureSummaryNamesEveryLine`), used by `Ledger.Clinic.CreateInvoice` |
