# hospital-os: a verified model of the order, billing and cart logic

This Dafny project models the logic of the hospital-os web application
that does more than pass data between a web page, a database and the
workflow agents. It covers these parts:

- **Pharmacy order settlement** (`createPharmacyOrder`). A doctor's
  prescription becomes a Pending order with one Pending item per line.
  The dispensing agent's reply is unwrapped: an array stands for its
  first element, and a medicine list may be nested under its own key.
  Each item is then matched by trimmed, lower-cased name, against the
  dispensed list first and the unavailable list second. Dispensed items
  are repriced from the medicine master, and the order's totals are
  rewritten from the item rows.
- **The doctor's other actions.** These are the consultation queue, the
  `LOOKUP_BY_PATIENT:` admission lookup of `saveMedicalNote`, and
  `updateAppointmentStatus`.
- **Counter billing** (`generateInvoice`). It walks the cart lines in
  order, applies a guarded stock decrement to the batch table, and
  accumulates the invoice. The pharmacy's inventory and queue queries,
  `markOrderAsPaid` and `addInventoryBatch` are modelled too.
- **The two client-side carts.** These are the billing counter's cart,
  with quantities bounded by batch stock, and the doctor's prescription
  cart, with lines merged by medicine name. The model also covers the
  inventory and queue searches, the checkout guard and payload, the
  optimistic status update and the status colour.
- **Smaller rules.**
  - The lab's status filter, patient-name enrichment, pending count and
    result upload.
  - Reception's create-if-absent registration.
  - The orphan-order cleanup script.
  - The two schema deployment scripts, which split the migration on `;`.

### How the model is built

- **Database tables** are fields of classes in `store.dfy`. A table
  keyed by its primary key is a `map`. The medicine master and the batch
  inventory are sequences, because the source reads them with
  `findFirst` and with ordered queries. Auto-increment keys are counters.
- **Server actions that write rows** are methods whose `modifies`
  clauses name exactly the tables they write. Each is proved against a
  pure specification function:
  - `Settle` for the settlement;
  - `Bill` for billing;
  - `Cleaned` for the cleanup;
  - `Enrol` and `Assign` for registration.

  The properties the source promises are lemmas about those functions.
- **The two loops of the settlement and the billing loop** are `for`
  and `while` loops with invariants. Each loop iteration is a method of
  its own (`RepriceOne`, `AccumulateLine`).
- **Page handlers** compute the next state from the previous one. They
  are functions, with lemmas for the cart invariants.
- **Agent and database inputs.** Every webhook reply and every database
  answer (an accepted or rejected statement, for example) is an input
  value. Money is an integer in the smallest currency unit, and a date is
  an integer.

### Edge cases of the settlement that the model keeps

- **Master-price lookup.** The first pass compares names after trimming
  and lower-casing the agent's names (app/actions/doctor-actions.ts:371).
  The master-price lookup compares case-insensitively but does not trim
  (app/actions/doctor-actions.ts:426-428). The model keeps the two apart,
  and `DoctorActions.TrimAsymmetry` shows an item with a leading blank
  that is matched but never repriced.
- **Malformed JSON.** A reply body that is not JSON raises an exception
  that carries an excerpt of the body. The outer `catch` replaces it with
  the fixed message 'Failed to create pharmacy order'
  (app/actions/doctor-actions.ts:336, 462-467), and the model returns that
  fixed message.
- **The order's totals.** The order is marked Processed with the agent's
  bill summary before the items are matched
  (app/actions/doctor-actions.ts:345-353). A medicine list that is
  neither absent nor an array then makes the first `find` throw. The
  action fails, and the order stays Processed with the agent's figures
  (`DoctorActions.MalformedListAfterProcessed`). Only when the lists are
  well formed are the totals rewritten from the dispensed item rows.
- **Empty reply.** An empty JSON array, or a JSON `null`, makes the
  property access on `result` throw. The action then fails with the
  order still Pending (`DoctorActions.AgentReply`).

## Model

| member | source | states |
|---|---|---|
| DoctorActions.NewOrder | app/actions/doctor-actions.ts:278-283 | the created order carries the patient and doctor, is Pending, and requests as many items as the cart has lines |
| DoctorActions.NewItems | app/actions/doctor-actions.ts:284-291 | one Pending item per cart line, in line order, with consecutive ids under the order, its name and its requested quantity, and no price, batch or dispensed quantity |
| DoctorActions.Unwrap | app/actions/doctor-actions.ts:329-343 | only `null`, an empty array (undefined) and an array whose first element is `null` leave nothing to read; an object is its own report, and a scalar, or an array whose first element is a scalar or an array, reads as a report with every field undefined |
| DoctorActions.AgentReply | app/actions/doctor-actions.ts:299-343 | the reply is usable exactly when the body parses and, after unwrapping, is neither `null` nor the undefined of an empty array; a non-ok status gives `success: true` with the agent offline, and every other failure gives `success: false` |
| DoctorActions.ArrayBodyUsesFirst | app/actions/doctor-actions.ts:329-333 | only the first element of an array body is read |
| DoctorActions.MatchIndex | app/actions/doctor-actions.ts:383-384 | the index of the first list entry whose normalised name equals the item's, and no entry when none does |
| DoctorActions.MatchIndexListed | app/actions/doctor-actions.ts:371-384 | the lookup finds an entry exactly when some entry's trimmed, lower-cased name equals the item's |
| DoctorActions.Dispense | app/actions/doctor-actions.ts:386-397 | a dispensed match is Dispensed with the requested quantity, the reported price and batch when present, and total = (price or 0) × quantity |
| DoctorActions.MarkOutOfStock | app/actions/doctor-actions.ts:398-406 | an unavailable match is Out of Stock with 0 dispensed; its prices and batch are unchanged |
| DoctorActions.MatchItem | app/actions/doctor-actions.ts:370-410 | the first pass never changes an item's id, order, name or requested quantity |
| DoctorActions.MasterIndex | app/actions/doctor-actions.ts:426-428 | the first master record whose brand equals the item's name ignoring case, untrimmed; no record when none does |
| DoctorActions.Reprice | app/actions/doctor-actions.ts:424-449 | the second pass changes only the prices, and changes nothing else about any item |
| DoctorActions.SettledItemStatus | app/actions/doctor-actions.ts:383-409 | a created item ends Dispensed exactly when the dispensed list names it, Out of Stock exactly when only the unavailable list does, and otherwise unchanged |
| DoctorActions.SettledItemPrice | app/actions/doctor-actions.ts:386-449 | a dispensed item takes the first match's batch; with a master record its unit and total price are the master's, and without one the total is the reported price (or 0) × quantity |
| DoctorActions.FailedCallKeepsRows | app/actions/doctor-actions.ts:309-337 | a thrown call, a non-ok status, a body that is not JSON or a body with nothing to unwrap leaves the order and its items exactly as created |
| DoctorActions.ReportMarksProcessed | app/actions/doctor-actions.ts:343-353 | the order becomes Processed exactly when the agent's report is usable, and is otherwise unchanged |
| DoctorActions.MalformedListAfterProcessed | app/actions/doctor-actions.ts:345-383 | a medicine list without `find` fails the action after the order took the bill summary, when there is an item; the items stay as created |
| DoctorActions.SettledTotals | app/actions/doctor-actions.ts:421-458 | after settlement `total_amount` is the sum of dispensed rows' totals and `items_dispensed` their number; with out-of-stock and pending rows they add up to the items requested |
| DoctorActions.StatusPartition | app/actions/doctor-actions.ts:288-406 | every row is Dispensed, Out of Stock or Pending, so the three counts add up to the number of rows |
| DoctorActions.DispensedTotalAppend | app/actions/doctor-actions.ts:441-446 | the running total over a concatenation is the sum of the totals of its parts |
| DoctorActions.WithBill | app/actions/doctor-actions.ts:343-353 | the order becomes Processed with the bill summary's amount, dispensed and missing counts |
| DoctorActions.TrimAsymmetry | app/actions/doctor-actions.ts:371-428 | an item named " Dolo" is matched to the agent's "dolo" but finds no master record "Dolo", so it keeps the agent's price |
| DoctorActions.DoloNames | app/actions/doctor-actions.ts:371-428 | " Dolo" normalises to "dolo", while its lower-case form differs from that of "Dolo" |
| DoctorActions.TwoLineSettlement | app/actions/doctor-actions.ts:272-460 | end to end, a two-line order whose reply is an array with a nested list: the first line is dispensed at the master price, the second is out of stock, and the order's total is the first line's |
| DoctorActions.SettlementKeys | app/actions/doctor-actions.ts:370-449 | settlement keeps the order id and each item's id and order |
| DoctorActions.PassesKeepKeys | app/actions/doctor-actions.ts:388-440 | neither pass changes an item's id or order |
| DoctorActions.IdRange | app/actions/doctor-actions.ts:284-292 | exactly the consecutive ids given to one order's items |
| DoctorActions.RowsOfPlaced | app/actions/doctor-actions.ts:417-419 | reading the order's rows back by id gives the rows written |
| DoctorActions.PlacedItemsValid | app/actions/doctor-actions.ts:284-292 | items written under fresh ids, for existing orders, keep every item pointing at an existing order |
| DoctorActions.MatchItems | app/actions/doctor-actions.ts:370-410 | the first loop leaves the item table with every created row replaced by its first-pass result |
| DoctorActions.RepriceOne | app/actions/doctor-actions.ts:425-448 | one iteration of the second loop writes back the repriced row and returns what it adds to the total and to the count |
| DoctorActions.RepriceItems | app/actions/doctor-actions.ts:421-449 | the second loop writes the repriced rows, and its running total and count are those of the repriced rows |
| DoctorActions.RunPasses | app/actions/doctor-actions.ts:370-449 | both loops, with the rows read back by order id in between, leave the table holding the settled rows |
| DoctorActions.OpenOrder | app/actions/doctor-actions.ts:278-293 | creation adds the Pending order and its items under fresh ids and keeps the tables valid |
| DoctorActions.SettleReport | app/actions/doctor-actions.ts:343-458 | once the report is in, the tables and reply are those of the settlement specification |
| DoctorActions.CreatePharmacyOrder | app/actions/doctor-actions.ts:272-469 | the whole action leaves the order and item tables, and returns the reply, exactly as `Settle` describes, keeping the tables valid |
| DoctorVisits.ToEntry | app/actions/doctor-actions.ts:37-45 | a queue row is the patient's columns plus the appointment's status and ids, with `digital_id` the patient id |
| DoctorVisits.JoinPatients | app/actions/doctor-actions.ts:37-45 | every appointment gets its entry, in order, exactly when each has a patient row |
| DoctorVisits.QueueContents | app/actions/doctor-actions.ts:14-45 | the queue lists exactly the appointments in a queue status, by ascending date, each joined with its patient |
| DoctorVisits.LatestAdmission | app/actions/doctor-actions.ts:104-110 | the patient's Admitted admission with the latest date, and none when the patient has none |
| DoctorVisits.LookupPatient | app/actions/doctor-actions.ts:102 | the patient id is the text between the first and second colon |
| DoctorVisits.ResolveLookup | app/actions/doctor-actions.ts:98-116 | a lookup resolves to the patient's latest active admission, and fails exactly when there is none |
| DoctorVisits.PlainIdKept | app/actions/doctor-actions.ts:98-101 | an id without the lookup prefix is used unchanged |
| DoctorVisits.SaveMedicalNote | app/actions/doctor-actions.ts:96-131 | the note is appended under the resolved admission id; a failed lookup writes nothing |
| DoctorVisits.WithStatus | app/actions/doctor-actions.ts:247-250 | one appointment's status is replaced and every other row is kept |
| DoctorVisits.WithStatusIdempotent | app/actions/doctor-actions.ts:247-250 | setting the same status twice is setting it once, and the row's other columns are kept |
| DoctorVisits.UpdateAppointmentStatus | app/actions/doctor-actions.ts:241-257 | an existing appointment takes the status; a missing one fails with nothing changed |
| PharmacyActions.WithMedicines | app/actions/pharmacy-actions.ts:13 | each batch row comes with its medicine master row |
| PharmacyActions.StockedInventoryContents | app/actions/pharmacy-actions.ts:11-15 | exactly the batches with stock left are listed, by ascending expiry |
| PharmacyActions.FindBatch | app/actions/pharmacy-actions.ts:30-33 | the batch with the line's batch number, and none when there is none |
| PharmacyActions.BillOne | app/actions/pharmacy-actions.ts:30-49 | one line never adds or removes a batch row |
| PharmacyActions.SkippedLine | app/actions/pharmacy-actions.ts:35 | a line whose batch is missing or short of stock changes nothing and adds no invoice line |
| PharmacyActions.StepStock | app/actions/pharmacy-actions.ts:30-47 | a skipped line changes nothing; any other line takes its quantity off exactly the named batch, which held at least that much, and leaves every other batch as it was; a charged line bills that quantity |
| PharmacyActions.StockConservation | app/actions/pharmacy-actions.ts:35-48 | on success the batches together lose exactly the invoiced quantities |
| PharmacyActions.BillTouchesOnlyStock | app/actions/pharmacy-actions.ts:29-50 | billing changes only stock levels, never below zero, and only of batches some line names |
| PharmacyActions.InvoiceTotal | app/actions/pharmacy-actions.ts:41-73 | the total is the sum of the line prices; each line carries the name of the billed batch's own medicine and costs that medicine's unit price × the quantity |
| PharmacyActions.SecondLineSeesReducedStock | app/actions/pharmacy-actions.ts:29-39 | two lines on one batch that together exceed its stock bill only the first |
| PharmacyActions.BillLineStep | app/actions/pharmacy-actions.ts:30-49 | one iteration decrements the batch in place and prices the line as the billing specification says |
| PharmacyActions.AccumulateLine | app/actions/pharmacy-actions.ts:29-50 | one iteration with its accumulators keeps the loop's relation to the whole billing, or ends it on a throw |
| PharmacyActions.GenerateInvoice | app/actions/pharmacy-actions.ts:23-78 | the final batch table and reply are those of `Bill` |
| PharmacyActions.PatientOf | app/actions/pharmacy-actions.ts:96 | the patient row with the order's patient id, and `null` when there is none |
| PharmacyActions.PharmacyQueueOrders | app/actions/pharmacy-actions.ts:82-86 | the queue lists exactly the Pending and Processed orders, newest first |
| PharmacyActions.PharmacyQueueJoin | app/actions/pharmacy-actions.ts:85-97 | each queued order has exactly its own items, and its patient exactly when that patient is registered |
| PharmacyActions.MarkOrderAsPaid | app/actions/pharmacy-actions.ts:106-118 | an existing order becomes Completed; a missing one fails with nothing changed |
| PharmacyActions.MarkPaidOnlyStatus | app/actions/pharmacy-actions.ts:108-111 | only the status of that one order changes, and marking it twice is marking it once |
| PharmacyActions.AddInventoryBatch | app/actions/pharmacy-actions.ts:120-165 | a master row is created only without an id and with a name not yet in the master; a name already there fails with nothing written; with neither id nor name the call fails before writing; a rejected batch insert fails after the master row; brand names and batch numbers stay unique |
| PharmacyActions.AppendFreshMedicine | app/actions/pharmacy-actions.ts:134-143 | a medicine with a brand name not yet in the master keeps brand names unique |
| PharmacyActions.AppendFreshBatch | app/actions/pharmacy-actions.ts:149-157 | a batch with a new number keeps batch numbers unique |
| BillingPage.AddToCartLine | app/pharmacy/billing/page.tsx:78-89 | the batch's line after an add: a new line of quantity 1, one more unit while below stock, or unchanged |
| BillingPage.AddToCartOthers | app/pharmacy/billing/page.tsx:78-89 | adding never touches other batches' lines |
| BillingPage.AddToCartWellFormed | app/pharmacy/billing/page.tsx:78-89 | for a row in stock, adding keeps one line per batch and each quantity between 1 and its stock |
| BillingPage.AddToCartTotal | app/pharmacy/billing/page.tsx:78-107 | adding changes the total by the change in the batch's own line alone |
| BillingPage.OneMoreUnit | app/pharmacy/billing/page.tsx:107 | one more unit costs one unit price more |
| BillingPage.UpdateQty | app/pharmacy/billing/page.tsx:91-101 | a quantity change never adds a line |
| BillingPage.UpdateQtyLine | app/pharmacy/billing/page.tsx:91-101 | the batch's line is dropped at zero or below, kept above its stock, and otherwise moved to the new quantity |
| BillingPage.UpdateQtyOthers | app/pharmacy/billing/page.tsx:91-101 | a quantity change never touches other batches' lines |
| BillingPage.UpdateQtyWellFormed | app/pharmacy/billing/page.tsx:91-101 | a quantity change keeps one line per batch and quantities within 1 and stock |
| BillingPage.UpdateQtyTotal | app/pharmacy/billing/page.tsx:91-107 | the total moves by the batch's line alone |
| BillingPage.RemoveNoNew | app/pharmacy/billing/page.tsx:103-105 | a removal never brings in a batch |
| BillingPage.RemoveFromCartWellFormed | app/pharmacy/billing/page.tsx:103-105 | a removal keeps the cart well formed |
| BillingPage.TotalSplit | app/pharmacy/billing/page.tsx:107 | the total is the other batches' total plus the batch's own line |
| BillingPage.ChangeTotal | app/pharmacy/billing/page.tsx:107 | carts differing in one batch's line differ in total by that line's values |
| BillingPage.ToInventoryItem | app/pharmacy/billing/page.tsx:51-57 | a list row copies the batch number, stock and expiry; a missing medicine gives 'Unknown Medicine' and price 0 |
| BillingPage.LoadedInventory | app/pharmacy/billing/page.tsx:51-58 | the loaded list is each query row mapped, in order |
| BillingPage.FilteredInventoryMember | app/pharmacy/billing/page.tsx:144-147 | a row is listed exactly when its name or batch id contains the search, ignoring case |
| BillingPage.FilteredInventoryCase | app/pharmacy/billing/page.tsx:144-147 | the search ignores the case of the search text |
| BillingPage.EmptySearchListsAll | app/pharmacy/billing/page.tsx:144-147 | an empty search lists every row with a name or batch id |
| BillingPage.LoadedInventoryListed | app/pharmacy/billing/page.tsx:144-147 | with an empty search the whole loaded list shows |
| BillingPage.Payload | app/pharmacy/billing/page.tsx:126-129 | each billing line copies its batch id into `batch_no`, with the line's quantity |
| BillingPage.HandleCheckout | app/pharmacy/billing/page.tsx:121-131 | checkout is refused, with its message, exactly without a patient id or with an empty cart; otherwise the payload is submitted |
| BillingPage.PayloadWellFormed | app/pharmacy/billing/page.tsx:78-129 | a well-formed cart bills lines on distinct batches, each asking for between 1 and the listed stock |
| BillingPage.AfterCheckout | app/pharmacy/billing/page.tsx:132-141 | success clears the cart and the patient id; a non-empty refresh replaces the list with the rows mapped like the load (the corrected line 138), which lists every row under its batch number; an empty refresh keeps the list; failure changes nothing |
| BillingPage.RefreshedAsWritten | app/pharmacy/billing/page.tsx:137-138 | the raw query rows replace the list when there are any |
| BillingPage.RefreshAsWrittenHidesStock | app/pharmacy/billing/page.tsx:137-147 | as written, after a checkout with stock left, every search lists nothing |
| BillingPage.Refreshed | app/pharmacy/billing/page.tsx:137-138 | the refreshed rows mapped like the initial load |
| BillingPage.RefreshShowsStock | app/pharmacy/billing/page.tsx:137-138 | mapped, the refreshed list shows every row again under its batch number |
| DoctorDashboard.MedicineNamed | app/doctor/dashboard/page.tsx:146 | the first medicine in list order with the selected brand name, and none exactly when no medicine has it |
| DoctorDashboard.AddToCart | app/doctor/dashboard/page.tsx:144-158 | no change without a selection or a listed medicine; otherwise the selection is cleared and the quantity reset to 1 |
| DoctorDashboard.AddToCartLine | app/doctor/dashboard/page.tsx:149-155 | the name's line gains the entered quantity, or is a new line at the medicine's unit price |
| DoctorDashboard.AddToCartOthers | app/doctor/dashboard/page.tsx:149-155 | adding never touches other names' lines |
| DoctorDashboard.AddToCartUnique | app/doctor/dashboard/page.tsx:149-155 | names in the cart stay unique |
| DoctorDashboard.AddToCartPrescribable | app/doctor/dashboard/page.tsx:144-155 | every line names a listed medicine, at that medicine's unit price |
| DoctorDashboard.RemoveFromCartContents | app/doctor/dashboard/page.tsx:160-162 | removal keeps exactly the lines of other names, and names stay unique |
| DoctorDashboard.OrderLines | app/doctor/dashboard/page.tsx:168 | the order action receives each line's name and quantity |
| DoctorDashboard.HandlePlaceOrder | app/doctor/dashboard/page.tsx:164-177 | nothing happens without an active patient or with an empty cart; otherwise the order row and its item rows are written as the settlement gives them, and the cart is cleared exactly on success |
| DoctorDashboard.Optimistic | app/doctor/dashboard/page.tsx:129-137 | without an active appointment nothing changes; otherwise the active patient shows the new status |
| DoctorDashboard.OptimisticOnlyStatus | app/doctor/dashboard/page.tsx:133-135 | only the status of the active appointment's entries changes; every other entry is identical |
| DoctorDashboard.OptimisticKeepsActive | app/doctor/dashboard/page.tsx:133-137 | the active patient's entry stays in the queue with its new status |
| DoctorDashboard.OptimisticIdempotent | app/doctor/dashboard/page.tsx:133-137 | setting the same status again changes nothing more |
| DoctorDashboard.HandleStatusUpdate | app/doctor/dashboard/page.tsx:129-141 | the page is updated optimistically, and the appointment's status is written, twice, as one update |
| DoctorDashboard.FilteredQueueMember | app/doctor/dashboard/page.tsx:179-182 | a patient is listed exactly when the name or a present digital id contains the search, ignoring case |
| DoctorDashboard.FilteredQueueCase | app/doctor/dashboard/page.tsx:179-182 | the search ignores the case of the search text |
| DoctorDashboard.EmptySearchShowsQueue | app/doctor/dashboard/page.tsx:179-182 | an empty search lists the whole queue in order |
| DoctorDashboard.StatusColor | app/doctor/dashboard/page.tsx:184-191 | one of the four colours, and the amber default for an absent status |
| DoctorDashboard.StatusColorCase | app/doctor/dashboard/page.tsx:185 | the colour ignores case |
| DoctorDashboard.StatusColorCases | app/doctor/dashboard/page.tsx:184-191 | each non-default colour belongs to exactly one status, in any case, and every other status is amber |
| LabActions.FilterChoices | app/actions/lab-actions.ts:9-16 | the default filter selects Pending and Processing, Completed selects only Completed, and All selects every order |
| LabActions.PatientName | app/actions/lab-actions.ts:30-34 | the patient's full name when known and non-empty, else 'Unknown' |
| LabActions.Enrich | app/actions/lab-actions.ts:32-40 | the entry's id is the barcode, the columns are copied, and the patient name is as above |
| LabActions.LabOrdersContents | app/actions/lab-actions.ts:18-40 | one entry per selected order, newest first, in the same order |
| LabActions.PendingCount | app/actions/lab-actions.ts:54-56 | the count of open orders is at most the number of rows |
| LabActions.PendingCountIsDefaultList | app/actions/lab-actions.ts:54-56 | the pending count equals the length of the default list |
| LabActions.WithResult | app/actions/lab-actions.ts:74-81 | the order becomes Completed with the value, and its other columns are unchanged |
| LabActions.ResultCompletes | app/actions/lab-actions.ts:74-81 | an order with a result leaves the pending list and enters the completed one |
| LabActions.WithResultIdempotent | app/actions/lab-actions.ts:74-81 | uploading the same value twice is uploading it once |
| LabActions.UploadResult | app/actions/lab-actions.ts:71-104 | the barcode's order is completed with the value; a missing barcode fails with nothing changed |
| RegisterPatient.OrNotGiven | app/actions/register-patient.ts:16-17 | an empty field becomes "not given", and any other field is kept |
| RegisterPatient.RawData | app/actions/register-patient.ts:10-19 | only email and address take the default |
| RegisterPatient.ChosenId | app/actions/register-patient.ts:35-36 | `patient_id`, else `id`, else `digital_id`; empty exactly when all three are |
| RegisterPatient.Assign | app/actions/register-patient.ts:26-49 | both ids are assigned exactly when a readable reply carries a patient id and an appointment id |
| RegisterPatient.ConnectionFailures | app/actions/register-patient.ts:39-45 | a failed call is refused with a message prefixed "Agent Connection Failed: " |
| RegisterPatient.MissingIds | app/actions/register-patient.ts:47-49 | a reply without both ids is refused with its own message |
| RegisterPatient.Decimal | app/actions/register-patient.ts:40 | the status code in the message is written in decimal digits without a leading zero, and the digits denote the code |
| RegisterPatient.NewPatient | app/actions/register-patient.ts:57-69 | the new patient row holds the form's data under the assigned id |
| RegisterPatient.NewAppointment | app/actions/register-patient.ts:78-86 | the new appointment is Pending, for 'Initial Consultation', in the form's department |
| RegisterPatient.EnrolKeepsRows | app/actions/register-patient.ts:52-87 | an existing row is never overwritten; afterwards both ids have rows and nothing else is added |
| RegisterPatient.EnrolNewRows | app/actions/register-patient.ts:56-87 | a new patient row holds the form's data, and a new appointment is Pending with a fresh internal id |
| RegisterPatient.EnrolValid | app/actions/register-patient.ts:52-87 | the tables stay keyed by their own ids |
| RegisterPatient.EnrolIdempotent | app/actions/register-patient.ts:52-87 | registering again with the same ids changes nothing, whatever the form says |
| RegisterPatient.RegisterPatient | app/actions/register-patient.ts:9-105 | a refusal writes nothing and returns its message; otherwise the rows are created when absent and both ids are returned with 'OPD' |
| CleanupOrders.InvalidOrders | scripts/cleanup-orders.ts:10-26 | an order is invalid exactly when its patient is not registered |
| CleanupOrders.OrdersOutside | scripts/cleanup-orders.ts:41-43 | exactly the orders outside the set remain, unchanged |
| CleanupOrders.ItemsOutside | scripts/cleanup-orders.ts:36-38 | exactly the items of orders outside the set remain, unchanged |
| CleanupOrders.CleanedOrdersRegistered | scripts/cleanup-orders.ts:20-43 | afterwards every order references a registered patient |
| CleanupOrders.CleanedKeepsValid | scripts/cleanup-orders.ts:36-43 | orders of registered patients, and their items, are left exactly as they were |
| CleanupOrders.CleanedKeepsForeignKey | scripts/cleanup-orders.ts:35-43 | no item is left pointing at a deleted order |
| CleanupOrders.ItemsFirst | scripts/cleanup-orders.ts:35-43 | deleting items first keeps the foreign key between the two steps, while deleting orders first would break it |
| CleanupOrders.NothingInvalidNothingDeleted | scripts/cleanup-orders.ts:28-31 | with no invalid order nothing is deleted |
| CleanupOrders.CleanedIdempotent | scripts/cleanup-orders.ts:6-43 | a second run deletes nothing |
| CleanupOrders.CleanupOrders | scripts/cleanup-orders.ts:6-46 | the script collects exactly the invalid ids and leaves the tables as `Cleaned` says, keeping them valid |
| DeploySchema.Kept | prisma/deploy-schema.js:23-24 | trimming and dropping empties never adds a piece |
| DeploySchema.KeptClean | prisma/deploy-schema.js:22-24 | every kept piece is non-empty and trimmed, and has no separator |
| DeploySchema.KeptAppend | prisma/deploy-schema.js:23-24 | the kept pieces of a concatenation are those of its parts, in order |
| DeploySchema.StatementsWellFormed | prisma/deploy-schema.js:22-24 | no statement is empty or untrimmed, or holds ';' |
| DeploySchema.StatementsInOrder | prisma/deploy-schema.js:22-30 | statements keep the text's order |
| DeploySchema.SingleStatement | prisma/deploy-schema.js:22-24 | text without ';' is one trimmed statement, or none when blank |
| DeploySchema.Sent | prisma/deploy-schema.js:26-35 | every statement is sent in turn, with the database's answer to it |
| DeploySchema.DeployJs | prisma/deploy-schema.js:8-38 | without the file nothing is sent; otherwise each statement of at least 5 characters is sent in order, and a rejection does not stop the rest |
| DeploySchema.JsSends | prisma/deploy-schema.js:22-35 | every long-enough statement is sent whatever the answers; none sent is short, empty, untrimmed or holds ';' |
| DeploySchema.SendEach | prisma/deploy-schema.ts:27-33 | the fallback loop sends every statement in turn, passing over rejections |
| DeploySchema.DeployTs | prisma/deploy-schema.ts:8-34 | the whole text is sent first; only if it is rejected is every statement sent, with no length check |
| DeploySchema.TsFallback | prisma/deploy-schema.ts:19-33 | the fallback runs exactly when the whole text is rejected, and then sends every statement, short ones included |
| Text.Lower | app/pharmacy/billing/page.tsx:145 | `toLowerCase`: same length, each character folded to lower case |
| Text.LowerIdempotent | app/doctor/dashboard/page.tsx:180 | lower-casing twice is lower-casing once |
| Text.Trim | app/actions/doctor-actions.ts:371 | `trim`: no surrounding white space is left |
| Text.TrimPadded | app/actions/doctor-actions.ts:371 | trimming ignores any surrounding white space |
| Text.TrimIdempotent | prisma/deploy-schema.js:23 | trimming twice is trimming once |
| Text.Contains | app/pharmacy/billing/page.tsx:145-146 | `includes` holds exactly when the text occurs at some position |
| Text.ContainsEmpty | app/pharmacy/billing/page.tsx:145-146 | every text includes the empty search |
| Text.Split | prisma/deploy-schema.js:22 | `split(';')`: at least one piece, none holding the separator |
| Text.JoinSplit | prisma/deploy-schema.js:22 | joining the pieces with the separator gives the text back |
| Text.SplitConcat | prisma/deploy-schema.js:22 | splitting text that holds a separator gives the pieces of each side, in order |
| Text.SplitFirstPiece | app/actions/doctor-actions.ts:102 | the first piece is the text up to the first separator |
| Lists.FirstIndex | app/actions/doctor-actions.ts:383 | `find`: the first element satisfying the test, and none exactly when none does |
| Lists.FilterMember | app/pharmacy/billing/page.tsx:104 | `filter` keeps exactly the elements that pass |
| Lists.FilterAppend | app/pharmacy/billing/page.tsx:144 | `filter` keeps the order |
| Lists.SortBy | app/actions/pharmacy-actions.ts:14 | `orderBy`: sorted, and a permutation of the rows |
| Lists.InsertBySorted | app/actions/pharmacy-actions.ts:14 | inserting into a sorted list keeps it sorted |
| Lists.CountIsFilterLength | app/actions/lab-actions.ts:54-56 | `count` equals the length of the filtered list |
| Keyed.Lookup | app/pharmacy/billing/page.tsx:80 | `find` by key: the first element in list order with that key, and none exactly when no element has it |
| Keyed.RemapLookup | app/pharmacy/billing/page.tsx:83 | the `map` on one key changes only that key's element |
| Keyed.RemapOthers | app/doctor/dashboard/page.tsx:152 | the `map` on one key never touches other keys |
| Keyed.WithoutKeyContents | app/pharmacy/billing/page.tsx:104 | filtering out a key keeps exactly the other keys' elements |
| Keyed.AppendUnique | app/pharmacy/billing/page.tsx:87 | appending an element with a new key keeps keys unique |
| Keyed.UniqueLookup | app/doctor/dashboard/page.tsx:150 | with unique keys, `find` by an element's key returns that element |
| Store.MedicineById | app/actions/pharmacy-actions.ts:13 | the `medicine` relation of a batch: the master row with that id, or none |
| Store.OrdersValidWrite | app/actions/doctor-actions.ts:345-353 | writing an order under its own id keeps the order table valid |

## Left out

- Webhook I/O is not modelled. Each agent reply (dispensing, registration) is an input value. The webhook calls whose answers the code ignores are left out: `uploadResult`'s result notification and `generateInvoice`'s invoice PDF. Their failures are caught and ignored.
- Database errors are left out beyond those the actions handle: an update of a missing row, and a rejected batch insert. Connection failures and the other `catch` branches are not modelled.
- The `debug.log`/`error.log` writes, the console logging, `revalidatePath` and `alert` are left out. They are I/O side effects.
- Prices are integers in the smallest currency unit. JavaScript's floating-point prices, and their rounding, are not modelled.
- The clock is not modelled. This leaves out the today's-appointments window of `getPatientQueue` (the caller passes the day's rows), the `completedToday` count of `getLabStats`, the expiry highlight of the billing page, and creation timestamps (a parameter `now`).
- Concurrency is not modelled: settlements racing each other or a billing, and the 5-second polling of the pharmacy queue. The model is single-threaded.
- Case folding and white space are ASCII only. The database's `mode: 'insensitive'` is reduced to the same ASCII folding, and collation is not modelled.
- Agent-reply values of the wrong JSON type are not modelled. A `dispensed_medicines` or `unavailable_medicines` entry that is `null`, or whose `medicine` is a non-string such as a number or an object, makes `normalize` throw at app/actions/doctor-actions.ts:371 or 383-384. The action then fails after the order was marked Processed, the same outcome as `DoctorActions.MalformedListAfterProcessed`, but `DoctorActions.MedEntry` holds only string names. Likewise a non-string `patient_id` in the registration reply (app/actions/register-patient.ts:36) is not modelled: it fails later, inside the database client.
- A JavaScript `undefined` or falsy string field is the empty string, and a `|| 0` number is 0. The form's gender is sent to the agent but never stored, so it is not kept. `uploadResult`'s remarks are not stored either.
- CleanupOrders.CleanupOrders: the rows of `findMany` come in an unspecified order, so the model visits order ids in ascending order. The set of deleted ids is the same in every order.
- PharmacyActions.AddInventoryBatch: a rejected write is decided by the tables' unique and foreign keys only (the master's `brand_name`, which prisma/seed.ts:74-76 upserts by, and the batch table's `batch_no` and `medicine_id`). Other database rejections are not modelled. The schema file is not part of this model, so these keys are taken from how the code uses them.
- AfterCheckout: uses the corrected refresh (`BillingPage.Refreshed`), not the raw rows that page.tsx:138 stores; the code as written is `BillingPage.RefreshedAsWritten`, under "## Findings". A failed `getInventory` call is the empty refresh.
- Actions not modelled: `getPatientHistory`, `admitPatient`, `saveClinicalNotes`, `orderLabTest`, `getPatientLabOrders` and `getMedicineList` in app/actions/doctor-actions.ts. They are single queries or inserts around a webhook.
- app/actions/discharge-actions.ts, the login action and the other pages are not part of this model: they are webhook, PDF-encoding and authentication plumbing.
- The pages' rendering is not modelled: JSX, modals, and the hard-coded mock data and KPIs.

## Findings

| source | as written | input that shows it | evidently intended | confidence | as-written member | corrected member |
|---|---|---|---|---|---|---|
| app/pharmacy/billing/page.tsx:137-138 | after a successful checkout the raw `getInventory` rows replace the list; they have `batch_no` and a nested `medicine` but no `batch_id`, `medicine_name`, `stock_count` or `unit_price` | any checkout that succeeds while some batch still has stock: every search of `filteredInventory` then lists nothing, and the unit prices read as undefined | the refreshed rows mapped like the initial load (page.tsx:51-57), so that the list shows the remaining stock | not executed | BillingPage.RefreshedAsWritten, BillingPage.RefreshAsWrittenHidesStock | BillingPage.Refreshed, BillingPage.RefreshShowsStock (used by BillingPage.AfterCheckout) |
