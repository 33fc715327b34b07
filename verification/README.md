# Receipt ledger and scan queue: a verified model

A household ledger stores receipts in Postgres and their images in an object store. Background workers
scan the images with a language model and write what they read back to the ledger, while users edit,
review, retry and delete the same rows. This project models that system in Dafny and proves what its
design promises: a scan is only ever written if it read exactly the receipt's images, a user's reviewed
data is never overwritten, claims and budgets are accounted for in every run, categories stay on the right
side of the ledger, and no image row ever lacks its object.

`dafny verify dfyconfig.toml` checks everything.

## How it is laid out

| files | contents |
|---|---|
| `Basics`, `Kinds`, `LedgerInput`, `ScanTypes` | the kind table, request bodies applied to a receipt, what a scan returns and how names and matches are decided |
| `Tables` | the tables as a value and every committed transaction as a function; `None` is a transaction that throws and rolls back |
| `TransactionMeaning`, `ScanStepMeaning` | every user transaction and every step of a scan in terms of the stored columns: when it is accepted, what each column holds afterwards, what stays |
| `LedgerInvariant` | what each transaction keeps (`DbOk`), and what it guarantees to a scan in flight (`Rely`) |
| `ClaimLog`, `ScanProtocol`, `ScanInvariant`, `ScanTheorems`, `ReviewTheorems` | the queue as a transition system: any number of workers and users, one step per SQL statement or transaction, a crash possible between any two; its invariant; the theorems over whole runs |
| `SampleRuns` | three complete runs, from the empty system, to states in which a promise one might expect fails |
| `Database`, `ItemService`, `LedgerServices`, `ScanWrites`, `ScanWorker` | the services and the worker as imperative code over one mutable set of tables, each method proved to have the effect `Tables` says |
| `CategoryLocks` | category fit once more, statement by statement with row locks |
| `ImageStore`, `ImageService` | database rows and stored objects as two stores that fail separately; the upload, add and delete code over them |
| `AnthropicReply`, `AnthropicCalls` | cents through binary doubles, the add-up check, retries, rescan, the startup time check |
| `RateLimiter` | the fixed-window limiter |

Three layers meet in `Tables`. The machine of `ScanProtocol` steps by its functions, the invariants are
about its functions, and the imperative methods end in exactly the tables its functions give. What the
functions themselves do is stated once more without them, column by column, in `TransactionMeaning` and
`ScanStepMeaning`, and for runs where the machine is concerned.

## Assumptions

* A statement or, for the user services, a transaction is one step of the queue machine; a locking read
  that had to wait sees the row as it is when it gets the lock. The one place where finer interleaving of
  user transactions matters, category fit, has its own machine in `CategoryLocks`. The worker's long
  transaction is interleaved statement by statement up to its lock.
* The locking read of a scan write is two steps, because its item count is a subquery
  (src/scan/ScanWorker.cpp:111-117): under read committed it counts the items when it is sent, and reads the
  row when it gets the lock.
* `now()` in a transaction is the time it began. Times are readings of one clock that never gives the same
  reading twice, so a claim's token is new. A transaction may commit long after it began and in any order.
* The provider, the merchant matcher, the object store and everyone else's transactions behave
  arbitrarily, within their types; `ScanWorker.Worker` runs against arbitrary acts that keep `DbOk` and
  `Rely`, and `UsersArePolite`, `WorkersArePolite`, `ClaimsArePolite` and `WritesArePolite` prove that the
  users' transactions and the other workers' reclaims, failures, claims and results do.

## What the proofs found

* Marking a receipt reviewed confirms it exactly when the edit's transaction began no earlier than the
  last proposal; a scan that commits while the edit waits for the row leaves it needing review
  (`MarkingReviewedConfirmsIff`, and a run of it in `MarkingReviewedCanBeOvertaken`).
* Extraction replaces total and currency but not the exchange rate, so a rate can be left on an AUD
  receipt and the AUD equivalent can go stale. No other step of the system does that: `RatesStaySoundIff`
  gives the exact condition over whole runs, `ExtractionCanStrandARate` a run in which it happens.
* Item writers read the receipt's kind without a lock. Everything fits at every moment exactly when every
  item is committed on the side its receipt then has, and every kind change that switches sides finds its
  receipt free of categorised items (`AlwaysFitsIff`). Three runs fail: an insert whose receipt changes kind,
  or is extracted to another kind, after it read it, and an item categorised after a kind change checked
  (`UnlockedKindMisfiles`). While no receipt changes sides, all races are safe (`SafeRaces`).
* A verify scan checks under the row's lock that the receipt has no items, but counts them when it asks for
  the lock. It adds its items to some the user has just entered exactly when those were committed in
  between (`ItemsJoinIff`, and a run of it in `VerifyCanJoinItems`).
* The startup check's worst-case formula covers the retry loop exactly up to five retries; two are
  configured.
* The rate limiter allows up to twice its limit less one in a window's length. It reads the clock before
  taking its lock, so attempts can be counted out of order of their times; for limits of two and more the
  bound survives one clock tick of that and fails from two ticks on (`DisorderThreshold`).

## Model

| member | source | states |
|---|---|---|
| Kinds.FindKindInvertsNames | src/receipts/Kinds.h:90-97 | a name finds a kind exactly when it is that kind's own name; unknown names find nothing |
| Kinds.SchemaAgreesWithTable | db/migrations/20260906000000_initial_schema.sql:147-153 | the CHECK constraints say exactly what the kind table says, and every scannable kind has a fixed direction |
| Kinds.TableMeaning | src/receipts/Kinds.h:35-70 | the table kind by kind: name, direction, tax, offsets, categories, scannable |
| Basics.LowerMeaning | src/scan/ScanWorker.cpp:60-63 | lower-cased names are equal exactly when they differ in the case of ASCII letters at most |
| LedgerInput.PatchIsIdempotent | src/receipts/LedgerInput.cpp:104-131 | an accepted body applied again is accepted and changes nothing |
| LedgerInput.KindOnlyPatch | src/receipts/LedgerInput.cpp:110-117 | a kind-only patch is accepted exactly when the other fields suit the kind; fixed kinds get their direction, a transfer keeps the old one |
| LedgerInput.PatchMeaning | src/receipts/LedgerInput.cpp:104-131 | a patch is accepted exactly when every key decodes and the receipt it makes is admissible: each given key sets the field of its name, each absent one leaves it, direction follows a changed kind |
| LedgerInput.EntryMeaning | src/receipts/LedgerInput.cpp:65-102 | a manual entry is accepted exactly when it decodes, has not both items and a category, and is admissible; each key sets its field, absent ones give the defaults, and no items give one for the total |
| LedgerInput.AudEquivalentMeaning | src/receipts/LedgerInput.cpp:171-176 | the AUD equivalent is the product to the nearest cent, midpoints away from zero |
| ScanTypes.FindTagsMeaning | src/scan/ScanWorker.cpp:182-189 | a scanned item's tags are exactly the user's tags it names, ignoring case, each once |
| ScanTypes.FindCategoryMeaning | src/scan/ScanWorker.cpp:173-181 | a resolved category is the user's, on the kind's side and so named; none is found only if there is none |
| ScanTypes.MerchantTestMeaning | src/scan/ScanWorker.cpp:394-408 | skipping the second similarity query never changes the verdict |
| ScanTypes.ValidateMeaning | src/scan/ScanWorker.cpp:83-105 | a result is used exactly when kind, amounts, quantities, date and currency are usable, and only the case of its currency changes |
| ScanTypes.ItemInputMeaning | src/scan/ScanWorker.cpp:166-191 | a scanned item keeps its name, quantity, amounts and flag; its category and tags are those of the user's that it names on that side |
| TransactionMeaning.UploadMeaning | src/receipts/ReceiptService.cpp:187-199 | an upload adds one queued blank AUD purchase of the user's with its images, and changes nothing else |
| TransactionMeaning.AddImagesMeaning | src/receipts/ReceiptService.cpp:206-246 | new images go behind the old ones of an own receipt and queue it; nothing else of it changes |
| TransactionMeaning.CreateManualMeaning | src/receipts/ReceiptService.cpp:274-312 | an entry that can be entered is stored exactly if it refers to the user's own data on the right side: its fields as entered, its items in order, dated, reviewed and at rest |
| TransactionMeaning.CreateManualRefused | src/receipts/LedgerInput.cpp:65-102 | only bodies that can be entered are stored |
| TransactionMeaning.UpdateReceiptMeaning | src/receipts/ReceiptService.cpp:314-368 | an edit is accepted if and only if some receipt is the old one patched key by key, admissible, with own references and no item off its side; the row stored is that receipt, with its AUD equivalent and stamps, and nothing else changes |
| TransactionMeaning.DeleteReceiptMeaning | src/receipts/ReceiptService.cpp:424-448 | an own receipt is removed and the offsets that named it are cleared; nothing else changes |
| TransactionMeaning.CreateItemMeaning | src/receipts/ItemService.cpp:139-152 | an item is added exactly if its category is own and on the receipt's side and its tags are own and distinct, with each field in its column |
| TransactionMeaning.UpdateItemMeaning | src/receipts/ItemService.cpp:154-185 | an item edit is accepted exactly if it decodes and what it names is allowed; given keys set their columns, absent ones leave them |
| TransactionMeaning.UpdateCategoryMeaning | src/receipts/ReferenceDataService.cpp:90-129 | a category edit is stored exactly if no item in it is on a receipt of the other side and no other category of the user on that side has the name, ignoring case |
| TransactionMeaning.CreationsMeaning | src/receipts/ReferenceDataService.cpp:72-88 | a category or tag is created exactly when its name is unused, ignoring case |
| TransactionMeaning.RemovalsMeaning | src/receipts/ReferenceDataService.cpp:48-56 | deleting a category, tag or payment method takes it off every item and receipt that has it and changes nothing else |
| TransactionMeaning.ListsAreSorted | src/scan/ScanWorker.cpp:136-149 | the lists given to a scan are in id order |
| TransactionMeaning.LoadedListsHold | src/scan/ScanWorker.cpp:136-149 | the lists given to a scan are the user's own categories and tags |
| TransactionMeaning.ScannedItemsFit | src/scan/ScanWorker.cpp:163-200 | while the lists hold, no name a scan gives is a reason to refuse its items |
| ScanStepMeaning.ReviewStateMeaning | db/migrations/20260906000000_initial_schema.sql:218-223 | confirmed and needs-review in terms of the two timestamps, null or not |
| ScanStepMeaning.LimitMeaning | src/scan/ScanWorker.cpp:310 | the free slots are the concurrency less the rows scanning, or none |
| ScanStepMeaning.ClaimsTakeOldest | src/scan/ScanWorker.cpp:306-319 | in every run, each queued unlocked row a claim leaves has a later creation time, or the same and a higher id, than each row it takes, and is left only because the slots counted are used up |
| ScanStepMeaning.ExtractionStoresScan | src/scan/ScanWorker.cpp:206-222 | in every run, a scan written to a never reviewed receipt is in its columns field by field: merchant, store name, date, total, currency, kind and direction, items one to one and in order; tax and offset stay where the kind allows them |
| ScanStepMeaning.VerificationFillsGaps | src/scan/ScanWorker.cpp:228-241 | in every run, a scan written to a reviewed receipt gives an empty merchant, store name or date its value, keeps every other field and item, adds its items in order if none were counted, and renews the review exactly when the two agree |
| ScanStepMeaning.WriteCommitsIff | src/scan/ScanWorker.cpp:412-432 | in every run, a write that commits found claim, version, review state and item count as compared; one that finds them so commits while the lists hold |
| ScanStepMeaning.WritePathMeaning | src/scan/ScanWorker.cpp:412-439 | a write that does not go through changes no table: it ends if stale, compares once more the first time the row has changed, and otherwise fails on the infrastructure's budget |
| ScanStepMeaning.ComparePathMeaning | src/scan/ScanWorker.cpp:380-417 | comparing fixes the verdict by raw agreement with the row as it is, sending the locking read the item count; a stale claim ends at either |
| ScanStepMeaning.ScanPathMeaning | src/scan/ScanWorker.cpp:329-348 | up to the result: the kind is known only of a reviewed receipt, no images is terminal, an unusable result is the scan's fault |
| ScanStepMeaning.FailureMeaning | src/scan/ScanWorker.cpp:444-453 | a failure costs one unit of one counter and ends the claim; the receipt is given up exactly if that counter reaches its cap or the failure is terminal |
| ScanStepMeaning.ReclaimMeaning | src/scan/ScanWorker.cpp:284-291 | a reclaim takes exactly the rows scanning longer than the timeout, at one reclaim each, and gives up at the cap |
| LedgerInvariant.RelyTransitive | src/scan/ScanWorker.cpp:371-376 | what one transaction guarantees to a scan in flight, any number of them guarantee |
| LedgerInvariant.UpdateReceiptKeeps | src/receipts/ReceiptService.cpp:314-368 | a patch keeps every table invariant and gives in-flight scans the guarantee |
| LedgerInvariant.CreateManualKeeps | src/receipts/ReceiptService.cpp:274-312 | a manual entry keeps every table invariant |
| LedgerInvariant.CreateItemKeeps | src/receipts/ItemService.cpp:139-152 | a new item keeps category fit and tag ownership |
| LedgerInvariant.UpdateItemKeeps | src/receipts/ItemService.cpp:154-185 | an item edit keeps them although it checks the category only when the patch names one |
| LedgerInvariant.UpdateCategoryKeeps | src/receipts/ReferenceDataService.cpp:99-123 | flipping a category's side keeps every item fitting |
| LedgerInvariant.RemoveCategoryKeeps | db/migrations/20260906000000_initial_schema.sql:197 | deleting a category uncategorises its items and keeps every table invariant |
| LedgerInvariant.RemoveMethodKeeps | db/migrations/20260906000000_initial_schema.sql:133 | deleting a payment method clears it from the receipts that have it and keeps every table invariant |
| LedgerInvariant.DeleteReceiptKeeps | db/migrations/20260906000000_initial_schema.sql:141 | deleting a receipt unlinks the offsets that pointed at it and leaves no dangling one |
| LedgerInvariant.WriteResultKeeps | src/scan/ScanWorker.cpp:202-241 | a scan write keeps the constraints and category fit although it bypasses the receipt validation |
| ClaimLog.ClaimsAreConserved | src/scan/ScanWorker.cpp:306-319 | in a legal history, claims issued are those applied, failed, reclaimed or voided, plus the outstanding one |
| ClaimLog.ClaimsEndOnce | src/scan/ScanWorker.cpp:444-453 | no claim ends twice, and nothing else happens to the lane between its issue and its end |
| ScanInvariant.TaskSurvives | src/scan/ScanWorker.cpp:371-376 | what a worker knows of its claim stays true across anybody's guaranteed step |
| ScanInvariant.StepKeeps | src/scan/ScanWorker.cpp:263-457 | every step of any worker or user keeps the invariant and gives the guarantee |
| ScanInvariant.RunSound | src/scan/ScanWorker.cpp:263-457 | the invariant holds at every moment of every run |
| ScanTheorems.WorkerStep | src/scan/ScanWorker.cpp:284-457 | a worker step never creates or deletes a receipt and touches one only by reclaim, claim, recorded failure or committed result |
| ScanTheorems.IdleReceiptsAreFresh | src/scan/ScanWorker.cpp:412-432 | in every run, a receipt at rest with images holds exactly the images read by the last scan that was written to it |
| ScanTheorems.WritesAreFresh | src/scan/ScanWorker.cpp:329-348 | in every run, each scan that is written read exactly the images the receipt has at that moment |
| ScanTheorems.WriteIsAtomic | src/scan/ScanWorker.cpp:377-439 | in every run, a write step leaves the tables alone or does what deciding and writing in one go on the locked row would, with the items as its locking read counted them |
| ScanTheorems.WriteIsNeverStuck | src/scan/ScanWorker.cpp:82-86 | no write ever meets an unknown or directionless kind on a row it would extract to |
| ScanTheorems.StaleClaimIsInert | src/scan/ScanWorker.cpp:371-376 | a claim that stopped holding never holds again, and its worker changes no row however late it is |
| ScanTheorems.ClaimConservation | src/scan/ScanWorker.cpp:284-319 | in every run and for every receipt, the claim count balances, and the outstanding one is the row's scan_started_at exactly while scanning |
| ScanTheorems.BudgetsAreAccounted | src/scan/ScanWorker.cpp:444-453 | the two counters are the ScanErrors and the reclaims plus other failures since creation or retry; scan_failed is reached exactly by giving up |
| ScanTheorems.NoticesMatchGiveUps | src/scan/ScanWorker.cpp:454-469 | every give-up owes one notice, attempted at most once; nothing else is ever notified |
| ScanTheorems.UndisturbedStep | src/scan/ScanWorker.cpp:444-453 | each re-queue by a worker strictly spends budget, and each claim is paid for |
| ScanTheorems.ClaimsAreBounded | src/scan/ScanWorker.cpp:444-453 | while its user leaves a receipt alone it is claimed no more often than its budgets allow |
| ScanTheorems.ScanningIsReclaimable | src/scan/ScanWorker.cpp:284-291 | a scanning row always has a start time, and a reclaim takes it out exactly when the timeout has passed |
| ScanTheorems.ConcurrencyCap | src/scan/ScanWorker.cpp:301-319 | with at most n claim statements racing, at most n times the concurrency are in scanning |
| ReviewTheorems.LedgerHoldsInEveryRun | src/receipts/ItemService.cpp:84-113 | in every run every item's category is its owner's and on the right side, tags and payment methods are the owner's, constraints hold, offsets are owned |
| ReviewTheorems.ScannedNameIsUnambiguous | src/scan/ScanWorker.cpp:163-181 | a scanned category name means at most one of the user's categories on a side |
| ReviewTheorems.ReviewedDataIsNeverLost | src/scan/ScanWorker.cpp:224-241 | over any stretch in which no act reaches it, a reviewed receipt keeps its fields and items; only empty merchant, store name and date are filled |
| ReviewTheorems.OnlyOwnersReach | src/receipts/ReceiptService.cpp:322-326 | an act that reaches a receipt, directly or through what it refers to, is its owner's |
| ReviewTheorems.WriteDecidesReview | db/migrations/20260906000000_initial_schema.sql:218-223 | a verify write confirms exactly when totals and currencies are equal, the dates both have are close enough and the merchant is similar enough on the row it is written to; otherwise it sends to review; extraction always does |
| ReviewTheorems.OnlyAMismatchUnconfirms | src/scan/ScanWorker.cpp:441-457 | a worker step unconfirms a receipt if and only if it commits a scan that differs in total, currency, date or merchant by that test |
| ReviewTheorems.CountWasTaken | src/scan/ScanWorker.cpp:111-117 | in every run, a write works with the item count its last locking read found when it was sent |
| ReviewTheorems.ItemsJoinIff | src/scan/ScanWorker.cpp:238-240 | in every run, a verify write adds scanned items to a receipt that has some if and only if the scan has items, the receipt has some now, and it had none when the locking read was sent |
| SampleRuns.VerifyCanJoinItems | src/scan/ScanWorker.cpp:238-240 | a run in which that happens |
| ReviewTheorems.MarkingReviewedConfirmsIff | src/receipts/ReceiptService.cpp:350-358 | marking reviewed confirms exactly when the transaction began no earlier than the last proposal |
| SampleRuns.MarkingReviewedCanBeOvertaken | src/receipts/ReceiptService.cpp:350-358 | a run in which an accepted edit marks a receipt reviewed and leaves it needing review |
| ReviewTheorems.ExtractionAndExchangeRate | src/scan/ScanWorker.cpp:206-219 | from tables whose rates are all admissible and current, a step of anyone's leaves them so if and only if it is not an extraction that strands one |
| ReviewTheorems.RatesStaySoundIff | src/receipts/LedgerInput.cpp:162-176 | in every run, all stored rates are admissible and all AUD equivalents current at every moment if and only if no extraction strands one |
| SampleRuns.ExtractionCanStrandARate | src/scan/ScanWorker.cpp:206-219 | a run in which a foreign receipt with a sound rate is scanned as AUD and loses both |
| CategoryLocks.CommitFitsIff | src/receipts/ItemService.cpp:84-113 | exactly which commits leave every item on the right side, given the locks held |
| CategoryLocks.WaitingMeaning | src/receipts/ItemService.cpp:84-113 | who waits for whom: a flip and everybody resting on its category, a kind change or scan and a new item on its receipt |
| CategoryLocks.CheckingMeaning | src/receipts/ReceiptService.cpp:332-350 | what the checks of items, kind changes and flips let through, in sides of stored rows |
| CategoryLocks.CommitScanMeaning | src/scan/ScanWorker.cpp:202-241 | a scan's items join the receipt's, or replace them if it extracts, and nothing else changes but its kind |
| CategoryLocks.ScanKindMeaning | src/scan/ScanWorker.cpp:418-427 | a scan goes by the kind it extracts or, verifying, by the kind under the lock |
| CategoryLocks.AlwaysFitsIff | src/receipts/ReceiptService.cpp:332-350 | over every interleaving of item writers, kind changes, flips, scan writes, manual entries and deletions, everything always fits if and only if every commit is such a one |
| CategoryLocks.SafeRaces | src/receipts/ReferenceDataService.cpp:101-122 | while no receipt changes sides, everything races safely; everything but item writers always does; with inserts the only danger is a stale kind |
| CategoryLocks.CommitScanKeeps | src/scan/ScanWorker.cpp:202-241 | a scan write, extracting or verifying, commits only fitting items and leaves everybody else's checks valid, by the locks it holds |
| CategoryLocks.CommitEntryKeeps | src/receipts/ReceiptService.cpp:283-305 | a manual entry commits only fitting items and leaves everybody else's checks valid |
| CategoryLocks.DropCategoryKeeps | db/migrations/20260906000000_initial_schema.sql:197 | deleting a category nobody has locked keeps fit and everybody's checks |
| CategoryLocks.UnlockedKindMisfiles | src/receipts/ItemService.cpp:43-49 | three concrete runs that end with an expense item on an income receipt, one of them without any kind change |
| ItemService.ReplaceTags | src/receipts/ItemService.cpp:70-80 | the loop accepts exactly lists of distinct own tags and leaves exactly those on the item |
| ItemService.Insert | src/receipts/ItemService.cpp:99-113 | accepts exactly allowed items and adds just that item under the next id |
| ItemService.Create | src/receipts/ItemService.cpp:139-152 | commits the item or leaves the tables as they were |
| ItemService.Update | src/receipts/ItemService.cpp:154-185 | commits the edit or leaves the tables as they were |
| ItemService.Remove | src/receipts/ItemService.cpp:187-194 | removes just that item, only from the user's own receipt |
| LedgerServices.ValidateReferences | src/receipts/ReceiptService.cpp:248-272 | accepts exactly an own payment method and an offset to another own receipt of a kind that can be offset |
| LedgerServices.CreateManualEntry | src/receipts/ReceiptService.cpp:274-312 | the row and then its items one by one end as the one transaction, or in nothing |
| LedgerServices.AnyClash | src/receipts/ReceiptService.cpp:334-343 | the loop finds a clash exactly when some categorised item is off the new side |
| LedgerServices.PatchReceipt | src/receipts/ReceiptService.cpp:314-368 | commits exactly the edits that `UpdateReceiptMeaning` describes key by key, or leaves the tables as they were |
| LedgerServices.Retry | src/receipts/ReceiptService.cpp:370-383 | re-queues exactly an own receipt in scan_failed, with both counters reset |
| LedgerServices.EditCategory | src/receipts/ReferenceDataService.cpp:90-129 | commits exactly the edits that leave no clashing item and no duplicate name |
| ScanWrites.ResolveItem | src/scan/ScanWorker.cpp:166-191 | the nested search loops compute the resolution whose meaning is stated above |
| ScanWrites.CompareWith | src/scan/ScanWorker.cpp:384-409 | the step-by-step comparison returns true exactly when total and currency are equal, the dates both have are at most matchDateDays apart and the merchant test passes |
| ScanWrites.InsertScannedItems | src/scan/ScanWorker.cpp:193-200 | all scanned items are added in order, or the write is refused |
| ScanWrites.WriteExtraction | src/scan/ScanWorker.cpp:206-222 | update, delete and inserts end in exactly the extraction of the locked row, which `ExtractionStoresScan` describes column by column |
| ScanWrites.WriteVerify | src/scan/ScanWorker.cpp:228-241 | update and inserts end in exactly the verification of the locked row, which `VerificationFillsGaps` describes column by column |
| ScanWorker.UsersArePolite | src/receipts/ReceiptService.cpp:165-383 | every user transaction gives a running worker the guarantee its proof relies on |
| ScanWorker.WorkersArePolite | src/scan/ScanWorker.cpp:284-299 | so do the reclaims and recorded failures of other workers |
| ScanWorker.ClaimsArePolite | src/scan/ScanWorker.cpp:306-319 | so do their claims |
| ScanWorker.WritesArePolite | src/scan/ScanWorker.cpp:202-241 | so do their committed results |
| ScanWorker.LockedAgrees | src/scan/ScanWorker.cpp:418-427 | under the lock and unchanged, the decision made without it is the one this row asks for, and the images are the scanned ones |
| ScanWorker.VerdictMeaning | src/scan/ScanWorker.cpp:331-357 | which failure a scan meets, or that it meets none, in terms of images, fetch and provider |
| ScanWorker.WroteMeaning | src/scan/ScanWorker.cpp:377-439 | what a worker wrote is the scan field by field on the row as it was, confirmed exactly by raw agreement |
| ScanWorker.Worker.RecordedMeaning | src/scan/ScanWorker.cpp:444-453 | no images give the receipt up, a provider fault costs an attempt, infrastructure a reclaim, each giving up exactly at its cap |
| ScanWorker.Worker.Scan | src/scan/ScanWorker.cpp:331-347 | fails for want of images, by the infrastructure or by the provider, or proceeds with the validated result, exactly as the images stored, the fetch and the provider call for |
| ScanWorker.Worker.ApplyResult | src/scan/ScanWorker.cpp:377-439 | whatever the others do at each wait: one atomic write, with the items counted in between, as its last act, or nothing because the claim was stale, an item was refused, or the row changed twice |
| ScanWorker.Worker.RecordFailure | src/scan/ScanWorker.cpp:444-457 | spends one unit of the matching budget only while the claim holds, with a notice exactly on giving up |
| ScanWorker.Worker.Process | src/scan/ScanWorker.cpp:323-369 | the claim ends as its two readings, the fetch and the provider call for: with nothing if stale, with that failure on its own budget, or with the provider's result written in one go from the present images; it changes the tables at most once and last |
| ScanWorker.Worker.Reclaim | src/scan/ScanWorker.cpp:284-299 | reclaims exactly the stuck rows and sends one notice for each it gave up |
| ScanWorker.Worker.Claim | src/scan/ScanWorker.cpp:306-319 | takes unlocked queued rows only, no more than the free slots; each row it leaves waiting was created after each it takes (time, then id) and is left only for want of slots; each taken row gets a token of its own and is returned as one claim |
| ScanWorker.OldestFirst | src/scan/ScanWorker.cpp:307-313 | such a selection always exists: within the limit, and every row left waiting created after every row taken |
| ImageStore.StepKeeps | src/receipts/ReceiptService.cpp:127-246 | every step of any upload, addition or deletion, and stopping, keeps both stores consistent |
| ImageStore.ImagesAlwaysExist | src/receipts/ReceiptService.cpp:150-163 | at every moment every image row names an existing object of its own, and no receipt is over the cap |
| ImageStore.CommitsOnlyNewHashes | src/receipts/ReceiptService.cpp:136-148 | a batch that was not forced commits only hashes its user does not have at that moment |
| ImageStore.LostHashWasDeleted | src/receipts/ReceiptService.cpp:424-448 | a hash its user no longer has was deleted by that user with a receipt that had it |
| ImageStore.RacingUploadsCommitOnce | src/receipts/ReceiptService.cpp:127-134 | of racing unforced writes of one image at most one commits, unless in between that user deleted a receipt with this very image |
| ImageService.Service.StoreImages | src/receipts/ReceiptService.cpp:150-163 | stores and stages every image in order; a failure at any of them leaves only extra objects |
| ImageService.Service.StoreAndCommit | src/receipts/ReceiptService.cpp:172-203 | commits the images or rolls all of them back, and either way the transaction is over and its lock free |
| ImageService.Service.Upload | src/receipts/ReceiptService.cpp:165-204 | succeeds exactly within the cap, without conflict and without failure, adding just this receipt; otherwise no row changes; no transaction is left open |
| ImageService.Service.Add | src/receipts/ReceiptService.cpp:206-246 | likewise for images added to an existing receipt |
| ImageService.Service.Delete | src/receipts/ReceiptService.cpp:424-448 | removes the row and its objects, except those whose removal failed |
| AnthropicReply.PrintedCentsAreExact | src/scan/AnthropicScanProvider.cpp:231-235 | every amount under 2^51 cents survives being read as a double and multiplied out |
| AnthropicReply.ParseResponse | src/scan/AnthropicScanProvider.cpp:336-399 | the loops keep refund magnitudes, drop other negative lines, and fail on any malformed line |
| AnthropicReply.KeptMeaning | src/scan/AnthropicScanProvider.cpp:375-387 | the items read are the lines not left out, in order, each with its texts, quantity, price, tags and magnitude; any malformed line fails all |
| AnthropicReply.OutputMeaning | src/scan/AnthropicScanProvider.cpp:362-396 | an output is read exactly if it decodes: kind from the context first, each text under its own key, total as a magnitude |
| AnthropicReply.ReadMeaning | src/scan/AnthropicScanProvider.cpp:336-399 | a reply is read exactly if it is an object, neither refused nor cut off, whose first text is an output that decodes |
| AnthropicReply.ItemsAddUp | src/scan/AnthropicScanProvider.cpp:401-418 | the loop decides whether the charged items sum to the total or the subtotal |
| AnthropicReply.AddUpIsExact | src/scan/AnthropicScanProvider.cpp:401-418 | on a printed docket the decision compares the exact printed sums |
| AnthropicReply.ParsedAmountsAreUsable | src/scan/ScanWorker.cpp:83-105 | of what the worker validates, a parsed reply can fail only on kind, currency or date |
| AnthropicCalls.Send | src/scan/AnthropicScanProvider.cpp:449-483 | stops at the first attempt not worth retrying or the last allowed one, with that outcome and the exact time taken |
| AnthropicCalls.OnlyFinalAnswersAreRefused | src/scan/AnthropicScanProvider.cpp:460-470 | a receipt is blamed exactly for a final status below 500 other than 200, 408 and 429; each earlier attempt was answered with 408, 429 or 500 and above, so overload and outage never count against it |
| AnthropicCalls.StopMeaning | src/scan/AnthropicScanProvider.cpp:448-482 | an attempt is the last exactly when all before it were answered 408, 429 or at least 500 within the retries, and it was not or is the last allowed |
| AnthropicCalls.PauseMeaning | src/scan/AnthropicScanProvider.cpp:472-479 | the pause is the seconds asked for, between none and thirty, or else 2, 4, 8 and so on |
| AnthropicCalls.AcceptedMeaning | src/scan/ScanServices.cpp:21-31 | the startup check in numbers; the defaults need a window of more than 570 seconds |
| AnthropicCalls.AllowanceCoversIff | src/scan/ScanServices.cpp:21-26 | the worst-case formula covers every behaviour of the network if and only if at most five retries are configured |
| AnthropicCalls.ScanReceipt | src/scan/AnthropicScanProvider.cpp:420-447 | rescans exactly when the first reading does not add up and rescans are on; the second reading wins if there is one |
| AnthropicCalls.ScanOutcomeMeaning | src/scan/AnthropicScanProvider.cpp:420-483 | a scan raises a ScanError exactly if the first answer is final and not OK or cannot be read, another exception exactly if the provider cannot be reached |
| AnthropicCalls.CallsFitReclaimWindow | src/scan/ScanServices.cpp:21-31 | once startup accepts the settings, with up to five retries, the calls and pauses of a scan take less than the reclaim window |
| AnthropicCalls.RescanIsBestEffort | src/scan/AnthropicScanProvider.cpp:426-446 | a rescan never costs a result |
| RateLimiter.Limiter.Allow | src/auth/RateLimiter.h:24-35 | the attempt is counted in its key's window, or starts one, and no other key changes |
| RateLimiter.AtMostTwiceTheLimit | src/auth/RateLimiter.h:24-35 | no interval as long as the window holds more than twice the limit less one allowed attempts, even if attempts overtake each other by one tick |
| RateLimiter.TwiceTheLimitIsReached | src/auth/RateLimiter.h:24-35 | that number is reached for every positive limit and window |
| RateLimiter.DisorderThreshold | src/auth/RateLimiter.h:25-26 | with attempts counted up to d ticks out of order of their times, that bound holds if and only if d is at most one, the limit is at most one, or the window is negative |
| RateLimiter.KeysAreIndependent | src/auth/RateLimiter.h:28-34 | a key's entry depends on that key's attempts alone |

## Left out

- ScanWorker.Worker.Process: failures of the database itself inside `process` appear only as the image fetch, the provider, a refused item write and a failing `recordFailure`; the queue machine lets a worker fail or die at any step.
- ScanWorker.Worker.Claim: tokens are consecutive clock readings; the machine allows any fresh ones.
- AnthropicCalls.Send: the backoff is unbounded here, where a 32-bit shift overflows from attempt 30 on; neither direction of the five-retry result depends on it. A `retry-after` of `nan` is not represented.
- AnthropicReply.ParseResponse: JSON decoding, and replies whose blocks or stop reason are ill-typed, which raise an exception outside the function's own error handling; amounts beyond 64 bits.
- AnthropicCalls.CallsFitReclaimWindow: the claim's clock starts before the images are fetched and the lists loaded (src/scan/ScanWorker.cpp:328-347), whose time neither the code's formula nor this bound counts.
- CategoryLocks.CommitScanKeeps: the deletion of the old items waits for updates of them when the scan commits, not when it deletes; payment methods, tags and deleted receipts are left out of the lock-level machine.
- ReviewTheorems.LedgerHoldsInEveryRun: that an offset's target is a purchase is checked when it is set and not kept afterwards by the code, so only its existence and owner are kept.
- ImageStore.CommitsOnlyNewHashes: duplicates within one batch are not looked for by the code and not excluded.
- Tick as one coroutine: its reclaim, claim and concurrent scans are separate steps that interleave with everything else.
- Adding images to a receipt in scan_failed re-queues it without resetting its counters (src/receipts/ReceiptService.cpp:237-240); the model does the same, so nothing here says that a queued receipt has budget left.
- The database row and the images of an upload appear once in `Tables`, as one transaction, and once in `ImageStore`, step by step; that the two agree is not proved.
- Exchange-rate products are over the reals, not doubles; integer columns are unbounded.
- Similarity is an arbitrary function, days are integers, image hashes and keys are opaque strings; normalisation, S3 signing and the calendar are not modelled.
- HTTP controllers, JSON readers beyond accept or reject, authentication, the names of payment methods and renaming of tags, recurring transactions, listing and reading: no state that these properties depend on.
- Postgres deadlocks and query plans.
