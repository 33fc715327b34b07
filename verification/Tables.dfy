/** The ledger's tables and every committed transaction on them, one function per transaction.
    A function returning None is a transaction that throws and rolls back. */
module Tables {
  import opened Basics
  import opened Kinds
  import opened LedgerInput
  import opened ScanTypes

  datatype ScanState = Idle | Uploaded | Scanning | ScanFailed

  /** The scan columns of a receipt row. */
  datatype Lane = Lane(state: ScanState, attempts: nat, reclaims: nat, startedAt: Option<nat>)

  datatype Item = Item(
    name: Option<string>,
    quantity: Option<real>,
    unitPriceCents: Option<int>,
    amountCents: int,
    categoryId: Option<nat>,
    informational: bool,
    tags: set<nat>)

  /** A receipt with the rows it owns: images in creation order, items by id. */
  datatype Row = Row(
    owner: nat,
    rec: Editable,
    audEquivalent: Option<int>,
    lane: Lane,
    proposedAt: Option<nat>,
    reviewedAt: Option<nat>,
    createdAt: nat,
    updatedAt: nat,
    images: seq<string>,
    items: map<nat, Item>,
    raw: Option<ScanResult>)

  datatype Category = Category(owner: nat, name: string, isIncome: bool)

  datatype Tag = Tag(owner: nat, name: string)

  /** `methods` maps payment methods to their owners. `clock` is the next clock reading; `open` holds the start times of user transactions that
      have begun and not yet ended. Ids below nextRow, nextItem and nextRef have been handed out. */
  datatype Db = Db(
    rows: map<nat, Row>,
    cats: map<nat, Category>,
    tags: map<nat, Tag>,
    methods: map<nat, nat>,
    nextRow: nat,
    nextItem: nat,
    nextRef: nat,
    clock: nat,
    open: set<nat>)

  /** A claim: the receipt, its owner, and scan_started_at as the claim wrote it. */
  datatype Claim = Claim(rid: nat, user: nat, token: nat)

  /** What readSnapshot selects. */
  datatype Snapshot = Snapshot(
    reviewed: bool,
    kind: Kind,
    totalCents: int,
    currency: string,
    merchant: Option<string>,
    purchaseDate: Option<Day>,
    taxDeductible: bool,
    offsetsReceiptId: Option<nat>,
    updatedAt: nat,
    itemCount: nat)

  const EMPTY_DB: Db := Db(map[], map[], map[], map[], 0, 0, 0, 0, {})

  // ---- v_receipt_state ----

  predicate NeedsReview(row: Row) {
    row.proposedAt.Some? && (row.reviewedAt.None? || row.proposedAt.value > row.reviewedAt.value)
  }

  predicate IsConfirmed(row: Row) {
    row.reviewedAt.Some? && (row.proposedAt.None? || row.reviewedAt.value >= row.proposedAt.value)
  }

  // ---- claims and snapshots ----

  predicate ClaimHolds(db: Db, k: Claim) {
    && k.rid in db.rows
    && db.rows[k.rid].lane.state == Scanning
    && db.rows[k.rid].lane.startedAt == Some(k.token)
  }

  function SnapshotOf(row: Row): Snapshot {
    Snapshot(row.reviewedAt.Some?, row.rec.kind, row.rec.totalCents, row.rec.currency, row.rec.merchant,
             row.rec.purchaseDate, row.rec.taxDeductible, row.rec.offsetsReceiptId, row.updatedAt, |row.items|)
  }

  function ReadSnapshot(db: Db, k: Claim): Option<Snapshot> {
    if ClaimHolds(db, k) then Some(SnapshotOf(db.rows[k.rid])) else None
  }

  /** The locking read: the row as it is once locked, but its items as counted when the statement was sent. */
  function ReadLocked(db: Db, k: Claim, counted: nat): Option<Snapshot> {
    if ClaimHolds(db, k) then Some(LockedSnapshot(db.rows[k.rid], counted)) else None
  }

  function LockedSnapshot(row: Row, counted: nat): Snapshot {
    SnapshotOf(row).(itemCount := counted)
  }

  /** The user's categories (then tags) with id below `n`, by id. */
  function CategoriesBelow(cats: map<nat, Category>, user: nat, n: nat): seq<CategoryRef> {
    if n == 0 then []
    else
      var rest := CategoriesBelow(cats, user, n - 1);
      if n - 1 in cats && cats[n - 1].owner == user
      then rest + [CategoryRef(n - 1, cats[n - 1].name, cats[n - 1].isIncome)]
      else rest
  }

  function TagsBelow(tags: map<nat, Tag>, user: nat, n: nat): seq<TagRef> {
    if n == 0 then []
    else
      var rest := TagsBelow(tags, user, n - 1);
      if n - 1 in tags && tags[n - 1].owner == user then rest + [TagRef(n - 1, tags[n - 1].name)] else rest
  }

  function LoadTaxonomy(db: Db, user: nat): Taxonomy {
    Taxonomy(CategoriesBelow(db.cats, user, db.nextRef), TagsBelow(db.tags, user, db.nextRef))
  }

  // ---- items ----

  function TagSet(tagIds: seq<nat>): set<nat> {
    set t | t in tagIds
  }

  function Stored(input: ItemInput): Item {
    Item(input.name, input.quantity, input.unitPriceCents, input.amountCents, input.categoryId, input.informational,
         TagSet(input.tagIds))
  }

  function AsInput(item: Item, tagIds: seq<nat>): ItemInput {
    ItemInput(item.name, item.quantity, item.unitPriceCents, item.amountCents, item.categoryId, item.informational,
              tagIds)
  }

  predicate CategoryAllowed(cats: map<nat, Category>, owner: nat, kind: Kind, category: Option<nat>) {
    category.Some? ==>
      && category.value in cats
      && cats[category.value].owner == owner
      && CategoryFitsKind(cats[category.value].isIncome, kind)
  }

  /** replaceTags accepts the list: every tag is the user's, and none twice (item_tags' key). */
  predicate TagsAllowed(tags: map<nat, Tag>, owner: nat, tagIds: seq<nat>) {
    && (forall i :: 0 <= i < |tagIds| ==> tagIds[i] in tags && tags[tagIds[i]].owner == owner)
    && Distinct(tagIds)
  }

  predicate ItemAllowed(db: Db, owner: nat, kind: Kind, input: ItemInput) {
    CategoryAllowed(db.cats, owner, kind, input.categoryId) && TagsAllowed(db.tags, owner, input.tagIds)
  }

  predicate AllAllowed(db: Db, owner: nat, kind: Kind, inputs: seq<ItemInput>) {
    forall i :: 0 <= i < |inputs| ==> ItemAllowed(db, owner, kind, inputs[i])
  }

  /** The stored rows of `inputs`, numbered from `next`. */
  function Numbered(inputs: seq<ItemInput>, next: nat): (items: map<nat, Item>)
    ensures forall n :: n in items <==> next <= n < next + |inputs|
    ensures forall n :: n in items ==> items[n] == Stored(inputs[n - next])
  {
    if inputs == [] then map[]
    else
      var last := |inputs| - 1;
      Numbered(inputs[..last], next)[next + last := Stored(inputs[last])]
  }

  // ---- scan worker transactions ----

  function ScanningSet(db: Db): set<nat> {
    set r | r in db.rows && db.rows[r].lane.state == Scanning
  }

  function CountScanning(db: Db): nat {
    |ScanningSet(db)|
  }

  /** The claim statement's LIMIT, from the rows it counts in `scanning`. */
  function ClaimLimit(c: Config, db: Db): nat {
    Max(c.concurrency - CountScanning(db), 0)
  }

  predicate Older(db: Db, a: nat, b: nat)
    requires a in db.rows && b in db.rows
  {
    db.rows[a].createdAt < db.rows[b].createdAt || (db.rows[a].createdAt == db.rows[b].createdAt && a < b)
  }

  predicate Claimable(db: Db, locked: set<nat>, r: nat) {
    r in db.rows && db.rows[r].lane.state == Uploaded && r !in locked
  }

  /** `taken` is the oldest `limit` queued rows once the locked ones are skipped. */
  ghost predicate OldestClaimable(db: Db, limit: nat, locked: set<nat>, taken: set<nat>) {
    && |taken| <= limit
    && (forall a :: a in taken ==> Claimable(db, locked, a))
    && (forall a, b :: a in taken && Claimable(db, locked, b) && b !in taken ==> Older(db, a, b))
    && (|taken| == limit || forall b :: Claimable(db, locked, b) ==> b in taken)
  }

  function ClaimRow(row: Row, token: nat): Row {
    row.(lane := row.lane.(state := Scanning, startedAt := Some(token)))
  }

  function TakeRows(db: Db, tokens: map<nat, nat>, clock: nat): Db {
    db.(rows := map r | r in db.rows :: if r in tokens then ClaimRow(db.rows[r], tokens[r]) else db.rows[r],
        clock := clock)
  }

  function ReclaimRow(c: Config, row: Row): Row {
    row.(lane := Lane(if row.lane.reclaims + 1 >= c.maxReclaims then ScanFailed else Uploaded,
                      row.lane.attempts, row.lane.reclaims + 1, None))
  }

  predicate Stuck(c: Config, row: Row, now: nat) {
    && row.lane.state == Scanning
    && row.lane.startedAt.Some?
    && row.lane.startedAt.value < now - c.reclaimAfter
  }

  function ReclaimStuck(c: Config, db: Db, now: nat): Db {
    db.(rows := map r | r in db.rows :: if Stuck(c, db.rows[r], now) then ReclaimRow(c, db.rows[r]) else db.rows[r])
  }

  function FailRow(c: Config, row: Row, scanError: bool, terminal: bool): Row {
    if scanError then
      row.(lane := Lane(if row.lane.attempts + 1 >= (if terminal then 0 else c.maxScanAttempts) then ScanFailed else Uploaded,
                        row.lane.attempts + 1, row.lane.reclaims, None))
    else
      row.(lane := Lane(if row.lane.reclaims + 1 >= (if terminal then 0 else c.maxReclaims) then ScanFailed else Uploaded,
                        row.lane.attempts, row.lane.reclaims + 1, None))
  }

  function RecordFailure(c: Config, db: Db, k: Claim, scanError: bool, terminal: bool): Db {
    if ClaimHolds(db, k) then db.(rows := db.rows[k.rid := FailRow(c, db.rows[k.rid], scanError, terminal)]) else db
  }

  function AtRest(lane: Lane): Lane {
    lane.(state := Idle, startedAt := None)
  }

  function ExtractedRow(row: Row, now: nat, kind: Kind, result: ScanResult, items: map<nat, Item>): Row
    requires RulesFor(kind).canonicalDirection.Some?
  {
    var rules := RulesFor(kind);
    row.(rec := row.rec.(kind := kind,
                         direction := rules.canonicalDirection.value,
                         totalCents := result.totalCents,
                         currency := result.currency,
                         merchant := result.merchant,
                         storeNameRaw := result.storeNameRaw,
                         purchaseDate := DateOf(result),
                         taxDeductible := row.rec.taxDeductible && rules.allowsTaxDeductible,
                         offsetsReceiptId := if rules.canOffset then row.rec.offsetsReceiptId else None),
         raw := Some(result), lane := AtRest(row.lane), proposedAt := Some(now), updatedAt := now, items := items)
  }

  function VerifiedRow(row: Row, now: nat, result: ScanResult, allMatch: bool, items: map<nat, Item>): Row {
    row.(rec := row.rec.(merchant := Coalesce(row.rec.merchant, result.merchant),
                         storeNameRaw := Coalesce(row.rec.storeNameRaw, result.storeNameRaw),
                         purchaseDate := Coalesce(row.rec.purchaseDate, DateOf(result))),
         raw := Some(result), lane := AtRest(row.lane), proposedAt := Some(now),
         reviewedAt := if allMatch then Some(now) else row.reviewedAt, updatedAt := now, items := items)
  }

  /** The scanned items a write adds: all of them, except on a reviewed row counted to have items. */
  function WrittenItems(row: Row, result: ScanResult, taxonomy: Taxonomy, counted: nat): seq<ItemInput>
    requires row.reviewedAt.None? ==> Extractable(result.kind)
  {
    if row.reviewedAt.None? then ToItemInputs(result.items, FindKind(result.kind).value, taxonomy)
    else if counted == 0 then ToItemInputs(result.items, row.rec.kind, taxonomy)
    else []
  }

  function WrittenKind(row: Row, result: ScanResult): Kind
    requires row.reviewedAt.None? ==> Extractable(result.kind)
  {
    if row.reviewedAt.None? then FindKind(result.kind).value else row.rec.kind
  }

  /** writeExtraction or writeVerify on the locked row, whichever its review state asks for; `counted`
      is the item count the locking read returned. */
  function WriteResult(db: Db, k: Claim, now: nat, result: ScanResult, taxonomy: Taxonomy, allMatch: bool, counted: nat): Option<Db>
    requires k.rid in db.rows
    requires db.rows[k.rid].reviewedAt.None? ==> Extractable(result.kind)
  {
    var row := db.rows[k.rid];
    var inputs := WrittenItems(row, result, taxonomy, counted);
    var kind := WrittenKind(row, result);
    if !AllAllowed(db, k.user, kind, inputs) then None
    else
      var added := Numbered(inputs, db.nextItem);
      var row' := if row.reviewedAt.None? then ExtractedRow(row, now, kind, result, added)
                  else VerifiedRow(row, now, result, allMatch, row.items + added);
      Some(db.(rows := db.rows[k.rid := row'], nextItem := db.nextItem + |inputs|))
  }

  predicate RowMatches(c: Config, row: Row, result: ScanResult) {
    AllMatch(c, row.rec.totalCents, row.rec.currency, row.rec.purchaseDate, row.rec.merchant, result)
  }

  predicate SnapshotMatches(c: Config, s: Snapshot, result: ScanResult) {
    s.reviewed ==> AllMatch(c, s.totalCents, s.currency, s.purchaseDate, s.merchant, result)
  }

  predicate SameVersion(before: Snapshot, locked: Snapshot) {
    locked.updatedAt == before.updatedAt && locked.reviewed == before.reviewed && locked.itemCount == before.itemCount
  }

  // ---- user transactions ----

  function Begin(db: Db): Db {
    db.(clock := db.clock + 1, open := db.open + {db.clock})
  }

  function Rollback(db: Db, stamp: nat): Db {
    db.(open := db.open - {stamp})
  }

  /** A new row with n new items, and the end of the transaction that inserts it. */
  function PutRow(db: Db, stamp: nat, row: Row, n: nat): Db {
    db.(rows := db.rows[db.nextRow := row], nextRow := db.nextRow + 1, nextItem := db.nextItem + n, open := db.open - {stamp})
  }

  function InsertRow(db: Db, stamp: nat, row: Row, inputs: seq<ItemInput>): Db {
    PutRow(db, stamp, row.(items := Numbered(inputs, db.nextItem)), |inputs|)
  }

  const QUEUED: Lane := Lane(Uploaded, 0, 0, None)

  function UploadReceipt(db: Db, user: nat, stamp: nat, images: seq<string>): Db {
    InsertRow(db, stamp, Row(user, BLANK_RECEIPT, None, QUEUED, None, None, stamp, stamp, images, map[], None), [])
  }

  function AddImages(db: Db, user: nat, rid: nat, images: seq<string>): Option<Db> {
    if !(rid in db.rows && db.rows[rid].owner == user) then None
    else
      var row := db.rows[rid];
      Some(db.(rows := db.rows[rid := row.(images := row.images + images, lane := row.lane.(state := Uploaded))]))
  }

  /** What validateReferences accepts. */
  predicate ReferencesAllowed(db: Db, user: nat, self: Option<nat>, rec: Editable) {
    && (rec.paymentMethodId.Some? ==> rec.paymentMethodId.value in db.methods && db.methods[rec.paymentMethodId.value] == user)
    && (rec.offsetsReceiptId.Some? ==>
          var target := rec.offsetsReceiptId.value;
          && self != Some(target)
          && target in db.rows
          && db.rows[target].owner == user
          && RulesFor(db.rows[target].rec.kind).isOffsetTarget)
  }

  function CreateManual(db: Db, user: nat, stamp: nat, today: Day, body: ManualBody): Option<Db> {
    var parsed := ParseManualEntry(body);
    if parsed.None? then None
    else
      var entry := parsed.value;
      var rec := entry.receipt.(purchaseDate := Coalesce(entry.receipt.purchaseDate, Some(today)));
      if !ReferencesAllowed(db, user, None, rec) || !AllAllowed(db, user, rec.kind, entry.items) then None
      else
        Some(InsertRow(db, stamp,
                       Row(user, rec, AudEquivalentCents(rec.totalCents, rec.fxRateToAud), Lane(Idle, 0, 0, None), None,
                           Some(stamp), stamp, stamp, [], map[], None),
                       entry.items))
  }

  /** Every categorised item of the row sits on the given side. */
  predicate ItemsOnSide(db: Db, row: Row, incomeSide: bool) {
    forall i :: i in row.items && row.items[i].categoryId.Some? && row.items[i].categoryId.value in db.cats ==>
      db.cats[row.items[i].categoryId.value].isIncome == incomeSide
  }

  function EditedRow(row: Row, stamp: nat, rec: Editable, markReviewed: bool): Row {
    row.(rec := rec, audEquivalent := AudEquivalentCents(rec.totalCents, rec.fxRateToAud), updatedAt := stamp,
         reviewedAt := if markReviewed then Some(stamp) else row.reviewedAt)
  }

  function UpdateReceipt(db: Db, user: nat, rid: nat, stamp: nat, patch: ReceiptPatch): Option<Db> {
    if !(rid in db.rows && db.rows[rid].owner == user) then None
    else
      var row := db.rows[rid];
      var edited := ApplyReceiptPatch(row.rec, patch);
      if edited.None? then None
      else
        var (rec, markReviewed) := edited.value;
        var side := RulesFor(rec.kind).usesIncomeCategories;
        if !ReferencesAllowed(db, user, Some(rid), rec) then None
        else if side != RulesFor(row.rec.kind).usesIncomeCategories && !ItemsOnSide(db, row, side) then None
        else Some(db.(rows := db.rows[rid := EditedRow(row, stamp, rec, markReviewed)], open := db.open - {stamp}))
  }

  function RetryScan(db: Db, user: nat, rid: nat, stamp: nat): Option<Db> {
    if !(rid in db.rows && db.rows[rid].owner == user && db.rows[rid].lane.state == ScanFailed) then None
    else
      var row := db.rows[rid];
      Some(db.(rows := db.rows[rid := row.(lane := Lane(Uploaded, 0, 0, row.lane.startedAt), updatedAt := stamp)],
               open := db.open - {stamp}))
  }

  /** ON DELETE SET NULL on offsets_receipt_id. */
  function Unlink(row: Row, target: nat): Row {
    if row.rec.offsetsReceiptId == Some(target) then row.(rec := row.rec.(offsetsReceiptId := None)) else row
  }

  function DeleteReceipt(db: Db, user: nat, rid: nat): Option<Db> {
    if !(rid in db.rows && db.rows[rid].owner == user) then None
    else Some(db.(rows := map r | r in db.rows && r != rid :: Unlink(db.rows[r], rid)))
  }

  function SetItems(db: Db, rid: nat, items: map<nat, Item>, nextItem: nat): Db
    requires rid in db.rows
  {
    db.(rows := db.rows[rid := db.rows[rid].(items := items)], nextItem := nextItem)
  }

  function CreateItem(db: Db, user: nat, rid: nat, input: ItemInput): Option<Db> {
    if !(rid in db.rows && db.rows[rid].owner == user) then None
    else if !ItemAllowed(db, user, db.rows[rid].rec.kind, input) then None
    else Some(SetItems(db, rid, db.rows[rid].items[db.nextItem := Stored(input)], db.nextItem + 1))
  }

  /** The category is checked only when the patch names one, the tags only when it lists them. */
  function UpdateItem(db: Db, user: nat, rid: nat, item: nat, patch: ItemPatch): Option<Db> {
    if !(rid in db.rows && db.rows[rid].owner == user && item in db.rows[rid].items) then None
    else
      var row := db.rows[rid];
      var parsed := ApplyItemPatch(AsInput(row.items[item], []), patch);
      if parsed.None? then None
      else
        var input := parsed.value;
        if patch.categoryId.Given? && !CategoryAllowed(db.cats, user, row.rec.kind, input.categoryId) then None
        else if patch.tagIds.Given? && !TagsAllowed(db.tags, user, input.tagIds) then None
        else
          var tags := if patch.tagIds.Given? then TagSet(input.tagIds) else row.items[item].tags;
          Some(SetItems(db, rid, row.items[item := Stored(input).(tags := tags)], db.nextItem))
  }

  function RemoveItem(db: Db, user: nat, rid: nat, item: nat): Option<Db> {
    if !(rid in db.rows && db.rows[rid].owner == user && item in db.rows[rid].items) then None
    else Some(SetItems(db, rid, db.rows[rid].items - {item}, db.nextItem))
  }

  /** No other category of that owner and side has the name (the unique index, ignoring case). */
  predicate CategoryNameFree(db: Db, self: nat, category: Category) {
    forall q :: q in db.cats && q != self ==>
      !(db.cats[q].owner == category.owner && db.cats[q].isIncome == category.isIncome
        && Lower(db.cats[q].name) == Lower(category.name))
  }

  function CreateCategory(db: Db, category: Category): Option<Db> {
    if !CategoryNameFree(db, db.nextRef, category) then None
    else Some(db.(cats := db.cats[db.nextRef := category], nextRef := db.nextRef + 1))
  }

  /** Some item in this category belongs to a receipt on the other side. */
  predicate FlipClashes(db: Db, id: nat, isIncome: bool) {
    exists r, i :: r in db.rows && i in db.rows[r].items && db.rows[r].items[i].categoryId == Some(id)
                   && RulesFor(db.rows[r].rec.kind).usesIncomeCategories != isIncome
  }

  function UpdateCategory(db: Db, user: nat, id: nat, name: Field<string>, isIncome: Field<bool>): Option<Db> {
    if name.Malformed? || isIncome.Malformed? || !(id in db.cats && db.cats[id].owner == user) then None
    else
      var category := db.cats[id];
      var category' := Category(user, SetIfPresent(name, category.name), SetIfPresent(isIncome, category.isIncome));
      if category'.isIncome != category.isIncome && FlipClashes(db, id, category'.isIncome) then None
      else if !CategoryNameFree(db, id, category') then None
      else Some(db.(cats := db.cats[id := category']))
  }

  function Uncategorise(row: Row, id: nat): Row {
    row.(items := map i | i in row.items ::
      if row.items[i].categoryId == Some(id) then row.items[i].(categoryId := None) else row.items[i])
  }

  function RemoveCategory(db: Db, user: nat, id: nat): Option<Db> {
    if !(id in db.cats && db.cats[id].owner == user) then None
    else Some(db.(cats := db.cats - {id}, rows := map r | r in db.rows :: Uncategorise(db.rows[r], id)))
  }

  predicate TagNameFree(db: Db, self: nat, tag: Tag) {
    forall q :: q in db.tags && q != self ==>
      !(db.tags[q].owner == tag.owner && Lower(db.tags[q].name) == Lower(tag.name))
  }

  function CreateTag(db: Db, tag: Tag): Option<Db> {
    if !TagNameFree(db, db.nextRef, tag) then None
    else Some(db.(tags := db.tags[db.nextRef := tag], nextRef := db.nextRef + 1))
  }

  function Untag(row: Row, id: nat): Row {
    row.(items := map i | i in row.items :: row.items[i].(tags := row.items[i].tags - {id}))
  }

  function RemoveTag(db: Db, user: nat, id: nat): Option<Db> {
    if !(id in db.tags && db.tags[id].owner == user) then None
    else Some(db.(tags := db.tags - {id}, rows := map r | r in db.rows :: Untag(db.rows[r], id)))
  }

  function CreateMethod(db: Db, user: nat): Db {
    db.(methods := db.methods[db.nextRef := user], nextRef := db.nextRef + 1)
  }

  /** ON DELETE SET NULL on payment_method_id. */
  function Unpay(row: Row, id: nat): Row {
    if row.rec.paymentMethodId == Some(id) then row.(rec := row.rec.(paymentMethodId := None)) else row
  }

  function RemoveMethod(db: Db, user: nat, id: nat): Option<Db> {
    if !(id in db.methods && db.methods[id] == user) then None
    else Some(db.(methods := db.methods - {id}, rows := map r | r in db.rows :: Unpay(db.rows[r], id)))
  }
}
