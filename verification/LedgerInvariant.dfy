/** What every committed transaction keeps true of the tables, and what it guarantees to a scan that
    is in flight meanwhile. */
module LedgerInvariant {
  import opened Basics
  import opened Kinds
  import opened LedgerInput
  import opened ScanTypes
  import opened Tables

  predicate Before(stamp: Option<nat>, clock: nat) {
    stamp.Some? ==> stamp.value < clock
  }

  /** Times in a row are past readings, its version is not one an open transaction could still
      write, and a scanning row says since when. */
  ghost predicate RowStamps(db: Db, row: Row) {
    && row.updatedAt < db.clock && row.updatedAt !in db.open
    && Before(row.proposedAt, db.clock) && Before(row.reviewedAt, db.clock) && Before(row.lane.startedAt, db.clock)
    && (row.lane.state == Scanning ==> row.lane.startedAt.Some?)
    && (forall i :: i in row.items ==> i < db.nextItem)
  }

  /** The schema's CHECK constraints, and an offset only on the kinds that may have one. */
  predicate RowSchema(row: Row) {
    && ChkDirectionByKind(row.rec.kind, row.rec.direction)
    && ChkTaxDeductible(row.rec.kind, row.rec.taxDeductible)
    && (row.rec.offsetsReceiptId.Some? ==> row.rec.kind in {Refund, Reimbursement})
    && row.rec.totalCents >= 0
  }

  /** The item's category is the owner's and on the kind's side; its tags are the owner's. */
  ghost predicate ItemFits(db: Db, owner: nat, kind: Kind, item: Item) {
    && CategoryAllowed(db.cats, owner, kind, item.categoryId)
    && forall t :: t in item.tags ==> t in db.tags && db.tags[t].owner == owner
  }

  ghost predicate ItemsFit(db: Db, owner: nat, kind: Kind, items: map<nat, Item>) {
    forall i :: i in items ==> ItemFits(db, owner, kind, items[i])
  }

  ghost predicate RowFits(db: Db, row: Row) {
    ItemsFit(db, row.owner, row.rec.kind, row.items)
  }

  predicate MethodOwned(db: Db, row: Row) {
    row.rec.paymentMethodId.Some? ==>
      row.rec.paymentMethodId.value in db.methods && db.methods[row.rec.paymentMethodId.value] == row.owner
  }

  /** The payment method is the owner's, and an offset points at another existing receipt of theirs. */
  predicate ReferencesOwned(db: Db, r: nat, row: Row) {
    && MethodOwned(db, row)
    && (row.rec.offsetsReceiptId.Some? ==>
          var target := row.rec.offsetsReceiptId.value;
          target != r && target in db.rows && db.rows[target].owner == row.owner)
  }

  ghost predicate RowOk(db: Db, r: nat, row: Row) {
    RowStamps(db, row) && RowSchema(row) && RowFits(db, row) && ReferencesOwned(db, r, row)
  }

  ghost predicate NamesUnique(db: Db) {
    && (forall q :: q in db.cats ==> CategoryNameFree(db, q, db.cats[q]))
    && (forall q :: q in db.tags ==> TagNameFree(db, q, db.tags[q]))
  }

  ghost predicate DbOk(db: Db) {
    && (forall s :: s in db.open ==> s < db.clock)
    && (forall r :: r in db.rows ==> r < db.nextRow)
    && (forall q :: q in db.cats ==> q < db.nextRef)
    && (forall q :: q in db.tags ==> q < db.nextRef)
    && (forall q :: q in db.methods ==> q < db.nextRef)
    && NamesUnique(db)
    && (forall r :: r in db.rows ==> RowOk(db, r, db.rows[r]))
  }

  // ---- what one transaction does to the row of a claim held by someone else ----

  /** The fields the verify comparison reads. */
  predicate SameCompared(a: Row, b: Row) {
    && a.rec.kind == b.rec.kind && a.rec.totalCents == b.rec.totalCents && a.rec.currency == b.rec.currency
    && a.rec.merchant == b.rec.merchant && a.rec.purchaseDate == b.rec.purchaseDate
    && a.reviewedAt == b.reviewedAt
  }

  /** From `row` to `row'`: a review is never undone, and a claim that still holds has seen no new
      image, and no change to a compared field without a version nobody has seen before. */
  ghost predicate RowRely(db: Db, row: Row, row': Row) {
    && row'.owner == row.owner
    && (row.reviewedAt.Some? ==> row'.reviewedAt.Some?)
    && (row'.lane.state == Scanning && row'.lane.startedAt.Some? && row'.lane.startedAt.value < db.clock ==>
          && row.lane.state == Scanning && row.lane.startedAt == row'.lane.startedAt
          && row.images == row'.images
          && (if row'.updatedAt == row.updatedAt then SameCompared(row, row')
              else row'.updatedAt in db.open || row'.updatedAt >= db.clock))
  }

  /** The guarantee of every step, and so what an in-flight scan may rely on. */
  ghost predicate Rely(db: Db, db': Db) {
    && db.clock <= db'.clock
    && db.nextRow <= db'.nextRow
    && (forall s :: s in db'.open ==> s in db.open || s >= db.clock)
    && (forall r :: r in db'.rows && r < db.nextRow ==> r in db.rows && RowRely(db, db.rows[r], db'.rows[r]))
  }

  lemma RelyReflexive(db: Db)
    requires DbOk(db)
    ensures Rely(db, db)
  {
  }

  /** Versions are never reused, so the guarantee composes over any number of steps. */
  lemma RelyTransitive(a: Db, b: Db, c: Db)
    requires DbOk(a) && Rely(a, b) && Rely(b, c)
    ensures Rely(a, c)
  {
    forall r | r in c.rows && r < a.nextRow ensures r in a.rows && RowRely(a, a.rows[r], c.rows[r]) {
      assert RowRely(b, b.rows[r], c.rows[r]);
      assert RowRely(a, a.rows[r], b.rows[r]);
      assert RowOk(a, r, a.rows[r]);
    }
  }

  // ---- single-row transactions ----

  /** db' is db with row r replaced; nothing else but counters moved. */
  ghost predicate OneRowChanged(db: Db, db': Db, r: nat) {
    && r in db.rows && r in db'.rows
    && db'.rows == db.rows[r := db'.rows[r]]
    && db'.cats == db.cats && db'.tags == db.tags && db'.methods == db.methods && db'.nextRef == db.nextRef && db'.nextRow == db.nextRow
    && db.nextItem <= db'.nextItem && db.clock <= db'.clock && db'.open <= db.open
    && db'.rows[r].owner == db.rows[r].owner
  }

  /** A row stays valid when the reference tables stay, counters move forward and what it refers to is
      still there. */
  lemma RowOkFrame(db: Db, db': Db, r: nat, row: Row)
    requires RowOk(db, r, row) && ReferencesOwned(db', r, row)
    requires db'.cats == db.cats && db'.tags == db.tags
    requires db.nextItem <= db'.nextItem && db.clock <= db'.clock && db'.open <= db.open
    ensures RowOk(db', r, row)
  {
    SameTablesFit(db, db', row.owner, row.rec.kind, row.rec.kind, row.items);
  }

  lemma OneRowKeepsOk(db: Db, db': Db, r: nat)
    requires DbOk(db) && OneRowChanged(db, db', r) && RowOk(db', r, db'.rows[r])
    ensures DbOk(db')
  {
    forall q | q in db'.rows ensures RowOk(db', q, db'.rows[q]) {
      if q != r {
        assert RowOk(db, q, db.rows[q]);
        RowOkFrame(db, db', q, db.rows[q]);
      }
    }
  }

  lemma OneRowRely(db: Db, db': Db, r: nat)
    requires DbOk(db) && OneRowChanged(db, db', r) && RowRely(db, db.rows[r], db'.rows[r])
    ensures Rely(db, db')
  {
  }

  lemma AllowedItemsFit(db: Db, owner: nat, kind: Kind, inputs: seq<ItemInput>, next: nat)
    requires AllAllowed(db, owner, kind, inputs)
    ensures ItemsFit(db, owner, kind, Numbered(inputs, next))
  {
    var items := Numbered(inputs, next);
    forall i | i in items ensures ItemFits(db, owner, kind, items[i]) {
      assert ItemAllowed(db, owner, kind, inputs[i - next]);
      StoredFits(db, owner, kind, inputs[i - next]);
    }
  }

  lemma StoredFits(db: Db, owner: nat, kind: Kind, input: ItemInput)
    requires ItemAllowed(db, owner, kind, input)
    ensures ItemFits(db, owner, kind, Stored(input))
  {
  }

  lemma SameTablesFit(db: Db, db': Db, owner: nat, kind: Kind, kind': Kind, items: map<nat, Item>)
    requires db.cats == db'.cats && db.tags == db'.tags
    requires RulesFor(kind).usesIncomeCategories == RulesFor(kind').usesIncomeCategories
    requires ItemsFit(db, owner, kind, items)
    ensures ItemsFit(db', owner, kind', items)
  {
    forall i | i in items ensures ItemFits(db', owner, kind', items[i]) {
      assert ItemFits(db, owner, kind, items[i]);
    }
  }

  lemma ValidPatchKeepsSchema(r: Editable, p: ReceiptPatch)
    requires r.totalCents >= 0 && ApplyReceiptPatch(r, p).Some?
    ensures var rec := ApplyReceiptPatch(r, p).value.0;
      && ChkDirectionByKind(rec.kind, rec.direction) && ChkTaxDeductible(rec.kind, rec.taxDeductible)
      && (rec.offsetsReceiptId.Some? ==> rec.kind in {Refund, Reimbursement}) && rec.totalCents >= 0
  {
  }

  lemma UpdateReceiptKeeps(db: Db, user: nat, rid: nat, stamp: nat, patch: ReceiptPatch)
    requires DbOk(db) && stamp in db.open && UpdateReceipt(db, user, rid, stamp, patch).Some?
    ensures DbOk(UpdateReceipt(db, user, rid, stamp, patch).value)
    ensures Rely(db, UpdateReceipt(db, user, rid, stamp, patch).value)
  {
    var db' := UpdateReceipt(db, user, rid, stamp, patch).value;
    var row, row' := db.rows[rid], db'.rows[rid];
    assert RowOk(db, rid, row);
    ValidPatchKeepsSchema(row.rec, patch);
    forall i | i in row'.items ensures ItemFits(db', row'.owner, row'.rec.kind, row'.items[i]) {
      assert ItemFits(db, row.owner, row.rec.kind, row.items[i]);
    }
    OneRowKeepsOk(db, db', rid);
    OneRowRely(db, db', rid);
  }

  lemma RetryScanKeeps(db: Db, user: nat, rid: nat, stamp: nat)
    requires DbOk(db) && stamp in db.open && RetryScan(db, user, rid, stamp).Some?
    ensures DbOk(RetryScan(db, user, rid, stamp).value) && Rely(db, RetryScan(db, user, rid, stamp).value)
  {
    var db' := RetryScan(db, user, rid, stamp).value;
    assert RowOk(db, rid, db.rows[rid]);
    SameTablesFit(db, db', db.rows[rid].owner, db.rows[rid].rec.kind, db.rows[rid].rec.kind, db.rows[rid].items);
    OneRowKeepsOk(db, db', rid);
    OneRowRely(db, db', rid);
  }

  lemma AddImagesKeeps(db: Db, user: nat, rid: nat, images: seq<string>)
    requires DbOk(db) && AddImages(db, user, rid, images).Some?
    ensures DbOk(AddImages(db, user, rid, images).value) && Rely(db, AddImages(db, user, rid, images).value)
  {
    var db' := AddImages(db, user, rid, images).value;
    assert RowOk(db, rid, db.rows[rid]);
    SameTablesFit(db, db', db.rows[rid].owner, db.rows[rid].rec.kind, db.rows[rid].rec.kind, db.rows[rid].items);
    OneRowKeepsOk(db, db', rid);
    OneRowRely(db, db', rid);
  }

  lemma RecordFailureKeeps(c: Config, db: Db, k: Claim, scanError: bool, terminal: bool)
    requires DbOk(db)
    ensures DbOk(RecordFailure(c, db, k, scanError, terminal)) && Rely(db, RecordFailure(c, db, k, scanError, terminal))
  {
    if ClaimHolds(db, k) {
      var db' := RecordFailure(c, db, k, scanError, terminal);
      assert RowOk(db, k.rid, db.rows[k.rid]);
      SameTablesFit(db, db', db.rows[k.rid].owner, db.rows[k.rid].rec.kind, db.rows[k.rid].rec.kind, db.rows[k.rid].items);
      OneRowKeepsOk(db, db', k.rid);
      OneRowRely(db, db', k.rid);
    }
  }

  /** What a scan write needs of the claimed row, its clock reading and the result. */
  ghost predicate Writable(db: Db, k: Claim, now: nat, result: ScanResult) {
    && DbOk(db) && ClaimHolds(db, k) && db.rows[k.rid].owner == k.user
    && now < db.clock && now !in db.open
    && result.totalCents >= 0
    && (db.rows[k.rid].reviewedAt.None? ==> Extractable(result.kind))
  }

  lemma WrittenItemsFit(db: Db, k: Claim, now: nat, result: ScanResult, taxonomy: Taxonomy, counted: nat)
    requires Writable(db, k, now, result)
    requires AllAllowed(db, k.user, WrittenKind(db.rows[k.rid], result), WrittenItems(db.rows[k.rid], result, taxonomy, counted))
    ensures ItemsFit(db, k.user, WrittenKind(db.rows[k.rid], result),
                     Numbered(WrittenItems(db.rows[k.rid], result, taxonomy, counted), db.nextItem))
    ensures db.rows[k.rid].reviewedAt.Some? ==>
              ItemsFit(db, k.user, WrittenKind(db.rows[k.rid], result), db.rows[k.rid].items)
  {
    var row := db.rows[k.rid];
    assert RowOk(db, k.rid, row);
    AllowedItemsFit(db, k.user, WrittenKind(row, result), WrittenItems(row, result, taxonomy, counted), db.nextItem);
  }

  lemma WrittenSchema(row: Row, result: ScanResult, row': Row)
    requires RowSchema(row) && result.totalCents >= 0 && (row.reviewedAt.None? ==> Extractable(result.kind))
    requires if row.reviewedAt.None?
             then exists now, items :: row' == ExtractedRow(row, now, FindKind(result.kind).value, result, items)
             else exists now, allMatch, items :: row' == VerifiedRow(row, now, result, allMatch, items)
    ensures RowSchema(row')
  {
    SchemaAgreesWithTable(row'.rec.kind, row'.rec.direction, row'.rec.taxDeductible);
  }

  lemma WriteTables(db: Db, k: Claim, now: nat, result: ScanResult, taxonomy: Taxonomy, allMatch: bool, counted: nat)
    requires k.rid in db.rows && (db.rows[k.rid].reviewedAt.None? ==> Extractable(result.kind))
    requires WriteResult(db, k, now, result, taxonomy, allMatch, counted).Some?
    ensures var db' := WriteResult(db, k, now, result, taxonomy, allMatch, counted).value;
      && OneRowChanged(db, db', k.rid)
      && db' == db.(rows := db'.rows, nextItem := db'.nextItem)
  {
  }

  /** What a scan write leaves in the row, beside its fields. */
  lemma WriteRow(db: Db, k: Claim, now: nat, result: ScanResult, taxonomy: Taxonomy, allMatch: bool, counted: nat)
    requires k.rid in db.rows && (db.rows[k.rid].reviewedAt.None? ==> Extractable(result.kind))
    requires WriteResult(db, k, now, result, taxonomy, allMatch, counted).Some?
    ensures var db' := WriteResult(db, k, now, result, taxonomy, allMatch, counted).value;
      var row, row' := db.rows[k.rid], db'.rows[k.rid];
      && row'.lane == AtRest(row.lane) && row'.updatedAt == now && row'.proposedAt == Some(now)
      && row'.reviewedAt in {row.reviewedAt, Some(now)} && (row.reviewedAt.Some? ==> row'.reviewedAt.Some?)
      && row'.rec.offsetsReceiptId in {row.rec.offsetsReceiptId, None} && row'.rec.paymentMethodId == row.rec.paymentMethodId
      && forall i :: i in row'.items ==> i in row.items || i < db'.nextItem
  {
  }

  lemma WriteShape(db: Db, k: Claim, now: nat, result: ScanResult, taxonomy: Taxonomy, allMatch: bool, counted: nat)
    requires Writable(db, k, now, result)
    requires WriteResult(db, k, now, result, taxonomy, allMatch, counted).Some?
    ensures var db' := WriteResult(db, k, now, result, taxonomy, allMatch, counted).value;
      && OneRowChanged(db, db', k.rid)
      && db'.clock == db.clock && db'.open == db.open
      && RowStamps(db', db'.rows[k.rid])
      && ReferencesOwned(db', k.rid, db'.rows[k.rid])
      && RowRely(db, db.rows[k.rid], db'.rows[k.rid])
  {
    WriteTables(db, k, now, result, taxonomy, allMatch, counted);
    WriteRow(db, k, now, result, taxonomy, allMatch, counted);
    WrittenRowSound(db, k, now, WriteResult(db, k, now, result, taxonomy, allMatch, counted).value);
  }

  lemma WrittenRowSound(db: Db, k: Claim, now: nat, db': Db)
    requires DbOk(db) && ClaimHolds(db, k) && now < db.clock && now !in db.open
    requires OneRowChanged(db, db', k.rid) && db' == db.(rows := db'.rows, nextItem := db'.nextItem)
    requires var row, row' := db.rows[k.rid], db'.rows[k.rid];
      && row'.lane == AtRest(row.lane) && row'.updatedAt == now && row'.proposedAt == Some(now)
      && row'.reviewedAt in {row.reviewedAt, Some(now)} && (row.reviewedAt.Some? ==> row'.reviewedAt.Some?)
      && row'.rec.offsetsReceiptId in {row.rec.offsetsReceiptId, None} && row'.rec.paymentMethodId == row.rec.paymentMethodId
      && forall i :: i in row'.items ==> i in row.items || i < db'.nextItem
    ensures RowStamps(db', db'.rows[k.rid])
    ensures ReferencesOwned(db', k.rid, db'.rows[k.rid])
    ensures RowRely(db, db.rows[k.rid], db'.rows[k.rid])
  {
    assert RowOk(db, k.rid, db.rows[k.rid]);
  }

  /** A scan write keeps the tables valid even though it bypasses ValidReceipt: the kind it writes has
      a fixed direction, and tax and offset are cleared where that kind forbids them. */
  lemma WriteResultKeeps(db: Db, k: Claim, now: nat, result: ScanResult, taxonomy: Taxonomy, allMatch: bool, counted: nat)
    requires Writable(db, k, now, result)
    requires WriteResult(db, k, now, result, taxonomy, allMatch, counted).Some?
    ensures DbOk(WriteResult(db, k, now, result, taxonomy, allMatch, counted).value)
    ensures Rely(db, WriteResult(db, k, now, result, taxonomy, allMatch, counted).value)
  {
    var db' := WriteResult(db, k, now, result, taxonomy, allMatch, counted).value;
    var row, row' := db.rows[k.rid], db'.rows[k.rid];
    var added := Numbered(WrittenItems(row, result, taxonomy, counted), db.nextItem);
    WrittenItemsFit(db, k, now, result, taxonomy, counted);
    WriteShape(db, k, now, result, taxonomy, allMatch, counted);
    assert RowSchema(row') by {
      assert RowOk(db, k.rid, row);
      if row.reviewedAt.None? {
        assert row' == ExtractedRow(row, now, FindKind(result.kind).value, result, added);
      } else {
        assert row' == VerifiedRow(row, now, result, allMatch, row.items + added);
      }
      WrittenSchema(row, result, row');
    }
    assert RowFits(db', row') by {
      forall i | i in row'.items ensures ItemFits(db', row'.owner, row'.rec.kind, row'.items[i]) {
        if i in added {
          assert ItemFits(db, k.user, WrittenKind(row, result), added[i]);
        } else {
          assert ItemFits(db, k.user, WrittenKind(row, result), row.items[i]);
        }
      }
    }
    OneRowKeepsOk(db, db', k.rid);
    OneRowRely(db, db', k.rid);
  }

  lemma SetItemsKeeps(db: Db, rid: nat, items: map<nat, Item>, nextItem: nat)
    requires DbOk(db) && rid in db.rows && db.nextItem <= nextItem
    requires ItemsFit(db, db.rows[rid].owner, db.rows[rid].rec.kind, items)
    requires forall i :: i in items ==> i < nextItem
    ensures DbOk(SetItems(db, rid, items, nextItem)) && Rely(db, SetItems(db, rid, items, nextItem))
  {
    var db' := SetItems(db, rid, items, nextItem);
    assert RowOk(db, rid, db.rows[rid]);
    SameTablesFit(db, db', db.rows[rid].owner, db.rows[rid].rec.kind, db.rows[rid].rec.kind, items);
    OneRowKeepsOk(db, db', rid);
    OneRowRely(db, db', rid);
  }

  lemma PutItemFits(db: Db, owner: nat, kind: Kind, items: map<nat, Item>, id: nat, item: Item)
    requires ItemsFit(db, owner, kind, items) && ItemFits(db, owner, kind, item)
    ensures ItemsFit(db, owner, kind, items[id := item])
  {
  }

  lemma AddItemKeeps(db: Db, rid: nat, item: Item)
    requires DbOk(db) && rid in db.rows && ItemFits(db, db.rows[rid].owner, db.rows[rid].rec.kind, item)
    ensures var db' := SetItems(db, rid, db.rows[rid].items[db.nextItem := item], db.nextItem + 1);
      DbOk(db') && Rely(db, db')
  {
    var row := db.rows[rid];
    assert RowOk(db, rid, row);
    PutItemFits(db, row.owner, row.rec.kind, row.items, db.nextItem, item);
    SetItemsKeeps(db, rid, row.items[db.nextItem := item], db.nextItem + 1);
  }

  lemma AllowedItemKeeps(db: Db, user: nat, rid: nat, input: ItemInput)
    requires DbOk(db) && rid in db.rows && db.rows[rid].owner == user
    requires ItemAllowed(db, user, db.rows[rid].rec.kind, input)
    ensures var db' := SetItems(db, rid, db.rows[rid].items[db.nextItem := Stored(input)], db.nextItem + 1);
      DbOk(db') && Rely(db, db')
  {
    StoredFits(db, user, db.rows[rid].rec.kind, input);
    AddItemKeeps(db, rid, Stored(input));
  }

  lemma CreateItemShape(db: Db, user: nat, rid: nat, input: ItemInput)
    requires CreateItem(db, user, rid, input).Some?
    ensures rid in db.rows && db.rows[rid].owner == user && ItemAllowed(db, user, db.rows[rid].rec.kind, input)
    ensures CreateItem(db, user, rid, input)
         == Some(SetItems(db, rid, db.rows[rid].items[db.nextItem := Stored(input)], db.nextItem + 1))
  {
  }

  lemma CreateItemKeeps(db: Db, user: nat, rid: nat, input: ItemInput, db': Db)
    requires DbOk(db) && CreateItem(db, user, rid, input) == Some(db')
    ensures DbOk(db') && Rely(db, db')
  {
    CreateItemShape(db, user, rid, input);
    AllowedItemKeeps(db, user, rid, input);
  }

  /** An edit that leaves the category key out re-writes the stored category unchecked, and that is
      safe: it still fits. */
  lemma UpdateItemKeeps(db: Db, user: nat, rid: nat, item: nat, patch: ItemPatch)
    requires DbOk(db) && UpdateItem(db, user, rid, item, patch).Some?
    ensures DbOk(UpdateItem(db, user, rid, item, patch).value) && Rely(db, UpdateItem(db, user, rid, item, patch).value)
  {
    var row := db.rows[rid];
    assert RowOk(db, rid, row);
    assert ItemFits(db, row.owner, row.rec.kind, row.items[item]);
    var edited := UpdateItem(db, user, rid, item, patch).value.rows[rid].items[item];
    assert ItemFits(db, row.owner, row.rec.kind, edited);
    PutItemFits(db, row.owner, row.rec.kind, row.items, item, edited);
    SetItemsKeeps(db, rid, row.items[item := edited], db.nextItem);
  }

  lemma RemoveItemKeeps(db: Db, user: nat, rid: nat, item: nat)
    requires DbOk(db) && RemoveItem(db, user, rid, item).Some?
    ensures DbOk(RemoveItem(db, user, rid, item).value) && Rely(db, RemoveItem(db, user, rid, item).value)
  {
    assert RowOk(db, rid, db.rows[rid]);
    SetItemsKeeps(db, rid, db.rows[rid].items - {item}, db.nextItem);
  }

  // ---- transactions on several rows ----

  /** Only scan columns changed, and no claim was created that an earlier clock reading could name. */
  ghost predicate OnlyLanesChanged(db: Db, db': Db) {
    && db'.rows.Keys == db.rows.Keys && db.clock <= db'.clock
    && db' == db.(rows := db'.rows, clock := db'.clock)
    && forall r :: r in db.rows ==>
         var row, row' := db.rows[r], db'.rows[r];
         && row' == row.(lane := row'.lane)
         && Before(row'.lane.startedAt, db'.clock)
         && (row'.lane.state == Scanning ==>
               row'.lane.startedAt.Some? && (row'.lane == row.lane || row'.lane.startedAt.value >= db.clock))
  }

  lemma LanesKeep(db: Db, db': Db)
    requires DbOk(db) && OnlyLanesChanged(db, db')
    ensures DbOk(db') && Rely(db, db')
  {
    forall r | r in db'.rows ensures RowOk(db', r, db'.rows[r]) && RowRely(db, db.rows[r], db'.rows[r]) {
      assert RowOk(db, r, db.rows[r]);
      SameTablesFit(db, db', db.rows[r].owner, db.rows[r].rec.kind, db.rows[r].rec.kind, db.rows[r].items);
    }
  }

  lemma ReclaimStuckKeeps(c: Config, db: Db, now: nat)
    requires DbOk(db)
    ensures DbOk(ReclaimStuck(c, db, now)) && Rely(db, ReclaimStuck(c, db, now))
  {
    forall r | r in db.rows ensures RowOk(db, r, db.rows[r]) {}
    LanesKeep(db, ReclaimStuck(c, db, now));
  }

  lemma TakeRowsKeeps(db: Db, tokens: map<nat, nat>, clock: nat)
    requires DbOk(db) && db.clock <= clock
    requires forall r :: r in tokens ==> db.clock <= tokens[r] < clock
    ensures DbOk(TakeRows(db, tokens, clock)) && Rely(db, TakeRows(db, tokens, clock))
  {
    forall r | r in db.rows ensures RowOk(db, r, db.rows[r]) {}
    LanesKeep(db, TakeRows(db, tokens, clock));
  }

  /** A row that may be inserted: stamped by an open transaction, at rest or queued, valid on its own. */
  ghost predicate Insertable(db: Db, stamp: nat, row: Row) {
    && stamp in db.open && row.updatedAt == stamp
    && row.lane.state != Scanning && row.lane.startedAt.None?
    && row.proposedAt.None? && row.reviewedAt in {None, Some(stamp)}
    && RowSchema(row)
    && MethodOwned(db, row)
    && (row.rec.offsetsReceiptId.Some? ==>
          row.rec.offsetsReceiptId.value in db.rows && db.rows[row.rec.offsetsReceiptId.value].owner == row.owner)
  }

  lemma InsertedRowOk(db: Db, stamp: nat, row: Row, inputs: seq<ItemInput>, db': Db)
    requires DbOk(db) && Insertable(db, stamp, row) && AllAllowed(db, row.owner, row.rec.kind, inputs)
    requires db' == InsertRow(db, stamp, row, inputs)
    ensures RowOk(db', db.nextRow, db'.rows[db.nextRow])
  {
    AllowedItemsFit(db, row.owner, row.rec.kind, inputs, db.nextItem);
    SameTablesFit(db, db', row.owner, row.rec.kind, row.rec.kind, Numbered(inputs, db.nextItem));
  }

  lemma InsertRowKeeps(db: Db, stamp: nat, row: Row, inputs: seq<ItemInput>)
    requires DbOk(db) && Insertable(db, stamp, row) && AllAllowed(db, row.owner, row.rec.kind, inputs)
    ensures DbOk(InsertRow(db, stamp, row, inputs)) && Rely(db, InsertRow(db, stamp, row, inputs))
  {
    var db' := InsertRow(db, stamp, row, inputs);
    InsertedRowOk(db, stamp, row, inputs, db');
    RowAddedKeeps(db, db', db.nextRow);
  }

  /** One new, valid row under a new id. */
  lemma RowAddedKeeps(db: Db, db': Db, r: nat)
    requires DbOk(db) && r == db.nextRow && r in db'.rows && db'.rows == db.rows[r := db'.rows[r]]
    requires db' == db.(rows := db'.rows, nextRow := r + 1, nextItem := db'.nextItem, open := db'.open)
    requires db.nextItem <= db'.nextItem && db'.open <= db.open
    requires RowOk(db', r, db'.rows[r])
    ensures DbOk(db') && Rely(db, db')
  {
    forall q | q in db.rows ensures RowOk(db', q, db'.rows[q]) {
      assert RowOk(db, q, db.rows[q]);
      RowOkFrame(db, db', q, db.rows[q]);
    }
    NamesStay(db, db');
  }

  lemma NamesStay(db: Db, db': Db)
    requires NamesUnique(db) && db'.cats == db.cats && db'.tags == db.tags
    ensures NamesUnique(db')
  {
    forall q | q in db'.cats ensures CategoryNameFree(db', q, db'.cats[q]) {
      assert CategoryNameFree(db, q, db.cats[q]);
    }
    forall q | q in db'.tags ensures TagNameFree(db', q, db'.tags[q]) {
      assert TagNameFree(db, q, db.tags[q]);
    }
  }

  lemma UploadReceiptKeeps(db: Db, user: nat, stamp: nat, images: seq<string>)
    requires DbOk(db) && stamp in db.open
    ensures DbOk(UploadReceipt(db, user, stamp, images)) && Rely(db, UploadReceipt(db, user, stamp, images))
  {
    InsertRowKeeps(db, stamp, Row(user, BLANK_RECEIPT, None, QUEUED, None, None, stamp, stamp, images, map[], None), []);
  }

  lemma CreateManualKeeps(db: Db, user: nat, stamp: nat, today: Day, body: ManualBody)
    requires DbOk(db) && stamp in db.open && CreateManual(db, user, stamp, today, body).Some?
    ensures DbOk(CreateManual(db, user, stamp, today, body).value)
    ensures Rely(db, CreateManual(db, user, stamp, today, body).value)
  {
    var entry := ParseManualEntry(body).value;
    var rec := entry.receipt.(purchaseDate := Coalesce(entry.receipt.purchaseDate, Some(today)));
    var row := Row(user, rec, AudEquivalentCents(rec.totalCents, rec.fxRateToAud), Lane(Idle, 0, 0, None), None,
                   Some(stamp), stamp, stamp, [], map[], None);
    assert RowSchema(row);
    InsertRowKeeps(db, stamp, row, entry.items);
  }

  lemma UnlinkedRowOk(db: Db, r: nat, target: nat)
    requires DbOk(db) && r in db.rows
    ensures RowOk(db, r, Unlink(db.rows[r], target)) && RowRely(db, db.rows[r], Unlink(db.rows[r], target))
  {
    var row := db.rows[r];
    assert RowOk(db, r, row);
    SameTablesFit(db, db, row.owner, row.rec.kind, row.rec.kind, row.items);
  }

  lemma DeleteReceiptKeeps(db: Db, user: nat, rid: nat)
    requires DbOk(db) && DeleteReceipt(db, user, rid).Some?
    ensures DbOk(DeleteReceipt(db, user, rid).value) && Rely(db, DeleteReceipt(db, user, rid).value)
  {
    var db' := DeleteReceipt(db, user, rid).value;
    forall r | r in db'.rows ensures RowOk(db', r, db'.rows[r]) {
      UnlinkedRowOk(db, r, rid);
      RowOkFrame(db, db', r, db'.rows[r]);
    }
    assert NamesUnique(db');
    forall r | r in db'.rows ensures RowRely(db, db.rows[r], db'.rows[r]) {
      UnlinkedRowOk(db, r, rid);
    }
  }

  /** Rows keep everything but their items' categories and tags, each of which stays or goes. */
  lemma ItemsRewritten(db: Db, db': Db)
    requires DbOk(db) && db'.rows.Keys == db.rows.Keys
    requires db' == db.(rows := db'.rows, cats := db'.cats, tags := db'.tags, nextRef := db'.nextRef)
    requires db.nextRef <= db'.nextRef && forall q :: q in db'.cats ==> q < db'.nextRef
    requires forall q :: q in db'.tags ==> q < db'.nextRef
    requires NamesUnique(db')
    requires forall r :: r in db.rows ==>
      && db'.rows[r] == db.rows[r].(items := db'.rows[r].items) && db'.rows[r].items.Keys == db.rows[r].items.Keys
      && RowFits(db', db'.rows[r])
    ensures DbOk(db') && Rely(db, db')
  {
    forall r | r in db'.rows ensures RowOk(db', r, db'.rows[r]) {
      assert RowOk(db, r, db.rows[r]);
    }
  }

  /** The clash query is exactly what keeps a flip from stranding an item on the wrong side. */
  lemma UpdateCategoryKeeps(db: Db, user: nat, id: nat, name: Field<string>, isIncome: Field<bool>)
    requires DbOk(db) && UpdateCategory(db, user, id, name, isIncome).Some?
    ensures DbOk(UpdateCategory(db, user, id, name, isIncome).value)
    ensures Rely(db, UpdateCategory(db, user, id, name, isIncome).value)
  {
    var db' := UpdateCategory(db, user, id, name, isIncome).value;
    forall r | r in db.rows ensures RowFits(db', db.rows[r]) {
      var row := db.rows[r];
      assert RowOk(db, r, row);
      forall i | i in row.items ensures ItemFits(db', row.owner, row.rec.kind, row.items[i]) {
        assert ItemFits(db, row.owner, row.rec.kind, row.items[i]);
      }
    }
    forall q | q in db'.cats ensures CategoryNameFree(db', q, db'.cats[q]) {
      assert CategoryNameFree(db, q, db.cats[q]);
      assert CategoryNameFree(db, id, db'.cats[id]);
    }
    forall q | q in db'.tags ensures TagNameFree(db', q, db'.tags[q]) {
      assert TagNameFree(db, q, db.tags[q]);
    }
    ItemsRewritten(db, db');
  }

  lemma CreateCategoryKeeps(db: Db, category: Category)
    requires DbOk(db) && CreateCategory(db, category).Some?
    ensures DbOk(CreateCategory(db, category).value) && Rely(db, CreateCategory(db, category).value)
  {
    var db' := CreateCategory(db, category).value;
    forall r | r in db.rows ensures RowFits(db', db.rows[r]) {
      var row := db.rows[r];
      assert RowOk(db, r, row);
      forall i | i in row.items ensures ItemFits(db', row.owner, row.rec.kind, row.items[i]) {
        assert ItemFits(db, row.owner, row.rec.kind, row.items[i]);
      }
    }
    forall q | q in db'.cats ensures CategoryNameFree(db', q, db'.cats[q]) {
      if q != db.nextRef { assert CategoryNameFree(db, q, db.cats[q]); }
    }
    forall q | q in db'.tags ensures TagNameFree(db', q, db'.tags[q]) {
      assert TagNameFree(db, q, db.tags[q]);
    }
    ItemsRewritten(db, db');
  }

  lemma RemoveCategoryKeeps(db: Db, user: nat, id: nat)
    requires DbOk(db) && RemoveCategory(db, user, id).Some?
    ensures DbOk(RemoveCategory(db, user, id).value) && Rely(db, RemoveCategory(db, user, id).value)
  {
    var db' := RemoveCategory(db, user, id).value;
    forall r | r in db.rows ensures RowFits(db', db'.rows[r]) {
      var row, row' := db.rows[r], db'.rows[r];
      assert RowOk(db, r, row);
      forall i | i in row'.items ensures ItemFits(db', row'.owner, row'.rec.kind, row'.items[i]) {
        assert ItemFits(db, row.owner, row.rec.kind, row.items[i]);
      }
    }
    forall q | q in db'.cats ensures CategoryNameFree(db', q, db'.cats[q]) {
      assert CategoryNameFree(db, q, db.cats[q]);
    }
    forall q | q in db'.tags ensures TagNameFree(db', q, db'.tags[q]) {
      assert TagNameFree(db, q, db.tags[q]);
    }
    ItemsRewritten(db, db');
  }

  lemma CreateTagKeeps(db: Db, tag: Tag)
    requires DbOk(db) && CreateTag(db, tag).Some?
    ensures DbOk(CreateTag(db, tag).value) && Rely(db, CreateTag(db, tag).value)
  {
    var db' := CreateTag(db, tag).value;
    forall r | r in db.rows ensures RowFits(db', db.rows[r]) {
      var row := db.rows[r];
      assert RowOk(db, r, row);
      forall i | i in row.items ensures ItemFits(db', row.owner, row.rec.kind, row.items[i]) {
        assert ItemFits(db, row.owner, row.rec.kind, row.items[i]);
      }
    }
    forall q | q in db'.cats ensures CategoryNameFree(db', q, db'.cats[q]) {
      assert CategoryNameFree(db, q, db.cats[q]);
    }
    forall q | q in db'.tags ensures TagNameFree(db', q, db'.tags[q]) {
      if q != db.nextRef { assert TagNameFree(db, q, db.tags[q]); }
    }
    ItemsRewritten(db, db');
  }

  lemma RemoveTagKeeps(db: Db, user: nat, id: nat)
    requires DbOk(db) && RemoveTag(db, user, id).Some?
    ensures DbOk(RemoveTag(db, user, id).value) && Rely(db, RemoveTag(db, user, id).value)
  {
    var db' := RemoveTag(db, user, id).value;
    forall r | r in db.rows ensures RowFits(db', db'.rows[r]) {
      var row, row' := db.rows[r], db'.rows[r];
      assert RowOk(db, r, row);
      forall i | i in row'.items ensures ItemFits(db', row'.owner, row'.rec.kind, row'.items[i]) {
        assert ItemFits(db, row.owner, row.rec.kind, row.items[i]);
      }
    }
    forall q | q in db'.cats ensures CategoryNameFree(db', q, db'.cats[q]) {
      assert CategoryNameFree(db, q, db.cats[q]);
    }
    forall q | q in db'.tags ensures TagNameFree(db', q, db'.tags[q]) {
      assert TagNameFree(db, q, db.tags[q]);
    }
    ItemsRewritten(db, db');
  }

  lemma CreateMethodKeeps(db: Db, user: nat)
    requires DbOk(db)
    ensures DbOk(CreateMethod(db, user)) && Rely(db, CreateMethod(db, user))
  {
    var db' := CreateMethod(db, user);
    NamesStay(db, db');
    forall r | r in db.rows ensures RowOk(db', r, db.rows[r]) {
      assert RowOk(db, r, db.rows[r]);
      RowOkFrame(db, db', r, db.rows[r]);
    }
  }

  lemma UnpaidRowOk(db: Db, db': Db, r: nat, id: nat)
    requires DbOk(db) && r in db.rows
    requires db' == db.(methods := db.methods - {id}, rows := db'.rows) && db'.rows.Keys == db.rows.Keys
    requires forall q :: q in db.rows ==> db'.rows[q] == Unpay(db.rows[q], id)
    ensures RowOk(db', r, db'.rows[r]) && RowRely(db, db.rows[r], db'.rows[r])
  {
    var row := db.rows[r];
    assert RowOk(db, r, row);
    SameTablesFit(db, db', row.owner, row.rec.kind, row.rec.kind, row.items);
  }

  lemma RemoveMethodKeeps(db: Db, user: nat, id: nat)
    requires DbOk(db) && RemoveMethod(db, user, id).Some?
    ensures DbOk(RemoveMethod(db, user, id).value) && Rely(db, RemoveMethod(db, user, id).value)
  {
    var db' := RemoveMethod(db, user, id).value;
    NamesStay(db, db');
    forall r | r in db'.rows ensures RowOk(db', r, db'.rows[r]) && RowRely(db, db.rows[r], db'.rows[r]) {
      UnpaidRowOk(db, db', r, id);
    }
  }
}
