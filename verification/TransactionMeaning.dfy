/** Every user transaction in terms of the stored columns: when it is accepted, what each column holds
    afterwards, and that nothing else changes. */
module TransactionMeaning {
  import opened Basics
  import opened Kinds
  import opened LedgerInput
  import opened ScanTypes
  import opened Tables

  // ---- what is left alone ----

  predicate SameReferenceTables(db: Db, db': Db) {
    db'.cats == db.cats && db'.tags == db.tags && db'.methods == db.methods && db'.nextRef == db.nextRef
  }

  /** Row rid and the item counter may have changed, and nothing else but the set of open transactions. */
  predicate OnlyRow(db: Db, db': Db, rid: nat) {
    && rid in db.rows && rid in db'.rows && db'.rows.Keys == db.rows.Keys
    && (forall q :: q in db.rows && q != rid ==> db'.rows[q] == db.rows[q])
    && SameReferenceTables(db, db') && db'.nextRow == db.nextRow && db'.clock == db.clock
  }

  /** Everything of the row that is not in its editable fields, review, version or AUD equivalent. */
  predicate SameBehind(row: Row, row': Row) {
    && row'.owner == row.owner && row'.lane == row.lane && row'.proposedAt == row.proposedAt
    && row'.createdAt == row.createdAt && row'.images == row.images && row'.items == row.items && row'.raw == row.raw
  }

  predicate Owns(db: Db, user: nat, rid: nat) {
    rid in db.rows && db.rows[rid].owner == user
  }

  // ---- what may be referred to ----

  /** An own payment method, and an own purchase other than the receipt itself to offset. */
  predicate RefersToOwn(db: Db, user: nat, self: Option<nat>, e: Editable) {
    && (match e.paymentMethodId
        case None => true
        case Some(m) => m in db.methods && db.methods[m] == user)
    && (match e.offsetsReceiptId
        case None => true
        case Some(o) => Some(o) != self && Owns(db, user, o) && db.rows[o].rec.kind == Purchase)
  }

  lemma ReferencesMeaning(db: Db, user: nat, self: Option<nat>, e: Editable)
    ensures ReferencesAllowed(db, user, self, e) <==> RefersToOwn(db, user, self, e)
  {
  }

  /** An own category on the kind's side, and own tags, none of them twice. */
  predicate UsesOwn(db: Db, user: nat, kind: Kind, category: Option<nat>, tagIds: seq<nat>) {
    && (match category
        case None => true
        case Some(q) => q in db.cats && db.cats[q].owner == user && (db.cats[q].isIncome <==> kind == Income))
    && (forall i :: 0 <= i < |tagIds| ==> tagIds[i] in db.tags && db.tags[tagIds[i]].owner == user)
    && (forall i, j :: 0 <= i < j < |tagIds| ==> tagIds[i] != tagIds[j])
  }

  lemma ItemAllowedMeaning(db: Db, user: nat, kind: Kind, input: ItemInput)
    ensures ItemAllowed(db, user, kind, input) <==> UsesOwn(db, user, kind, input.categoryId, input.tagIds)
  {
  }

  lemma AllAllowedMeaning(db: Db, user: nat, kind: Kind, inputs: seq<ItemInput>)
    ensures AllAllowed(db, user, kind, inputs) <==>
            forall i :: 0 <= i < |inputs| ==> UsesOwn(db, user, kind, inputs[i].categoryId, inputs[i].tagIds)
  {
    forall i | 0 <= i < |inputs|
      ensures ItemAllowed(db, user, kind, inputs[i]) <==> UsesOwn(db, user, kind, inputs[i].categoryId, inputs[i].tagIds)
    {
      ItemAllowedMeaning(db, user, kind, inputs[i]);
    }
  }

  /** The stored item has each field of the input in the column of its name. */
  ghost predicate Holds(item: Item, input: ItemInput) {
    && item.name == input.name && item.quantity == input.quantity && item.unitPriceCents == input.unitPriceCents
    && item.amountCents == input.amountCents && item.categoryId == input.categoryId && item.informational == input.informational
    && forall t :: t in item.tags <==> t in input.tagIds
  }

  lemma StoredHolds(input: ItemInput)
    ensures Holds(Stored(input), input)
  {
  }

  /** A receipt's new items are the inputs in order, numbered from `next`. */
  ghost predicate HoldInOrder(items: map<nat, Item>, inputs: seq<ItemInput>, next: nat) {
    && (forall n :: n in items <==> next <= n < next + |inputs|)
    && forall i :: 0 <= i < |inputs| ==> Holds(items[next + i], inputs[i])
  }

  lemma NumberedHold(inputs: seq<ItemInput>, next: nat)
    ensures HoldInOrder(Numbered(inputs, next), inputs, next)
  {
    forall i | 0 <= i < |inputs| ensures Holds(Numbered(inputs, next)[next + i], inputs[i]) {
      StoredHolds(inputs[i]);
    }
  }

  // ---- receipts ----

  /** A new receipt of the user's under the next id. */
  predicate NewReceipt(db: Db, db': Db, user: nat, stamp: nat, row: Row) {
    && db'.rows.Keys == db.rows.Keys + {db.nextRow} && db'.rows[db.nextRow] == row
    && (forall q :: q in db.rows && q != db.nextRow ==> db'.rows[q] == db.rows[q])
    && db'.nextRow == db.nextRow + 1 && SameReferenceTables(db, db') && db'.clock == db.clock && db'.open == db.open - {stamp}
    && row.owner == user && row.createdAt == stamp && row.updatedAt == stamp && row.proposedAt == None && row.raw == None
    && row.lane.attempts == 0 && row.lane.reclaims == 0 && row.lane.startedAt == None
  }

  /** An upload is queued as a blank purchase with its images. */
  lemma UploadMeaning(db: Db, user: nat, stamp: nat, images: seq<string>)
    ensures var db' := UploadReceipt(db, user, stamp, images);
      && db.nextRow in db'.rows
      && var row := db'.rows[db.nextRow];
         && NewReceipt(db, db', user, stamp, row)
         && row.lane.state == Uploaded && row.images == images && row.items == map[] && row.reviewedAt == None
         && row.audEquivalent == None
         && row.rec == Editable(Purchase, Outflow, 0, "AUD", None, None, None, None, false, None, None, None)
  {
  }

  /** New images go behind the old ones and queue the receipt; nothing else of it changes. */
  lemma AddImagesMeaning(db: Db, user: nat, rid: nat, images: seq<string>)
    ensures AddImages(db, user, rid, images).Some? <==> Owns(db, user, rid)
    ensures Owns(db, user, rid) ==>
      var db' := AddImages(db, user, rid, images).value;
      && OnlyRow(db, db', rid) && db'.nextItem == db.nextItem && db'.open == db.open
      && var row, row' := db.rows[rid], db'.rows[rid];
         && row'.images == row.images + images && row'.lane.state == Uploaded
         && row' == row.(images := row'.images, lane := row.lane.(state := Uploaded))
  {
  }

  /** Whether a body can be entered as this receipt with these items. */
  predicate Enters(body: ManualBody, entry: ManualEntry) {
    && Entered(body.fields, entry.receipt) && Admissible(entry.receipt) && EnteredItems(body, entry.receipt, entry.items)
    && !body.categoryId.Malformed? && !body.items.Malformed?
    && !(body.items.Given? && body.categoryId.Given? && body.categoryId.value.Some?)
  }

  ghost predicate EntryUsesOwn(db: Db, user: nat, entry: ManualEntry) {
    && RefersToOwn(db, user, None, entry.receipt)
    && forall i :: 0 <= i < |entry.items| ==>
         UsesOwn(db, user, entry.receipt.kind, entry.items[i].categoryId, entry.items[i].tagIds)
  }

  /** A manual entry is accepted exactly when it can be entered and uses what is the user's own; it is
      stored as entered, dated today if it gives no date, reviewed and at rest. */
  lemma CreateManualMeaning(db: Db, user: nat, stamp: nat, today: Day, body: ManualBody, entry: ManualEntry)
    requires Enters(body, entry)
    ensures CreateManual(db, user, stamp, today, body).Some? <==> EntryUsesOwn(db, user, entry)
    ensures EntryUsesOwn(db, user, entry) ==>
      var db' := CreateManual(db, user, stamp, today, body).value;
      && db.nextRow in db'.rows
      && var row := db'.rows[db.nextRow];
         && NewReceipt(db, db', user, stamp, row)
         && row.lane.state == Idle && row.images == [] && row.reviewedAt == Some(stamp)
         && row.rec == entry.receipt.(purchaseDate := row.rec.purchaseDate)
         && row.rec.purchaseDate == (if entry.receipt.purchaseDate.Some? then entry.receipt.purchaseDate else Some(today))
         && row.audEquivalent == AudEquivalentCents(entry.receipt.totalCents, entry.receipt.fxRateToAud)
         && HoldInOrder(row.items, entry.items, db.nextItem)
  {
    EntryMeaning(body, entry);
    var rec := entry.receipt.(purchaseDate := Coalesce(entry.receipt.purchaseDate, Some(today)));
    ReferencesMeaning(db, user, None, rec);
    AllAllowedMeaning(db, user, entry.receipt.kind, entry.items);
    NumberedHold(entry.items, db.nextItem);
  }

  /** A body that cannot be entered is refused. */
  lemma CreateManualRefused(db: Db, user: nat, stamp: nat, today: Day, body: ManualBody)
    ensures CreateManual(db, user, stamp, today, body).Some? ==> exists entry :: Enters(body, entry)
  {
    if CreateManual(db, user, stamp, today, body).Some? {
      var entry := ParseManualEntry(body).value;
      EntryMeaning(body, entry);
      assert Enters(body, entry);
    }
  }

  /** Categorised items, if the receipt's kind changes sides, are already on the new one. */
  predicate SidesAgree(db: Db, row: Row, e: Editable) {
    (row.rec.kind == Income) != (e.kind == Income) ==>
      forall i :: i in row.items ==>
        match row.items[i].categoryId
        case None => true
        case Some(q) => q in db.cats ==> (db.cats[q].isIncome <==> e.kind == Income)
  }

  /** The edit of an own receipt that makes it e is accepted exactly when e is the receipt patched key by
      key and admissible, refers to what is the user's own, and leaves no item on the wrong side. */
  ghost predicate EditAccepted(db: Db, user: nat, rid: nat, patch: ReceiptPatch, e: Editable) {
    && Owns(db, user, rid)
    && Patched(db.rows[rid].rec, patch, e) && Admissible(e) && !patch.reviewed.Malformed? && patch.reviewed != Given(false)
    && RefersToOwn(db, user, Some(rid), e) && SidesAgree(db, db.rows[rid], e)
  }

  lemma SidesMeaning(db: Db, row: Row, e: Editable)
    ensures SidesAgree(db, row, e) <==>
            (RulesFor(e.kind).usesIncomeCategories != RulesFor(row.rec.kind).usesIncomeCategories ==>
               ItemsOnSide(db, row, RulesFor(e.kind).usesIncomeCategories))
  {
  }

  lemma UpdateReceiptAccepted(db: Db, user: nat, rid: nat, stamp: nat, patch: ReceiptPatch, e: Editable)
    requires EditAccepted(db, user, rid, patch, e)
    ensures UpdateReceipt(db, user, rid, stamp, patch).Some?
    ensures UpdateReceipt(db, user, rid, stamp, patch).value.rows ==
            db.rows[rid := EditedRow(db.rows[rid], stamp, e, patch.reviewed == Given(true))]
    ensures UpdateReceipt(db, user, rid, stamp, patch).value ==
            db.(rows := UpdateReceipt(db, user, rid, stamp, patch).value.rows, open := db.open - {stamp})
  {
    PatchMeaning(db.rows[rid].rec, patch, e, patch.reviewed == Given(true));
    ReferencesMeaning(db, user, Some(rid), e);
    SidesMeaning(db, db.rows[rid], e);
  }

  lemma UpdateReceiptEdits(db: Db, user: nat, rid: nat, stamp: nat, patch: ReceiptPatch)
    requires UpdateReceipt(db, user, rid, stamp, patch).Some?
    ensures rid in UpdateReceipt(db, user, rid, stamp, patch).value.rows
    ensures EditAccepted(db, user, rid, patch, UpdateReceipt(db, user, rid, stamp, patch).value.rows[rid].rec)
  {
    var edited := ApplyReceiptPatch(db.rows[rid].rec, patch).value;
    PatchMeaning(db.rows[rid].rec, patch, edited.0, edited.1);
    ReferencesMeaning(db, user, Some(rid), edited.0);
    SidesMeaning(db, db.rows[rid], edited.0);
  }

  /** What an accepted edit stores, and that every edit is accepted that may be. */
  lemma UpdateReceiptMeaning(db: Db, user: nat, rid: nat, stamp: nat, patch: ReceiptPatch)
    ensures UpdateReceipt(db, user, rid, stamp, patch).Some? <==> exists e :: EditAccepted(db, user, rid, patch, e)
    ensures UpdateReceipt(db, user, rid, stamp, patch).Some? ==>
      var db' := UpdateReceipt(db, user, rid, stamp, patch).value;
      && OnlyRow(db, db', rid) && db'.nextItem == db.nextItem && db'.open == db.open - {stamp}
      && var row, row' := db.rows[rid], db'.rows[rid];
         && EditAccepted(db, user, rid, patch, row'.rec) && SameBehind(row, row')
         && row'.audEquivalent == AudEquivalentCents(row'.rec.totalCents, row'.rec.fxRateToAud)
         && row'.updatedAt == stamp
         && row'.reviewedAt == (if patch.reviewed == Given(true) then Some(stamp) else row.reviewedAt)
  {
    if UpdateReceipt(db, user, rid, stamp, patch).Some? {
      UpdateReceiptEdits(db, user, rid, stamp, patch);
      UpdateReceiptAccepted(db, user, rid, stamp, patch, UpdateReceipt(db, user, rid, stamp, patch).value.rows[rid].rec);
    }
    if e :| EditAccepted(db, user, rid, patch, e) {
      UpdateReceiptAccepted(db, user, rid, stamp, patch, e);
    }
  }

  /** Retrying resets both budgets of an own failed receipt and queues it; nothing else changes. */
  lemma RetryScanMeaning(db: Db, user: nat, rid: nat, stamp: nat)
    ensures RetryScan(db, user, rid, stamp).Some? <==> Owns(db, user, rid) && db.rows[rid].lane.state == ScanFailed
    ensures RetryScan(db, user, rid, stamp).Some? ==>
      var db' := RetryScan(db, user, rid, stamp).value;
      && OnlyRow(db, db', rid) && db'.nextItem == db.nextItem && db'.open == db.open - {stamp}
      && var row, row' := db.rows[rid], db'.rows[rid];
         && row'.lane.state == Uploaded && row'.lane.attempts == 0 && row'.lane.reclaims == 0
         && row'.lane.startedAt == row.lane.startedAt && row'.updatedAt == stamp
         && row' == row.(lane := row'.lane, updatedAt := stamp)
  {
  }

  /** Deleting an own receipt removes it and clears the offsets that named it. */
  lemma DeleteReceiptMeaning(db: Db, user: nat, rid: nat)
    ensures DeleteReceipt(db, user, rid).Some? <==> Owns(db, user, rid)
    ensures DeleteReceipt(db, user, rid).Some? ==>
      var db' := DeleteReceipt(db, user, rid).value;
      && db' == db.(rows := db'.rows) && db'.rows.Keys == db.rows.Keys - {rid}
      && forall q :: q in db'.rows ==>
           && db'.rows[q] == db.rows[q].(rec := db'.rows[q].rec)
           && db'.rows[q].rec == db.rows[q].rec.(offsetsReceiptId := db'.rows[q].rec.offsetsReceiptId)
           && db'.rows[q].rec.offsetsReceiptId ==
              (if db.rows[q].rec.offsetsReceiptId == Some(rid) then None else db.rows[q].rec.offsetsReceiptId)
  {
  }

  // ---- items ----

  /** Only the items of receipt rid may have changed, and the item counter. */
  predicate OnlyItems(db: Db, db': Db, rid: nat) {
    OnlyRow(db, db', rid) && db'.open == db.open && db'.rows[rid] == db.rows[rid].(items := db'.rows[rid].items)
  }

  lemma CreateItemMeaning(db: Db, user: nat, rid: nat, input: ItemInput)
    ensures CreateItem(db, user, rid, input).Some? <==>
            Owns(db, user, rid) && UsesOwn(db, user, db.rows[rid].rec.kind, input.categoryId, input.tagIds)
    ensures CreateItem(db, user, rid, input).Some? ==>
      var db' := CreateItem(db, user, rid, input).value;
      && OnlyItems(db, db', rid) && db'.nextItem == db.nextItem + 1
      && var items, items' := db.rows[rid].items, db'.rows[rid].items;
         && items'.Keys == items.Keys + {db.nextItem} && Holds(items'[db.nextItem], input)
         && forall n :: n in items && n != db.nextItem ==> items'[n] == items[n]
  {
    if Owns(db, user, rid) { ItemAllowedMeaning(db, user, db.rows[rid].rec.kind, input); }
    StoredHolds(input);
  }

  /** The stored item patched key by key; tags are replaced only if listed. */
  ghost predicate ItemPatched(item: Item, p: ItemPatch, item': Item) {
    && Takes(p.name, item.name, item'.name) && Takes(p.quantity, item.quantity, item'.quantity)
    && Takes(p.unitPriceCents, item.unitPriceCents, item'.unitPriceCents) && Takes(p.amountCents, item.amountCents, item'.amountCents)
    && Takes(p.categoryId, item.categoryId, item'.categoryId) && Takes(p.informational, item.informational, item'.informational)
    && match p.tagIds
       case Absent => item'.tags == item.tags
       case Malformed => false
       case Given(ids) => forall t :: t in item'.tags <==> t in ids
  }

  predicate ItemPatchDecodes(p: ItemPatch) {
    && !p.name.Malformed? && !p.quantity.Malformed? && !p.unitPriceCents.Malformed? && !p.amountCents.Malformed?
    && !p.categoryId.Malformed? && !p.informational.Malformed? && !p.tagIds.Malformed?
  }

  /** An item edit is accepted exactly when it can be decoded and the category and tags it names are the
      user's own, the category on the receipt's side. */
  lemma UpdateItemMeaning(db: Db, user: nat, rid: nat, item: nat, p: ItemPatch)
    ensures UpdateItem(db, user, rid, item, p).Some? <==>
            && Owns(db, user, rid) && item in db.rows[rid].items && ItemPatchDecodes(p)
            && UsesOwn(db, user, db.rows[rid].rec.kind, if p.categoryId.Given? then p.categoryId.value else None,
                       if p.tagIds.Given? then p.tagIds.value else [])
    ensures UpdateItem(db, user, rid, item, p).Some? ==>
      var db' := UpdateItem(db, user, rid, item, p).value;
      && OnlyItems(db, db', rid) && db'.nextItem == db.nextItem
      && var items, items' := db.rows[rid].items, db'.rows[rid].items;
         && items'.Keys == items.Keys && ItemPatched(items[item], p, items'[item])
         && forall n :: n in items && n != item ==> items'[n] == items[n]
  {
  }

  lemma RemoveItemMeaning(db: Db, user: nat, rid: nat, item: nat)
    ensures RemoveItem(db, user, rid, item).Some? <==> Owns(db, user, rid) && item in db.rows[rid].items
    ensures RemoveItem(db, user, rid, item).Some? ==>
      var db' := RemoveItem(db, user, rid, item).value;
      && OnlyItems(db, db', rid) && db'.nextItem == db.nextItem
      && db'.rows[rid].items == db.rows[rid].items - {item}
  {
  }

  // ---- reference data ----

  /** No other category of the owner on that side has the name, ignoring case. */
  ghost predicate NameUnused(db: Db, self: nat, owner: nat, isIncome: bool, name: string) {
    forall q :: q in db.cats && q != self && db.cats[q].owner == owner && db.cats[q].isIncome == isIncome ==>
      !(|db.cats[q].name| == |name| && forall i :: 0 <= i < |name| ==> SameLetter(db.cats[q].name[i], name[i]))
  }

  lemma NameMeaning(db: Db, self: nat, category: Category)
    ensures CategoryNameFree(db, self, category) <==>
            NameUnused(db, self, category.owner, category.isIncome, category.name)
  {
    forall q | q in db.cats
      ensures Lower(db.cats[q].name) == Lower(category.name) <==>
              (|db.cats[q].name| == |category.name|
               && forall i :: 0 <= i < |category.name| ==> SameLetter(db.cats[q].name[i], category.name[i]))
    {
      LowerMeaning(db.cats[q].name, category.name);
    }
  }

  /** No item in the category is on a receipt of the other side. */
  ghost predicate FlipFits(db: Db, id: nat, isIncome: bool) {
    forall r, i :: r in db.rows && i in db.rows[r].items && db.rows[r].items[i].categoryId == Some(id) ==>
      (db.rows[r].rec.kind == Income <==> isIncome)
  }

  lemma FlipMeaning(db: Db, id: nat, isIncome: bool)
    ensures FlipClashes(db, id, isIncome) <==> !FlipFits(db, id, isIncome)
  {
    if !FlipFits(db, id, isIncome) {
      var r, i :| r in db.rows && i in db.rows[r].items && db.rows[r].items[i].categoryId == Some(id)
                  && !(db.rows[r].rec.kind == Income <==> isIncome);
      assert RulesFor(db.rows[r].rec.kind).usesIncomeCategories != isIncome;
    }
  }

  /** The category an edit makes, key by key. */
  predicate CategoryPatched(q: Category, name: Field<string>, isIncome: Field<bool>, q': Category) {
    q'.owner == q.owner && Takes(name, q.name, q'.name) && Takes(isIncome, q.isIncome, q'.isIncome)
  }

  lemma UpdateCategoryMeaning(db: Db, user: nat, id: nat, name: Field<string>, isIncome: Field<bool>, q': Category)
    requires id in db.cats && db.cats[id].owner == user && CategoryPatched(db.cats[id], name, isIncome, q')
    ensures UpdateCategory(db, user, id, name, isIncome) ==
      if (q'.isIncome != db.cats[id].isIncome ==> FlipFits(db, id, q'.isIncome)) && NameUnused(db, id, user, q'.isIncome, q'.name)
      then Some(db.(cats := db.cats[id := q'])) else None
  {
    FlipMeaning(db, id, q'.isIncome);
    NameMeaning(db, id, q');
  }

  /** Somebody else's or a missing category, or a malformed key, is refused. */
  lemma UpdateCategoryRefused(db: Db, user: nat, id: nat, name: Field<string>, isIncome: Field<bool>)
    ensures UpdateCategory(db, user, id, name, isIncome).Some? ==>
      id in db.cats && db.cats[id].owner == user && exists q' :: CategoryPatched(db.cats[id], name, isIncome, q')
  {
    if UpdateCategory(db, user, id, name, isIncome).Some? {
      assert CategoryPatched(db.cats[id], name, isIncome, UpdateCategory(db, user, id, name, isIncome).value.cats[id]);
    }
  }

  /** New categories and tags are accepted exactly when their name is unused, and get the next id. */
  lemma CreationsMeaning(db: Db, category: Category, tag: Tag, user: nat)
    ensures CreateCategory(db, category).Some? <==>
            NameUnused(db, db.nextRef, category.owner, category.isIncome, category.name)
    ensures CreateCategory(db, category).Some? ==>
            CreateCategory(db, category).value == db.(cats := db.cats[db.nextRef := category], nextRef := db.nextRef + 1)
    ensures CreateTag(db, tag).Some? <==>
            forall q :: q in db.tags && q != db.nextRef && db.tags[q].owner == tag.owner ==>
              !(|db.tags[q].name| == |tag.name| && forall i :: 0 <= i < |tag.name| ==> SameLetter(db.tags[q].name[i], tag.name[i]))
    ensures CreateTag(db, tag).Some? ==>
            CreateTag(db, tag).value == db.(tags := db.tags[db.nextRef := tag], nextRef := db.nextRef + 1)
    ensures CreateMethod(db, user) == db.(methods := db.methods[db.nextRef := user], nextRef := db.nextRef + 1)
  {
    NameMeaning(db, db.nextRef, category);
    forall q | q in db.tags
      ensures Lower(db.tags[q].name) == Lower(tag.name) <==>
              (|db.tags[q].name| == |tag.name| && forall i :: 0 <= i < |tag.name| ==> SameLetter(db.tags[q].name[i], tag.name[i]))
    {
      LowerMeaning(db.tags[q].name, tag.name);
    }
  }

  /** Deleting a category, tag or payment method takes it off every item and receipt that has it. */
  lemma RemovalsMeaning(db: Db, user: nat, id: nat, r: nat, i: nat)
    requires r in db.rows && i in db.rows[r].items
    ensures RemoveCategory(db, user, id).Some? <==> id in db.cats && db.cats[id].owner == user
    ensures RemoveCategory(db, user, id).Some? ==>
      var db' := RemoveCategory(db, user, id).value;
      && db' == db.(cats := db.cats - {id}, rows := db'.rows) && r in db'.rows && i in db'.rows[r].items
      && db'.rows[r] == db.rows[r].(items := db'.rows[r].items)
      && db'.rows[r].items[i] == db.rows[r].items[i].(categoryId := db'.rows[r].items[i].categoryId)
      && db'.rows[r].items[i].categoryId ==
         (if db.rows[r].items[i].categoryId == Some(id) then None else db.rows[r].items[i].categoryId)
    ensures RemoveTag(db, user, id).Some? <==> id in db.tags && db.tags[id].owner == user
    ensures RemoveTag(db, user, id).Some? ==>
      var db' := RemoveTag(db, user, id).value;
      && db' == db.(tags := db.tags - {id}, rows := db'.rows) && r in db'.rows && i in db'.rows[r].items
      && db'.rows[r] == db.rows[r].(items := db'.rows[r].items)
      && db'.rows[r].items[i] == db.rows[r].items[i].(tags := db.rows[r].items[i].tags - {id})
    ensures RemoveMethod(db, user, id).Some? <==> id in db.methods && db.methods[id] == user
    ensures RemoveMethod(db, user, id).Some? ==>
      var db' := RemoveMethod(db, user, id).value;
      && db' == db.(methods := db.methods - {id}, rows := db'.rows) && r in db'.rows
      && db'.rows[r] == db.rows[r].(rec := db'.rows[r].rec)
      && db'.rows[r].rec == db.rows[r].rec.(paymentMethodId := db'.rows[r].rec.paymentMethodId)
      && db'.rows[r].rec.paymentMethodId ==
         (if db.rows[r].rec.paymentMethodId == Some(id) then None else db.rows[r].rec.paymentMethodId)
  {
  }

  // ---- the lists given to a scan ----

  lemma {:induction false} CategoriesMeaning(cats: map<nat, Category>, user: nat, n: nat, ref: CategoryRef)
    ensures ref in CategoriesBelow(cats, user, n) <==>
            ref.id < n && ref.id in cats && cats[ref.id] == Category(user, ref.name, ref.isIncome)
  {
    if n > 0 { CategoriesMeaning(cats, user, n - 1, ref); }
  }

  lemma {:induction false} TagsMeaning(tags: map<nat, Tag>, user: nat, n: nat, ref: TagRef)
    ensures ref in TagsBelow(tags, user, n) <==> ref.id < n && ref.id in tags && tags[ref.id] == Tag(user, ref.name)
  {
    if n > 0 { TagsMeaning(tags, user, n - 1, ref); }
  }

  /** In id order. */
  lemma {:induction false} ListsAreSorted(db: Db, user: nat, n: nat)
    ensures forall i, j :: 0 <= i < j < |CategoriesBelow(db.cats, user, n)| ==>
              CategoriesBelow(db.cats, user, n)[i].id < CategoriesBelow(db.cats, user, n)[j].id
    ensures forall i, j :: 0 <= i < j < |TagsBelow(db.tags, user, n)| ==>
              TagsBelow(db.tags, user, n)[i].id < TagsBelow(db.tags, user, n)[j].id
  {
    if n > 0 {
      ListsAreSorted(db, user, n - 1);
      var cats, tags := CategoriesBelow(db.cats, user, n - 1), TagsBelow(db.tags, user, n - 1);
      forall i | 0 <= i < |cats| ensures cats[i].id < n - 1 { CategoriesMeaning(db.cats, user, n - 1, cats[i]); }
      forall i | 0 <= i < |tags| ensures tags[i].id < n - 1 { TagsMeaning(db.tags, user, n - 1, tags[i]); }
    }
  }

  /** Every category on the lists is still the user's and on its side, and every tag still theirs. */
  predicate ListsHold(db: Db, user: nat, lists: Taxonomy) {
    && (forall k :: 0 <= k < |lists.categories| ==>
          var ref := lists.categories[k];
          ref.id in db.cats && db.cats[ref.id].owner == user && db.cats[ref.id].isIncome == ref.isIncome)
    && (forall k :: 0 <= k < |lists.tags| ==> lists.tags[k].id in db.tags && db.tags[lists.tags[k].id].owner == user)
  }

  lemma LoadedListsHold(db: Db, user: nat)
    ensures ListsHold(db, user, LoadTaxonomy(db, user))
  {
    var lists := LoadTaxonomy(db, user);
    forall k | 0 <= k < |lists.categories|
      ensures lists.categories[k].id in db.cats
      ensures db.cats[lists.categories[k].id] == Category(user, lists.categories[k].name, lists.categories[k].isIncome)
    {
      CategoriesMeaning(db.cats, user, db.nextRef, lists.categories[k]);
    }
    forall k | 0 <= k < |lists.tags|
      ensures lists.tags[k].id in db.tags && db.tags[lists.tags[k].id] == Tag(user, lists.tags[k].name)
    {
      TagsMeaning(db.tags, user, db.nextRef, lists.tags[k]);
    }
  }

  lemma ScannedItemFits(db: Db, user: nat, kind: Kind, scanned: ScannedItem, lists: Taxonomy)
    requires ListsHold(db, user, lists)
    ensures ItemAllowed(db, user, kind, ToItemInput(scanned, kind, lists))
  {
    var input := ToItemInput(scanned, kind, lists);
    if scanned.category.Some? {
      FindCategoryMeaning(lists.categories, RulesFor(kind).usesIncomeCategories, scanned.category.value);
    }
    FindTagsMeaning(scanned.tags, lists.tags, 0);
    forall i | 0 <= i < |input.tagIds| ensures input.tagIds[i] in db.tags && db.tags[input.tagIds[i]].owner == user {
      FindTagsMeaning(scanned.tags, lists.tags, input.tagIds[i]);
      var n :| 0 <= n < |scanned.tags| && TagNamed(lists.tags, input.tagIds[i], scanned.tags[n]);
    }
  }

  /** Names a scan gives are never a reason to refuse it: what it is resolved to on the user's lists is
      allowed for as long as the lists hold. */
  lemma ScannedItemsFit(db: Db, user: nat, kind: Kind, scanned: seq<ScannedItem>, lists: Taxonomy)
    requires ListsHold(db, user, lists)
    ensures AllAllowed(db, user, kind, ToItemInputs(scanned, kind, lists))
  {
    var inputs := ToItemInputs(scanned, kind, lists);
    forall i | 0 <= i < |inputs| ensures ItemAllowed(db, user, kind, inputs[i]) {
      ScannedItemFits(db, user, kind, scanned[i], lists);
    }
  }
}
