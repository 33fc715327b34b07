/** The write half of the scan worker as code: resolving names, comparing with the reviewed row, and
    the two write modes statement by statement under the row's lock. */
module ScanWrites {
  import opened Basics
  import opened Kinds
  import opened LedgerInput
  import opened ScanTypes
  import opened Tables
  import opened Database
  import opened ItemService

  /** The two search loops of toItemInput. */
  method ResolveItem(scanned: ScannedItem, kind: Kind, taxonomy: Taxonomy) returns (input: ItemInput)
    ensures input == ToItemInput(scanned, kind, taxonomy)
  {
    var category: Option<nat> := None;
    if scanned.category.Some? {
      var incomeSide, refs := RulesFor(kind).usesIncomeCategories, taxonomy.categories;
      var n := 0;
      while n < |refs|
        invariant 0 <= n <= |refs| && category == None
        invariant FindCategory(refs, incomeSide, scanned.category.value)
               == FindCategory(refs[n..], incomeSide, scanned.category.value)
      {
        if refs[n].isIncome == incomeSide && Lower(refs[n].name) == Lower(scanned.category.value) {
          category := Some(refs[n].id);
          break;
        }
        n := n + 1;
      }
    }
    var tagIds := [];
    for t := 0 to |scanned.tags|
      invariant tagIds == FindTags(scanned.tags[..t], taxonomy.tags)
    {
      var name := scanned.tags[t];
      ghost var before := tagIds;
      for g := 0 to |taxonomy.tags|
        invariant tagIds == AddTag(before, taxonomy.tags[..g], name)
      {
        assert taxonomy.tags[..g + 1][..g] == taxonomy.tags[..g];
        if Lower(taxonomy.tags[g].name) == Lower(name) && taxonomy.tags[g].id !in tagIds {
          tagIds := tagIds + [taxonomy.tags[g].id];
        }
      }
      assert taxonomy.tags[..|taxonomy.tags|] == taxonomy.tags;
      assert scanned.tags[..t + 1][..t] == scanned.tags[..t];
    }
    assert scanned.tags[..|scanned.tags|] == scanned.tags;
    input := ItemInput(scanned.name, scanned.quantity, scanned.unitPriceCents, scanned.amountCents, category,
                       scanned.informational, tagIds);
  }

  /** The verify comparison as the code makes it, asking the matcher a second time only if it must. */
  method CompareWith(c: Config, before: Snapshot, result: ScanResult) returns (allMatch: bool)
    ensures allMatch == SnapshotMatches(c, before, result)
    ensures allMatch <==> before.reviewed ==>
              && result.totalCents == before.totalCents
              && result.currency == before.currency
              && (before.purchaseDate.Some? && result.purchaseDate.Given? ==>
                    -c.matchDateDays <= result.purchaseDate.value - before.purchaseDate.value <= c.matchDateDays)
              && (before.merchant.Some? && (result.merchant.Some? || result.storeNameRaw.Some?) ==>
                    || (result.merchant.Some? && c.similarity(before.merchant.value, result.merchant.value) >= c.merchantMatchThreshold)
                    || (result.storeNameRaw.Some?
                        && c.similarity(before.merchant.value, result.storeNameRaw.value) >= c.merchantMatchThreshold)
                    || (result.merchant.None? && c.merchantMatchThreshold <= 0.0))
  {
    AgreementMeaning(c, before.totalCents, before.currency, before.purchaseDate, before.merchant, result);
    allMatch := true;
    if before.reviewed {
      allMatch := result.totalCents == before.totalCents && result.currency == before.currency;
      if before.purchaseDate.Some? && result.purchaseDate.Given? {
        var days := result.purchaseDate.value - before.purchaseDate.value;
        if (if days < 0 then -days else days) > c.matchDateDays {
          allMatch := false;
        }
      }
      if before.merchant.Some? && (result.merchant.Some? || result.storeNameRaw.Some?) {
        var similarity := 0.0;
        if result.merchant.Some? {
          similarity := (c.similarity)(before.merchant.value, result.merchant.value);
        }
        if result.storeNameRaw.Some? && similarity < c.merchantMatchThreshold {
          var storeSimilarity := (c.similarity)(before.merchant.value, result.storeNameRaw.value);
          if storeSimilarity > similarity {
            similarity := storeSimilarity;
          }
        }
        if similarity < c.merchantMatchThreshold {
          allMatch := false;
        }
      }
    }
  }

  method InsertScannedItems(pg: Postgres, k: Claim, kind: Kind, items: seq<ScannedItem>, taxonomy: Taxonomy) returns (ok: bool)
    requires k.rid in pg.db.rows
    modifies pg
    ensures var inputs := ToItemInputs(items, kind, taxonomy);
      && ok == AllAllowed(old(pg.db), k.user, kind, inputs)
      && (ok ==> pg.db == Inserted(old(pg.db), k.rid, inputs, |inputs|))
  {
    ghost var before, inputs := pg.db, ToItemInputs(items, kind, taxonomy);
    NoneInserted(before, k.rid, inputs);
    for i := 0 to |items|
      invariant forall j :: 0 <= j < i ==> ItemAllowed(before, k.user, kind, inputs[j])
      invariant pg.db == Inserted(before, k.rid, inputs, i)
    {
      var input := ResolveItem(items[i], kind, taxonomy);
      assert input == inputs[i];
      SameReferences(before, pg.db, k.user, kind, inputs[i]);
      ok := Insert(pg, k.user, k.rid, kind, input);
      if !ok {
        return;
      }
      OneMoreInserted(before, k.rid, inputs, i);
    }
    ok := true;
  }

  /** Items inserted after the row was updated are the row updated with them. */
  lemma ItemsAfterUpdate(db: Db, rid: nat, row: Row, items: map<nat, Item>, inputs: seq<ItemInput>)
    requires rid in db.rows
    ensures var updated := db.(rows := db.rows[rid := row.(items := items)]);
      Inserted(updated, rid, inputs, |inputs|)
      == db.(rows := db.rows[rid := row.(items := items + Numbered(inputs, db.nextItem))], nextItem := db.nextItem + |inputs|)
  {
    var updated := db.(rows := db.rows[rid := row.(items := items)]);
    assert inputs[..|inputs|] == inputs;
    assert db.rows[rid := row.(items := items)][rid := row.(items := items + Numbered(inputs, db.nextItem))]
        == db.rows[rid := row.(items := items + Numbered(inputs, db.nextItem))];
  }

  /** The tables with a claimed row replaced and `n` items numbered. */
  function WithRow(db: Db, rid: nat, row: Row, n: nat): Db {
    db.(rows := db.rows[rid := row], nextItem := db.nextItem + n)
  }

  lemma ExtractionAllowed(db: Db, k: Claim, now: nat, result: ScanResult, taxonomy: Taxonomy, allMatch: bool, counted: nat, kind: Kind)
    requires k.rid in db.rows && db.rows[k.rid].reviewedAt.None? && Extractable(result.kind) && FindKind(result.kind) == Some(kind)
    ensures WriteResult(db, k, now, result, taxonomy, allMatch, counted).Some? <==>
            AllAllowed(db, k.user, kind, ToItemInputs(result.items, kind, taxonomy))
  {
  }

  lemma ExtractionResult(db: Db, k: Claim, now: nat, result: ScanResult, taxonomy: Taxonomy, allMatch: bool, counted: nat, kind: Kind)
    requires k.rid in db.rows && db.rows[k.rid].reviewedAt.None? && Extractable(result.kind) && FindKind(result.kind) == Some(kind)
    requires WriteResult(db, k, now, result, taxonomy, allMatch, counted).Some?
    ensures var inputs := ToItemInputs(result.items, kind, taxonomy);
      WriteResult(db, k, now, result, taxonomy, allMatch, counted).value
      == WithRow(db, k.rid, ExtractedRow(db.rows[k.rid], now, kind, result, Numbered(inputs, db.nextItem)), |inputs|)
  {
  }

  lemma VerifyAllowed(db: Db, k: Claim, now: nat, result: ScanResult, taxonomy: Taxonomy, allMatch: bool, counted: nat, inputs: seq<ItemInput>)
    requires k.rid in db.rows && db.rows[k.rid].reviewedAt.Some?
    requires inputs == WrittenItems(db.rows[k.rid], result, taxonomy, counted)
    ensures WriteResult(db, k, now, result, taxonomy, allMatch, counted).Some? <==> AllAllowed(db, k.user, db.rows[k.rid].rec.kind, inputs)
  {
  }

  lemma VerifyResult(db: Db, k: Claim, now: nat, result: ScanResult, taxonomy: Taxonomy, allMatch: bool, counted: nat, inputs: seq<ItemInput>)
    requires k.rid in db.rows && db.rows[k.rid].reviewedAt.Some?
    requires inputs == WrittenItems(db.rows[k.rid], result, taxonomy, counted)
    requires WriteResult(db, k, now, result, taxonomy, allMatch, counted).Some?
    ensures var row := db.rows[k.rid];
      var all := row.items + Numbered(inputs, db.nextItem);
      WriteResult(db, k, now, result, taxonomy, allMatch, counted).value
      == WithRow(db, k.rid, VerifiedRow(row, now, result, allMatch, all), |inputs|)
  {
  }

  /** The UPDATE of an extraction, from the snapshot read under the lock. */
  method UpdateExtracted(row: Row, now: nat, kind: Kind, result: ScanResult, locked: Snapshot) returns (updated: Row)
    requires locked == LockedSnapshot(row, locked.itemCount) && RulesFor(kind).canonicalDirection.Some?
    ensures forall items :: updated.(items := items) == ExtractedRow(row, now, kind, result, items)
  {
    var rules := RulesFor(kind);
    var rec := row.rec.(kind := kind, direction := rules.canonicalDirection.value, totalCents := result.totalCents,
                        currency := result.currency, merchant := result.merchant, storeNameRaw := result.storeNameRaw,
                        purchaseDate := DateOf(result),
                        taxDeductible := locked.taxDeductible && rules.allowsTaxDeductible,
                        offsetsReceiptId := if rules.canOffset then locked.offsetsReceiptId else None);
    updated := row.(rec := rec, raw := Some(result), lane := row.lane.(state := Idle, startedAt := None),
                    proposedAt := Some(now), updatedAt := now);
  }

  /** The UPDATE of a verification. */
  method UpdateVerified(row: Row, now: nat, result: ScanResult, allMatch: bool) returns (updated: Row)
    ensures updated.items == row.items
    ensures forall items :: updated.(items := items) == VerifiedRow(row, now, result, allMatch, items)
  {
    var rec := row.rec.(merchant := Coalesce(row.rec.merchant, result.merchant),
                        storeNameRaw := Coalesce(row.rec.storeNameRaw, result.storeNameRaw),
                        purchaseDate := Coalesce(row.rec.purchaseDate, DateOf(result)));
    updated := row.(rec := rec, raw := Some(result), lane := row.lane.(state := Idle, startedAt := None),
                    proposedAt := Some(now), reviewedAt := if allMatch then Some(now) else row.reviewedAt,
                    updatedAt := now);
  }

  /** Updating the row and then inserting the items is the extraction. */
  lemma ExtractedInSteps(db: Db, k: Claim, now: nat, result: ScanResult, taxonomy: Taxonomy, allMatch: bool, counted: nat,
                         kind: Kind, updated: Row, base: Db)
    requires k.rid in db.rows && db.rows[k.rid].reviewedAt.None? && Extractable(result.kind) && FindKind(result.kind) == Some(kind)
    requires forall items :: updated.(items := items) == ExtractedRow(db.rows[k.rid], now, kind, result, items)
    requires base == db.(rows := db.rows[k.rid := updated.(items := map[])])
    requires WriteResult(db, k, now, result, taxonomy, allMatch, counted).Some?
    ensures var inputs := ToItemInputs(result.items, kind, taxonomy);
      WriteResult(db, k, now, result, taxonomy, allMatch, counted).value == Inserted(base, k.rid, inputs, |inputs|)
  {
    var inputs := ToItemInputs(result.items, kind, taxonomy);
    ItemsAfterUpdate(db, k.rid, updated, map[], inputs);
    assert map[] + Numbered(inputs, db.nextItem) == Numbered(inputs, db.nextItem);
    ExtractionResult(db, k, now, result, taxonomy, allMatch, counted, kind);
  }

  lemma VerifiedInSteps(db: Db, k: Claim, now: nat, result: ScanResult, taxonomy: Taxonomy, allMatch: bool, counted: nat,
                        updated: Row, base: Db, inputs: seq<ItemInput>)
    requires k.rid in db.rows && db.rows[k.rid].reviewedAt.Some?
    requires updated.items == db.rows[k.rid].items
    requires forall items :: updated.(items := items) == VerifiedRow(db.rows[k.rid], now, result, allMatch, items)
    requires base == db.(rows := db.rows[k.rid := updated]) && inputs == WrittenItems(db.rows[k.rid], result, taxonomy, counted)
    requires WriteResult(db, k, now, result, taxonomy, allMatch, counted).Some?
    ensures WriteResult(db, k, now, result, taxonomy, allMatch, counted).value == Inserted(base, k.rid, inputs, |inputs|)
  {
    ItemsAfterUpdate(db, k.rid, updated, updated.items, inputs);
    VerifyResult(db, k, now, result, taxonomy, allMatch, counted, inputs);
  }

  /** The row was never reviewed: the scan's fields and items replace its own. */
  method WriteExtraction(pg: Postgres, k: Claim, now: nat, result: ScanResult, taxonomy: Taxonomy, locked: Snapshot,
                         ghost allMatch: bool)
    returns (ok: bool)
    requires k.rid in pg.db.rows && locked == LockedSnapshot(pg.db.rows[k.rid], locked.itemCount) && !locked.reviewed && Extractable(result.kind)
    modifies pg
    ensures ok == WriteResult(old(pg.db), k, now, result, taxonomy, allMatch, locked.itemCount).Some?
    ensures ok ==> Some(pg.db) == WriteResult(old(pg.db), k, now, result, taxonomy, allMatch, locked.itemCount)
  {
    ghost var before := pg.db;
    var row, kind := pg.db.rows[k.rid], FindKind(result.kind).value;
    var updated := UpdateExtracted(row, now, kind, result, locked);
    pg.db := pg.db.(rows := pg.db.rows[k.rid := updated]);
    pg.db := SetItems(pg.db, k.rid, map[], pg.db.nextItem);
    UpdatedTwice(before, k.rid, updated);
    ExtractionAllowed(before, k, now, result, taxonomy, allMatch, locked.itemCount, kind);
    SameReferencesAll(before, pg.db, k.user, kind, ToItemInputs(result.items, kind, taxonomy));
    if WriteResult(before, k, now, result, taxonomy, allMatch, locked.itemCount).Some? {
      ExtractedInSteps(before, k, now, result, taxonomy, allMatch, locked.itemCount, kind, updated, pg.db);
    }
    ok := InsertScannedItems(pg, k, kind, result.items, taxonomy);
  }

  lemma UpdatedTwice(db: Db, rid: nat, row: Row)
    requires rid in db.rows
    ensures SetItems(db.(rows := db.rows[rid := row]), rid, map[], db.nextItem) == db.(rows := db.rows[rid := row.(items := map[])])
  {
  }

  /** The row was reviewed: only what is empty is filled, and a full match confirms it again. */
  method WriteVerify(pg: Postgres, k: Claim, now: nat, result: ScanResult, taxonomy: Taxonomy, locked: Snapshot, allMatch: bool)
    returns (ok: bool)
    requires k.rid in pg.db.rows && locked == LockedSnapshot(pg.db.rows[k.rid], locked.itemCount) && locked.reviewed
    modifies pg
    ensures ok == WriteResult(old(pg.db), k, now, result, taxonomy, allMatch, locked.itemCount).Some?
    ensures ok ==> Some(pg.db) == WriteResult(old(pg.db), k, now, result, taxonomy, allMatch, locked.itemCount)
  {
    ghost var before := pg.db;
    var row := pg.db.rows[k.rid];
    var updated := UpdateVerified(row, now, result, allMatch);
    pg.db := pg.db.(rows := pg.db.rows[k.rid := updated]);
    ghost var inputs := WrittenItems(row, result, taxonomy, locked.itemCount);
    VerifyAllowed(before, k, now, result, taxonomy, allMatch, locked.itemCount, inputs);
    SameReferencesAll(before, pg.db, k.user, row.rec.kind, inputs);
    if WriteResult(before, k, now, result, taxonomy, allMatch, locked.itemCount).Some? {
      VerifiedInSteps(before, k, now, result, taxonomy, allMatch, locked.itemCount, updated, pg.db, inputs);
    }
    if locked.itemCount == 0 {
      ok := InsertScannedItems(pg, k, locked.kind, result.items, taxonomy);
    } else {
      NoneInserted(pg.db, k.rid, []);
      ok := true;
    }
  }
}
