/** Receipt and category writes as the services perform them, statement by statement inside one
    transaction that commits or leaves the tables as they were. */
module LedgerServices {
  import opened Basics
  import opened Kinds
  import opened LedgerInput
  import opened Tables
  import opened Database
  import opened ItemService

  // ---- ReceiptService ----

  method ValidateReferences(pg: Postgres, user: nat, self: Option<nat>, rec: Editable) returns (ok: bool)
    ensures ok == ReferencesAllowed(pg.db, user, self, rec)
  {
    if rec.paymentMethodId.Some? {
      var method' := rec.paymentMethodId.value;
      if method' !in pg.db.methods || pg.db.methods[method'] != user {
        return false;
      }
    }
    if rec.offsetsReceiptId.Some? {
      var target := rec.offsetsReceiptId.value;
      if self == Some(target) {
        return false;
      }
      if target !in pg.db.rows || pg.db.rows[target].owner != user {
        return false;
      }
      if !RulesFor(pg.db.rows[target].rec.kind).isOffsetTarget {
        return false;
      }
    }
    ok := true;
  }

  /** A row inserted without its items and then given them is the row inserted whole. */
  lemma ItemsAfterRow(db: Db, stamp: nat, row: Row, items: map<nat, Item>, n: nat, bare: Db)
    requires row.items == map[] && bare == db.(rows := db.rows[db.nextRow := row], nextRow := db.nextRow + 1)
    ensures SetItems(bare, db.nextRow, bare.rows[db.nextRow].items + items, db.nextItem + n).(open := db.open - {stamp})
         == PutRow(db, stamp, row.(items := items), n)
  {
    assert map[] + items == items;
    assert bare.rows[db.nextRow := row.(items := items)] == db.rows[db.nextRow := row.(items := items)];
  }

  method CreateManualEntry(pg: Postgres, user: nat, stamp: nat, today: Day, body: ManualBody) returns (ok: bool)
    modifies pg
    ensures ok == CreateManual(old(pg.db), user, stamp, today, body).Some?
    ensures pg.db == Outcome(old(pg.db), CreateManual(old(pg.db), user, stamp, today, body))
  {
    var before := pg.db;
    var parsed := ParseManualEntry(body);
    if parsed.None? {
      return false;
    }
    var rec, items := parsed.value.receipt, parsed.value.items;
    ok := ValidateReferences(pg, user, None, rec);
    if !ok {
      return;
    }
    rec := rec.(purchaseDate := Coalesce(rec.purchaseDate, Some(today)));
    var rid := pg.db.nextRow;
    var row := Row(user, rec, AudEquivalentCents(rec.totalCents, rec.fxRateToAud), Lane(Idle, 0, 0, None), None,
                   Some(stamp), stamp, stamp, [], map[], None);
    pg.db := pg.db.(rows := pg.db.rows[rid := row], nextRow := rid + 1);
    ok := InsertAll(pg, user, rid, rec.kind, items);
    SameReferencesAll(before, before.(rows := before.rows[rid := row], nextRow := rid + 1), user, rec.kind, items);
    if !ok {
      pg.db := before;
      return;
    }
    pg.db := pg.db.(open := pg.db.open - {stamp});
    ItemsAfterRow(before, stamp, row, Numbered(items, before.nextItem), |items|,
                  before.(rows := before.rows[rid := row], nextRow := rid + 1));
  }

  /** Whether any categorised item of the receipt is off the given side. */
  method AnyClash(pg: Postgres, row: Row, incomeSide: bool) returns (clash: bool)
    ensures clash == !ItemsOnSide(pg.db, row, incomeSide)
  {
    clash := false;
    var todo := row.items.Keys;
    while todo != {}
      invariant todo <= row.items.Keys
      invariant clash <==> exists i :: i in row.items && i !in todo && row.items[i].categoryId.Some?
                                       && row.items[i].categoryId.value in pg.db.cats
                                       && pg.db.cats[row.items[i].categoryId.value].isIncome != incomeSide
      decreases |todo|
    {
      var i :| i in todo;
      var category := row.items[i].categoryId;
      if category.Some? && category.value in pg.db.cats {
        clash := clash || pg.db.cats[category.value].isIncome != incomeSide;
      }
      todo := todo - {i};
    }
  }

  method PatchReceipt(pg: Postgres, user: nat, rid: nat, stamp: nat, patch: ReceiptPatch) returns (ok: bool)
    modifies pg
    ensures ok == UpdateReceipt(old(pg.db), user, rid, stamp, patch).Some?
    ensures pg.db == Outcome(old(pg.db), UpdateReceipt(old(pg.db), user, rid, stamp, patch))
  {
    if rid !in pg.db.rows || pg.db.rows[rid].owner != user {
      return false;
    }
    var row := pg.db.rows[rid];
    var wasIncomeSide := RulesFor(row.rec.kind).usesIncomeCategories;
    var edited := ApplyReceiptPatch(row.rec, patch);
    if edited.None? {
      return false;
    }
    var (rec, markReviewed) := edited.value;
    ok := ValidateReferences(pg, user, Some(rid), rec);
    if !ok {
      return;
    }
    var isIncomeSide := RulesFor(rec.kind).usesIncomeCategories;
    if isIncomeSide != wasIncomeSide {
      var clash := AnyClash(pg, row, isIncomeSide);
      if clash {
        return false;
      }
    }
    var row' := row.(rec := rec, audEquivalent := AudEquivalentCents(rec.totalCents, rec.fxRateToAud), updatedAt := stamp);
    if markReviewed {
      row' := row'.(reviewedAt := Some(stamp));
    }
    pg.db := pg.db.(rows := pg.db.rows[rid := row'], open := pg.db.open - {stamp});
  }

  method Retry(pg: Postgres, user: nat, rid: nat, stamp: nat) returns (ok: bool)
    modifies pg
    ensures ok == RetryScan(old(pg.db), user, rid, stamp).Some?
    ensures pg.db == Outcome(old(pg.db), RetryScan(old(pg.db), user, rid, stamp))
  {
    if rid !in pg.db.rows || pg.db.rows[rid].owner != user || pg.db.rows[rid].lane.state != ScanFailed {
      return false;
    }
    var row := pg.db.rows[rid];
    var lane := row.lane.(state := Uploaded, attempts := 0, reclaims := 0);
    pg.db := pg.db.(rows := pg.db.rows[rid := row.(lane := lane, updatedAt := stamp)], open := pg.db.open - {stamp});
    ok := true;
  }

  // ---- CategoryService ----

  method EditCategory(pg: Postgres, user: nat, id: nat, name: Field<string>, isIncome: Field<bool>) returns (ok: bool)
    modifies pg
    ensures ok == UpdateCategory(old(pg.db), user, id, name, isIncome).Some?
    ensures pg.db == Outcome(old(pg.db), UpdateCategory(old(pg.db), user, id, name, isIncome))
  {
    if name.Malformed? || isIncome.Malformed? {
      return false;
    }
    if id !in pg.db.cats || pg.db.cats[id].owner != user {
      return false;
    }
    var category := pg.db.cats[id];
    if isIncome.Given? && isIncome.value != category.isIncome {
      var clash := FindClash(pg, id, isIncome.value);
      if clash {
        return false;
      }
    }
    if name.Given? {
      category := category.(name := name.value);
    }
    if isIncome.Given? {
      category := category.(isIncome := isIncome.value);
    }
    var free := CategoryNameFree(pg.db, id, category);
    if !free {
      return false;
    }
    pg.db := pg.db.(cats := pg.db.cats[id := category]);
    ok := true;
  }

  /** The items-in-this-category query: some item's receipt is not on the given side. */
  method FindClash(pg: Postgres, id: nat, isIncome: bool) returns (clash: bool)
    ensures clash == FlipClashes(pg.db, id, isIncome)
  {
    clash := exists r | r in pg.db.rows :: exists i | i in pg.db.rows[r].items ::
      pg.db.rows[r].items[i].categoryId == Some(id) && RulesFor(pg.db.rows[r].rec.kind).usesIncomeCategories != isIncome;
  }
}
