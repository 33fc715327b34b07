/** Item writes. Each public method is one transaction: it ends committed, or with the tables as they
    were. */
module ItemService {
  import opened Basics
  import opened Kinds
  import opened LedgerInput
  import opened Tables
  import opened Database

  /** The tables after a transaction that may have been refused. */
  function Outcome(db: Db, committed: Option<Db>): Db {
    if committed.Some? then committed.value else db
  }

  method RequireCategoryFitsKind(pg: Postgres, user: nat, category: nat, kind: Kind) returns (fits: bool)
    ensures fits == CategoryAllowed(pg.db.cats, user, kind, Some(category))
  {
    if category !in pg.db.cats || pg.db.cats[category].owner != user {
      return false;
    }
    fits := CategoryFitsKind(pg.db.cats[category].isIncome, kind);
  }

  /** The receipt with one item's tags replaced. */
  function WithTags(db: Db, rid: nat, item: nat, tags: set<nat>): Db
    requires rid in db.rows && item in db.rows[rid].items
  {
    SetItems(db, rid, db.rows[rid].items[item := db.rows[rid].items[item].(tags := tags)], db.nextItem)
  }

  method ReplaceTags(pg: Postgres, user: nat, rid: nat, item: nat, tagIds: seq<nat>) returns (ok: bool)
    requires rid in pg.db.rows && item in pg.db.rows[rid].items
    modifies pg
    ensures ok == TagsAllowed(old(pg.db).tags, user, tagIds)
    ensures ok ==> pg.db == WithTags(old(pg.db), rid, item, TagSet(tagIds))
  {
    ghost var before := pg.db;
    pg.db := WithTags(pg.db, rid, item, {});
    assert tagIds[..0] == [] && TagSet([]) == {};
    for i := 0 to |tagIds|
      invariant TagsAllowed(before.tags, user, tagIds[..i])
      invariant pg.db == WithTags(before, rid, item, TagSet(tagIds[..i]))
    {
      var tag := tagIds[i];
      if tag !in pg.db.tags || pg.db.tags[tag].owner != user {
        return false;
      }
      var tags := pg.db.rows[rid].items[item].tags;
      if tag in tags {
        return false;
      }
      pg.db := WithTags(pg.db, rid, item, tags + {tag});
      TagAdded(before, rid, item, tagIds, i);
    }
    assert tagIds[..|tagIds|] == tagIds;
    ok := true;
  }

  lemma TagAdded(db: Db, rid: nat, item: nat, tagIds: seq<nat>, i: nat)
    requires rid in db.rows && item in db.rows[rid].items && i < |tagIds|
    ensures TagSet(tagIds[..i + 1]) == TagSet(tagIds[..i]) + {tagIds[i]}
    ensures WithTags(WithTags(db, rid, item, TagSet(tagIds[..i])), rid, item, TagSet(tagIds[..i + 1]))
         == WithTags(db, rid, item, TagSet(tagIds[..i + 1]))
  {
    assert tagIds[..i + 1] == tagIds[..i] + [tagIds[i]];
    var items: map<nat, Item>, now, then' := db.rows[rid].items, TagSet(tagIds[..i]), TagSet(tagIds[..i + 1]);
    assert items[item := items[item].(tags := now)][item := items[item].(tags := then')]
        == items[item := items[item].(tags := then')];
    SetItemsTwice(db, rid, items[item := items[item].(tags := now)], db.nextItem,
                  items[item := items[item].(tags := then')], db.nextItem);
  }

  /** Only the last of two writes to a receipt's items shows. */
  lemma SetItemsTwice(db: Db, rid: nat, items: map<nat, Item>, next: nat, items': map<nat, Item>, next': nat)
    requires rid in db.rows
    ensures SetItems(SetItems(db, rid, items, next), rid, items', next') == SetItems(db, rid, items', next')
  {
  }

  lemma SetItemsSame(db: Db, rid: nat)
    requires rid in db.rows
    ensures SetItems(db, rid, db.rows[rid].items, db.nextItem) == db
  {
    assert db.rows[rid := db.rows[rid]] == db.rows;
  }

  /** Storing an item and then setting its tags stores it with those tags. */
  lemma TagsReplaced(db: Db, rid: nat, item: nat, stored: Item, tags: set<nat>, next: nat)
    requires rid in db.rows
    ensures WithTags(SetItems(db, rid, db.rows[rid].items[item := stored], next), rid, item, tags)
         == SetItems(db, rid, db.rows[rid].items[item := stored.(tags := tags)], next)
  {
    var items: map<nat, Item> := db.rows[rid].items;
    assert items[item := stored][item := stored.(tags := tags)] == items[item := stored.(tags := tags)];
    SetItemsTwice(db, rid, items[item := stored], next, items[item := stored.(tags := tags)], next);
  }

  /** Adds one item to a receipt of the given kind; refused, it leaves a transaction to roll back. */
  method Insert(pg: Postgres, user: nat, rid: nat, kind: Kind, input: ItemInput) returns (ok: bool)
    requires rid in pg.db.rows
    modifies pg
    ensures ok == ItemAllowed(old(pg.db), user, kind, input)
    ensures ok ==> pg.db == SetItems(old(pg.db), rid, old(pg.db).rows[rid].items[old(pg.db).nextItem := Stored(input)],
                                     old(pg.db).nextItem + 1)
  {
    if input.categoryId.Some? {
      var fits := RequireCategoryFitsKind(pg, user, input.categoryId.value, kind);
      if !fits {
        return false;
      }
    }
    var db, item := pg.db, pg.db.nextItem;
    pg.db := SetItems(db, rid, db.rows[rid].items[item := Stored(input).(tags := {})], item + 1);
    TagsReplaced(db, rid, item, Stored(input).(tags := {}), TagSet(input.tagIds), item + 1);
    ok := ReplaceTags(pg, user, rid, item, input.tagIds);
  }

  method Create(pg: Postgres, user: nat, rid: nat, input: ItemInput) returns (ok: bool)
    modifies pg
    ensures ok == CreateItem(old(pg.db), user, rid, input).Some?
    ensures pg.db == Outcome(old(pg.db), CreateItem(old(pg.db), user, rid, input))
  {
    var before := pg.db;
    if rid !in pg.db.rows || pg.db.rows[rid].owner != user {
      return false;
    }
    ok := Insert(pg, user, rid, pg.db.rows[rid].rec.kind, input);
    if !ok {
      pg.db := before;
    }
  }

  method Update(pg: Postgres, user: nat, rid: nat, item: nat, patch: ItemPatch) returns (ok: bool)
    modifies pg
    ensures ok == UpdateItem(old(pg.db), user, rid, item, patch).Some?
    ensures pg.db == Outcome(old(pg.db), UpdateItem(old(pg.db), user, rid, item, patch))
  {
    var before := pg.db;
    if rid !in pg.db.rows || pg.db.rows[rid].owner != user || item !in pg.db.rows[rid].items {
      return false;
    }
    var kind, current := pg.db.rows[rid].rec.kind, pg.db.rows[rid].items[item];
    var parsed := ApplyItemPatch(AsInput(current, []), patch);
    if parsed.None? {
      return false;
    }
    var input := parsed.value;
    if patch.categoryId.Given? && input.categoryId.Some? {
      var fits := RequireCategoryFitsKind(pg, user, input.categoryId.value, kind);
      if !fits {
        return false;
      }
    }
    pg.db := SetItems(before, rid, before.rows[rid].items[item := Stored(input).(tags := current.tags)], before.nextItem);
    ok := true;
    if patch.tagIds.Given? {
      TagsReplaced(before, rid, item, Stored(input).(tags := current.tags), TagSet(input.tagIds), before.nextItem);
      ok := ReplaceTags(pg, user, rid, item, input.tagIds);
      if !ok {
        pg.db := before;
      }
    }
  }

  method Remove(pg: Postgres, user: nat, rid: nat, item: nat) returns (ok: bool)
    modifies pg
    ensures ok == RemoveItem(old(pg.db), user, rid, item).Some?
    ensures pg.db == Outcome(old(pg.db), RemoveItem(old(pg.db), user, rid, item))
  {
    if rid !in pg.db.rows || pg.db.rows[rid].owner != user || item !in pg.db.rows[rid].items {
      return false;
    }
    pg.db := SetItems(pg.db, rid, pg.db.rows[rid].items - {item}, pg.db.nextItem);
    ok := true;
  }

  lemma OneMoreNumbered(items: map<nat, Item>, inputs: seq<ItemInput>, next: nat, i: nat)
    requires i < |inputs|
    ensures (items + Numbered(inputs[..i], next))[next + i := Stored(inputs[i])] == items + Numbered(inputs[..i + 1], next)
  {
  }

  /** The tables once the first i of the inputs are in. */
  function Inserted(db: Db, rid: nat, inputs: seq<ItemInput>, i: nat): Db
    requires rid in db.rows && i <= |inputs|
  {
    SetItems(db, rid, db.rows[rid].items + Numbered(inputs[..i], db.nextItem), db.nextItem + i)
  }

  lemma NoneInserted(db: Db, rid: nat, inputs: seq<ItemInput>)
    requires rid in db.rows
    ensures Inserted(db, rid, inputs, 0) == db
  {
    assert db.rows[rid].items + map[] == db.rows[rid].items;
    SetItemsSame(db, rid);
  }

  lemma OneMoreInserted(db: Db, rid: nat, inputs: seq<ItemInput>, i: nat)
    requires rid in db.rows && i < |inputs|
    ensures var now := Inserted(db, rid, inputs, i);
      SetItems(now, rid, now.rows[rid].items[now.nextItem := Stored(inputs[i])], now.nextItem + 1)
      == Inserted(db, rid, inputs, i + 1)
  {
    var items: map<nat, Item> := db.rows[rid].items;
    OneMoreNumbered(items, inputs, db.nextItem, i);
    SetItemsTwice(db, rid, items + Numbered(inputs[..i], db.nextItem), db.nextItem + i,
                  items + Numbered(inputs[..i + 1], db.nextItem), db.nextItem + i + 1);
  }

  /** Inserts a list of items in order, stopping at the first that is refused. */
  method InsertAll(pg: Postgres, user: nat, rid: nat, kind: Kind, inputs: seq<ItemInput>) returns (ok: bool)
    requires rid in pg.db.rows
    modifies pg
    ensures ok == AllAllowed(old(pg.db), user, kind, inputs)
    ensures ok ==> pg.db == SetItems(old(pg.db), rid, old(pg.db).rows[rid].items + Numbered(inputs, old(pg.db).nextItem),
                                     old(pg.db).nextItem + |inputs|)
  {
    ghost var before := pg.db;
    NoneInserted(before, rid, inputs);
    for i := 0 to |inputs|
      invariant forall j :: 0 <= j < i ==> ItemAllowed(before, user, kind, inputs[j])
      invariant pg.db == Inserted(before, rid, inputs, i)
    {
      SameReferences(before, pg.db, user, kind, inputs[i]);
      ok := Insert(pg, user, rid, kind, inputs[i]);
      if !ok {
        return;
      }
      OneMoreInserted(before, rid, inputs, i);
    }
    assert inputs[..|inputs|] == inputs;
    ok := true;
  }

  /** Item writes never change what later items are allowed. */
  lemma SameReferences(db: Db, db': Db, user: nat, kind: Kind, input: ItemInput)
    requires db'.cats == db.cats && db'.tags == db.tags
    ensures ItemAllowed(db', user, kind, input) == ItemAllowed(db, user, kind, input)
  {
  }

  lemma SameReferencesAll(db: Db, db': Db, user: nat, kind: Kind, inputs: seq<ItemInput>)
    requires db'.cats == db.cats && db'.tags == db.tags
    ensures AllAllowed(db', user, kind, inputs) == AllAllowed(db, user, kind, inputs)
  {
    forall i | 0 <= i < |inputs| ensures ItemAllowed(db', user, kind, inputs[i]) == ItemAllowed(db, user, kind, inputs[i]) {
      SameReferences(db, db', user, kind, inputs[i]);
    }
  }
}
