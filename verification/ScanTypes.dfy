/** What a scan provider returns, and how the worker reads it: usability, name resolution against the
    user's own lists, and the comparison with a reviewed receipt. */
module ScanTypes {
  import opened Basics
  import opened Kinds
  import opened LedgerInput

  datatype ScannedItem = ScannedItem(
    name: Option<string>,
    quantity: Option<real>,
    unitPriceCents: Option<int>,
    amountCents: int,
    category: Option<string>,
    informational: bool,
    tags: seq<string>)

  /** `kind` is the provider's own word; `purchaseDate` is Malformed when it is no calendar date. */
  datatype ScanResult = ScanResult(
    kind: string,
    currency: string,
    totalCents: int,
    merchant: Option<string>,
    storeNameRaw: Option<string>,
    purchaseDate: Field<Day>,
    items: seq<ScannedItem>)

  datatype CategoryRef = CategoryRef(id: nat, name: string, isIncome: bool)

  datatype TagRef = TagRef(id: nat, name: string)

  datatype Taxonomy = Taxonomy(categories: seq<CategoryRef>, tags: seq<TagRef>)

  /** `similarity` stands for the merchant matcher; durations are in clock ticks. */
  datatype Config = Config(
    concurrency: int,
    maxScanAttempts: int,
    maxReclaims: int,
    reclaimAfter: int,
    matchDateDays: int,
    merchantMatchThreshold: real,
    similarity: (string, string) -> real)

  // ---- usability ----

  predicate Extractable(kindName: string) {
    FindKind(kindName).Some? && RulesFor(FindKind(kindName).value).scannable
  }

  predicate UsableItem(item: ScannedItem) {
    && item.amountCents >= 0
    && (item.unitPriceCents.Some? ==> item.unitPriceCents.value >= 0)
    && (item.quantity.Some? ==> item.quantity.value > 0.0)
  }

  predicate CurrencyCode(s: string) {
    |s| == 3 && forall i :: 0 <= i < 3 ==> 'a' <= s[i] <= 'z' || 'A' <= s[i] <= 'Z'
  }

  /** validateResult: None is a ScanError; otherwise the result with its currency upper-cased. */
  function ValidateResult(result: ScanResult, verifying: bool): Option<ScanResult> {
    if !verifying && !Extractable(result.kind) then None
    else if result.totalCents < 0 then None
    else if exists i :: 0 <= i < |result.items| && !UsableItem(result.items[i]) then None
    else if !CurrencyCode(result.currency) || result.purchaseDate.Malformed? then None
    else Some(result.(currency := Upper(result.currency)))
  }

  function DateOf(result: ScanResult): Option<Day> {
    if result.purchaseDate.Given? then Some(result.purchaseDate.value) else None
  }

  // ---- name resolution ----

  /** The first category on the given side with that name, ignoring case. */
  function FindCategory(refs: seq<CategoryRef>, incomeSide: bool, name: string): Option<nat> {
    if refs == [] then None
    else if refs[0].isIncome == incomeSide && Lower(refs[0].name) == Lower(name) then Some(refs[0].id)
    else FindCategory(refs[1..], incomeSide, name)
  }

  function AddTag(found: seq<nat>, refs: seq<TagRef>, name: string): seq<nat> {
    if refs == [] then found
    else
      var rest := AddTag(found, refs[..|refs| - 1], name);
      var ref := refs[|refs| - 1];
      if Lower(ref.name) == Lower(name) && ref.id !in rest then rest + [ref.id] else rest
  }

  /** Tag names, in order, to the ids of the user's tags; unknown names are dropped. */
  function FindTags(names: seq<string>, refs: seq<TagRef>): seq<nat> {
    if names == [] then [] else AddTag(FindTags(names[..|names| - 1], refs), refs, names[|names| - 1])
  }

  function ToItemInput(scanned: ScannedItem, kind: Kind, taxonomy: Taxonomy): ItemInput {
    var category := if scanned.category.None? then None
                    else FindCategory(taxonomy.categories, RulesFor(kind).usesIncomeCategories, scanned.category.value);
    ItemInput(scanned.name, scanned.quantity, scanned.unitPriceCents, scanned.amountCents, category,
              scanned.informational, FindTags(scanned.tags, taxonomy.tags))
  }

  function ToItemInputs(scanned: seq<ScannedItem>, kind: Kind, taxonomy: Taxonomy): seq<ItemInput> {
    seq(|scanned|, i requires 0 <= i < |scanned| => ToItemInput(scanned[i], kind, taxonomy))
  }

  predicate Distinct<T(==)>(s: seq<T>) {
    forall i, j :: 0 <= i < j < |s| ==> s[i] != s[j]
  }

  predicate TagNamed(refs: seq<TagRef>, id: nat, name: string) {
    exists k :: 0 <= k < |refs| && refs[k].id == id && Lower(refs[k].name) == Lower(name)
  }

  lemma {:induction false} AddTagMeaning(found: seq<nat>, refs: seq<TagRef>, name: string, id: nat)
    requires Distinct(found)
    ensures Distinct(AddTag(found, refs, name))
    ensures id in AddTag(found, refs, name) <==> id in found || TagNamed(refs, id, name)
  {
    if refs != [] {
      var front := refs[..|refs| - 1];
      AddTagMeaning(found, front, name, id);
      assert TagNamed(refs, id, name) <==>
        TagNamed(front, id, name) || (refs[|refs| - 1].id == id && Lower(refs[|refs| - 1].name) == Lower(name)) by {
        if TagNamed(front, id, name) {
          var k :| 0 <= k < |front| && front[k].id == id && Lower(front[k].name) == Lower(name);
          assert refs[k] == front[k];
        }
      }
    }
  }

  /** A scanned item's tags are exactly the user's tags it names, each once. */
  lemma {:induction false} FindTagsMeaning(names: seq<string>, refs: seq<TagRef>, id: nat)
    ensures Distinct(FindTags(names, refs))
    ensures id in FindTags(names, refs) <==>
            exists n :: 0 <= n < |names| && TagNamed(refs, id, names[n])
  {
    if names != [] {
      var front := names[..|names| - 1];
      FindTagsMeaning(front, refs, id);
      AddTagMeaning(FindTags(front, refs), refs, names[|names| - 1], id);
      if exists n :: 0 <= n < |front| && TagNamed(refs, id, front[n]) {
        var n :| 0 <= n < |front| && TagNamed(refs, id, front[n]);
        assert names[n] == front[n];
      }
    }
  }

  /** A resolved category is one of the user's, on the kind's side, and bears the scanned name;
      nothing is found only when there is no such category. */
  lemma {:induction false} FindCategoryMeaning(refs: seq<CategoryRef>, incomeSide: bool, name: string)
    ensures FindCategory(refs, incomeSide, name).Some? ==>
      exists k :: 0 <= k < |refs| && refs[k].isIncome == incomeSide && Lower(refs[k].name) == Lower(name)
                  && FindCategory(refs, incomeSide, name) == Some(refs[k].id)
    ensures FindCategory(refs, incomeSide, name).None? ==>
      forall k :: 0 <= k < |refs| ==> refs[k].isIncome != incomeSide || Lower(refs[k].name) != Lower(name)
  {
    if refs != [] && !(refs[0].isIncome == incomeSide && Lower(refs[0].name) == Lower(name)) {
      FindCategoryMeaning(refs[1..], incomeSide, name);
      var found := FindCategory(refs[1..], incomeSide, name);
      if found.Some? {
        var k :| 0 <= k < |refs[1..]| && refs[1..][k].isIncome == incomeSide
                 && Lower(refs[1..][k].name) == Lower(name) && found == Some(refs[1..][k].id);
        assert refs[k + 1] == refs[1..][k];
      } else {
        forall k | 0 <= k < |refs| ensures refs[k].isIncome != incomeSide || Lower(refs[k].name) != Lower(name) {
          if k > 0 { assert refs[k] == refs[1..][k - 1]; }
        }
      }
    }
  }

  // ---- comparison with a reviewed receipt ----

  /** The best similarity the code arrives at: the scanned merchant's, improved by the raw store
      name's only when the merchant alone falls short. */
  function BestSimilarity(c: Config, recorded: string, merchant: Option<string>, store: Option<string>): real {
    var first := if merchant.Some? then c.similarity(recorded, merchant.value) else 0.0;
    if store.Some? && first < c.merchantMatchThreshold then
      var second := c.similarity(recorded, store.value);
      if second > first then second else first
    else first
  }

  predicate AllMatch(c: Config, total: int, currency: string, date: Option<Day>, merchant: Option<string>,
                     result: ScanResult)
  {
    && result.totalCents == total
    && result.currency == currency
    && (date.Some? && DateOf(result).Some? ==> Abs(DateOf(result).value - date.value) <= c.matchDateDays)
    && (merchant.Some? && (result.merchant.Some? || result.storeNameRaw.Some?) ==>
          BestSimilarity(c, merchant.value, result.merchant, result.storeNameRaw) >= c.merchantMatchThreshold)
  }

  /** Skipping the second query never changes the verdict: the merchant test passes exactly when one of
      the names the scan gave reaches the threshold, or it gave no merchant and the threshold is not
      positive (the similarity starts out at zero). */
  lemma MerchantTestMeaning(c: Config, recorded: string, merchant: Option<string>, store: Option<string>)
    ensures BestSimilarity(c, recorded, merchant, store) >= c.merchantMatchThreshold <==>
            || (merchant.Some? && c.similarity(recorded, merchant.value) >= c.merchantMatchThreshold)
            || (store.Some? && c.similarity(recorded, store.value) >= c.merchantMatchThreshold)
            || (merchant.None? && c.merchantMatchThreshold <= 0.0)
  {
  }

  // ---- what the checks mean, field by field ----

  /** What a result must be like to be used, and all that is changed of it: the case of its currency. */
  lemma ValidateMeaning(result: ScanResult, verifying: bool, valid: ScanResult)
    ensures ValidateResult(result, verifying) == Some(valid) <==>
            && (verifying || result.kind in {"purchase", "refund", "reimbursement", "income"})
            && result.totalCents >= 0
            && (forall i :: 0 <= i < |result.items| ==>
                  && result.items[i].amountCents >= 0
                  && (result.items[i].unitPriceCents.Some? ==> result.items[i].unitPriceCents.value >= 0)
                  && (result.items[i].quantity.Some? ==> result.items[i].quantity.value > 0.0))
            && !result.purchaseDate.Malformed?
            && |result.currency| == 3 && |valid.currency| == 3
            && (forall i :: 0 <= i < 3 ==> 'A' <= valid.currency[i] <= 'Z' && SameLetter(result.currency[i], valid.currency[i]))
            && valid == result.(currency := valid.currency)
  {
    ExtractableMeaning(result.kind);
    CurrencyMeaning(result.currency, valid.currency);
    UsableMeaning(result.items);
  }

  lemma ExtractableMeaning(name: string)
    ensures Extractable(name) <==> name in {"purchase", "refund", "reimbursement", "income"}
  {
    FindKindInvertsNames(name, Purchase);
    FindKindInvertsNames(name, Refund);
    FindKindInvertsNames(name, Reimbursement);
    FindKindInvertsNames(name, Income);
    FindKindInvertsNames(name, Transfer);
  }

  lemma CurrencyMeaning(s: string, u: string)
    ensures CurrencyCode(s) && u == Upper(s) <==>
            |s| == 3 && |u| == 3 && forall i :: 0 <= i < 3 ==> 'A' <= u[i] <= 'Z' && SameLetter(s[i], u[i])
  {
    if |s| == 3 && |u| == 3 && (forall i :: 0 <= i < 3 ==> 'A' <= u[i] <= 'Z' && SameLetter(s[i], u[i])) {
      forall i | 0 <= i < 3 ensures Upper(s)[i] == u[i] {
        assert 'A' <= u[i] <= 'Z' && SameLetter(s[i], u[i]);
      }
      forall i | 0 <= i < 3 ensures 'a' <= s[i] <= 'z' || 'A' <= s[i] <= 'Z' {
        assert 'A' <= u[i] <= 'Z' && SameLetter(s[i], u[i]);
      }
    }
  }

  lemma UsableMeaning(items: seq<ScannedItem>)
    ensures (exists i :: 0 <= i < |items| && !UsableItem(items[i])) <==>
            !(forall i :: 0 <= i < |items| ==>
                && items[i].amountCents >= 0
                && (items[i].unitPriceCents.Some? ==> items[i].unitPriceCents.value >= 0)
                && (items[i].quantity.Some? ==> items[i].quantity.value > 0.0))
  {
    if forall i :: 0 <= i < |items| ==> UsableItem(items[i]) {
      forall i | 0 <= i < |items|
        ensures items[i].amountCents >= 0
        ensures items[i].unitPriceCents.Some? ==> items[i].unitPriceCents.value >= 0
        ensures items[i].quantity.Some? ==> items[i].quantity.value > 0.0
      {
        assert UsableItem(items[i]);
      }
    }
  }

  /** A scan agrees with a reviewed receipt exactly when total and currency are the same, the dates, if
      both are there, are close enough, and the merchant, if both sides have one, is similar enough. */
  lemma AgreementMeaning(c: Config, total: int, currency: string, date: Option<Day>, merchant: Option<string>, result: ScanResult)
    ensures AllMatch(c, total, currency, date, merchant, result) <==>
            && result.totalCents == total
            && result.currency == currency
            && (date.Some? && result.purchaseDate.Given? ==>
                  -c.matchDateDays <= result.purchaseDate.value - date.value <= c.matchDateDays)
            && (merchant.Some? && (result.merchant.Some? || result.storeNameRaw.Some?) ==>
                  || (result.merchant.Some? && c.similarity(merchant.value, result.merchant.value) >= c.merchantMatchThreshold)
                  || (result.storeNameRaw.Some? && c.similarity(merchant.value, result.storeNameRaw.value) >= c.merchantMatchThreshold)
                  || (result.merchant.None? && c.merchantMatchThreshold <= 0.0))
  {
    if merchant.Some? { MerchantTestMeaning(c, merchant.value, result.merchant, result.storeNameRaw); }
  }

  /** A scanned item is taken over as it is; its category becomes one of the user's on the kind's side with
      that name, if there is one, and its tags become those of the user's that it names. */
  lemma ItemInputMeaning(scanned: ScannedItem, kind: Kind, taxonomy: Taxonomy)
    ensures var input := ToItemInput(scanned, kind, taxonomy);
      && input.name == scanned.name && input.quantity == scanned.quantity && input.unitPriceCents == scanned.unitPriceCents
      && input.amountCents == scanned.amountCents && input.informational == scanned.informational
      && (input.categoryId.Some? <==> scanned.category.Some? && exists k :: NamesCategory(taxonomy, kind, scanned.category.value, k))
      && (input.categoryId.Some? ==>
            exists k :: NamesCategory(taxonomy, kind, scanned.category.value, k) && input.categoryId == Some(taxonomy.categories[k].id))
      && (forall id :: id in input.tagIds <==>
            exists n :: 0 <= n < |scanned.tags| && TagNamed(taxonomy.tags, id, scanned.tags[n]))
      && Distinct(input.tagIds)
  {
    if scanned.category.Some? {
      CategoryIsNamed(scanned.category.value, kind, taxonomy);
    }
    FindTagsMeaning(scanned.tags, taxonomy.tags, 0);
    forall id ensures id in FindTags(scanned.tags, taxonomy.tags) <==>
                      exists n :: 0 <= n < |scanned.tags| && TagNamed(taxonomy.tags, id, scanned.tags[n])
    {
      FindTagsMeaning(scanned.tags, taxonomy.tags, id);
    }
  }

  /** The k-th category is on the kind's side and has the name. */
  predicate NamesCategory(taxonomy: Taxonomy, kind: Kind, name: string, k: int) {
    && 0 <= k < |taxonomy.categories|
    && (taxonomy.categories[k].isIncome <==> kind == Income)
    && Lower(taxonomy.categories[k].name) == Lower(name)
  }

  lemma CategoryIsNamed(name: string, kind: Kind, taxonomy: Taxonomy)
    ensures var found := FindCategory(taxonomy.categories, RulesFor(kind).usesIncomeCategories, name);
      && (found.Some? <==> exists k :: NamesCategory(taxonomy, kind, name, k))
      && (found.Some? ==> exists k :: NamesCategory(taxonomy, kind, name, k) && found == Some(taxonomy.categories[k].id))
  {
    TableMeaning(kind);
    var refs, side := taxonomy.categories, RulesFor(kind).usesIncomeCategories;
    FindCategoryMeaning(refs, side, name);
    if FindCategory(refs, side, name).Some? {
      var k :| 0 <= k < |refs| && refs[k].isIncome == side && Lower(refs[k].name) == Lower(name)
               && FindCategory(refs, side, name) == Some(refs[k].id);
      assert NamesCategory(taxonomy, kind, name, k);
    }
  }
}
