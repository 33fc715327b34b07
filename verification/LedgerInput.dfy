/** Manual entry and receipt edits: decoded request bodies applied to the editable part of a receipt,
    and the rules that need no database. */
module LedgerInput {
  import opened Basics
  import opened Kinds

  type Day = int

  datatype Editable = Editable(
    kind: Kind,
    direction: Direction,
    totalCents: int,
    currency: string,
    merchant: Option<string>,
    storeNameRaw: Option<string>,
    purchaseDate: Option<Day>,
    paymentMethodId: Option<nat>,
    taxDeductible: bool,
    note: Option<string>,
    offsetsReceiptId: Option<nat>,
    fxRateToAud: Option<real>)

  datatype ItemInput = ItemInput(
    name: Option<string>,
    quantity: Option<real>,
    unitPriceCents: Option<int>,
    amountCents: int,
    categoryId: Option<nat>,
    informational: bool,
    tagIds: seq<nat>)

  /** A PATCH body after its keys were decoded. `reviewed` is the decoded boolean. */
  datatype ReceiptPatch = ReceiptPatch(
    kind: Field<Kind>,
    direction: Field<Direction>,
    totalCents: Field<nat>,
    currency: Field<string>,
    merchant: Field<Option<string>>,
    storeNameRaw: Field<Option<string>>,
    purchaseDate: Field<Option<Day>>,
    paymentMethodId: Field<Option<nat>>,
    taxDeductible: Field<bool>,
    note: Field<Option<string>>,
    offsetsReceiptId: Field<Option<nat>>,
    fxRateToAud: Field<Option<real>>,
    reviewed: Field<bool>)

  /** A manual-entry body: the PATCH keys it shares, plus its category shortcut and its items. */
  datatype ManualBody = ManualBody(
    fields: ReceiptPatch,
    categoryId: Field<Option<nat>>,
    items: Field<seq<ItemInput>>)

  datatype ManualEntry = ManualEntry(receipt: Editable, items: seq<ItemInput>)

  datatype ItemPatch = ItemPatch(
    name: Field<Option<string>>,
    quantity: Field<Option<real>>,
    unitPriceCents: Field<Option<int>>,
    amountCents: Field<nat>,
    categoryId: Field<Option<nat>>,
    informational: Field<bool>,
    tagIds: Field<seq<nat>>)

  function SetIfPresent<T>(field: Field<T>, current: T): T {
    if field.Given? then field.value else current
  }

  predicate WellFormedPatch(p: ReceiptPatch) {
    && !p.kind.Malformed? && !p.direction.Malformed? && !p.totalCents.Malformed? && !p.currency.Malformed?
    && !p.merchant.Malformed? && !p.storeNameRaw.Malformed? && !p.purchaseDate.Malformed?
    && !p.paymentMethodId.Malformed? && !p.taxDeductible.Malformed? && !p.note.Malformed?
    && !p.offsetsReceiptId.Malformed? && !p.fxRateToAud.Malformed?
    && p.reviewed in {Absent, Given(true)}
  }

  function ApplyCommonFields(r: Editable, p: ReceiptPatch): Editable {
    r.(totalCents := SetIfPresent(p.totalCents, r.totalCents),
       currency := SetIfPresent(p.currency, r.currency),
       merchant := SetIfPresent(p.merchant, r.merchant),
       purchaseDate := SetIfPresent(p.purchaseDate, r.purchaseDate),
       paymentMethodId := SetIfPresent(p.paymentMethodId, r.paymentMethodId),
       taxDeductible := SetIfPresent(p.taxDeductible, r.taxDeductible),
       note := SetIfPresent(p.note, r.note),
       offsetsReceiptId := SetIfPresent(p.offsetsReceiptId, r.offsetsReceiptId),
       fxRateToAud := SetIfPresent(p.fxRateToAud, r.fxRateToAud))
  }

  /** The DB-free rules on a fully merged receipt. */
  predicate ValidReceipt(r: Editable) {
    var rules := RulesFor(r.kind);
    && (rules.canonicalDirection.Some? ==> rules.canonicalDirection.value == r.direction)
    && (r.taxDeductible ==> rules.allowsTaxDeductible)
    && (r.offsetsReceiptId.Some? ==> rules.canOffset)
    && FxRuleHolds(r)
  }

  predicate FxRuleHolds(r: Editable) {
    r.fxRateToAud.Some? ==> r.currency != "AUD"
  }

  /** The kind and direction a patch leaves: an explicit direction wins; a new kind without one
      re-derives it for the fixed kinds and keeps the current one for a transfer. */
  function PatchKindDirection(r: Editable, p: ReceiptPatch): Editable {
    var kind := SetIfPresent(p.kind, r.kind);
    var canonical := RulesFor(kind).canonicalDirection;
    var derived := if p.kind.Given? && p.direction.Absent? && canonical.Some? then canonical.value else r.direction;
    r.(kind := kind, direction := SetIfPresent(p.direction, derived))
  }

  /** applyReceiptPatch: the edited receipt and whether it was marked reviewed, or None (rejected). */
  function ApplyReceiptPatch(r: Editable, p: ReceiptPatch): Option<(Editable, bool)> {
    if !WellFormedPatch(p) then None
    else
      var kinded := PatchKindDirection(r, p);
      var named := kinded.(storeNameRaw := SetIfPresent(p.storeNameRaw, kinded.storeNameRaw));
      var merged := ApplyCommonFields(named, p);
      if ValidReceipt(merged) then Some((merged, p.reviewed.Given?)) else None
  }

  /** Accepting a body once means accepting it again, with nothing left to change. */
  lemma PatchIsIdempotent(r: Editable, p: ReceiptPatch)
    requires ApplyReceiptPatch(r, p).Some?
    ensures ApplyReceiptPatch(ApplyReceiptPatch(r, p).value.0, p) == ApplyReceiptPatch(r, p)
  {
    assert p.kind.Given? ==> ApplyReceiptPatch(r, p).value.0.kind == p.kind.value;
  }

  /** A patch that only names a fixed kind is accepted exactly when the receipt's other fields suit
      that kind, and then the direction is the kind's own whatever it was before. */
  lemma KindOnlyPatch(r: Editable, kind: Kind, p: ReceiptPatch)
    requires p == ReceiptPatch(Given(kind), Absent, Absent, Absent, Absent, Absent, Absent, Absent, Absent, Absent,
                               Absent, Absent, Absent)
    ensures ApplyReceiptPatch(r, p).Some? <==>
            && (r.taxDeductible ==> kind == Purchase)
            && (r.offsetsReceiptId.Some? ==> kind in {Refund, Reimbursement})
            && FxRuleHolds(r)
    ensures ApplyReceiptPatch(r, p).Some? ==>
            && ChkDirectionByKind(kind, ApplyReceiptPatch(r, p).value.0.direction)
            && (kind == Transfer ==> ApplyReceiptPatch(r, p).value.0.direction == r.direction)
  {
  }

  const BLANK_RECEIPT: Editable :=
    Editable(DEFAULT_KIND, Outflow, 0, "AUD", None, None, None, None, false, None, None, None)

  /** parseManualEntry: None is a rejected body. */
  function ParseManualEntry(body: ManualBody): Option<ManualEntry> {
    var f := body.fields;
    if !WellFormedPatch(f) || f.storeNameRaw.Given? || f.reviewed.Given? || body.categoryId.Malformed? || body.items.Malformed?
       || !f.totalCents.Given?
    then None
    else
      var category := SetIfPresent(body.categoryId, None);
      var kind := SetIfPresent(f.kind, DEFAULT_KIND);
      var canonical := RulesFor(kind).canonicalDirection;
      if f.direction.Absent? && canonical.None? then None
      else if body.items.Given? && category.Some? then None
      else
        var direction := if f.direction.Given? then f.direction.value else canonical.value;
        var r := ApplyCommonFields(BLANK_RECEIPT.(kind := kind), f).(direction := direction);
        if !ValidReceipt(r) then None
        else if body.items.Given? && body.items.value != [] then Some(ManualEntry(r, body.items.value))
        else Some(ManualEntry(r, [ItemInput(r.merchant, None, None, r.totalCents, category, false, [])]))
  }

  /** applyItemPatch on the stored fields; None is a rejected body. */
  function ApplyItemPatch(item: ItemInput, p: ItemPatch): Option<ItemInput> {
    if p.name.Malformed? || p.quantity.Malformed? || p.unitPriceCents.Malformed? || p.amountCents.Malformed?
       || p.categoryId.Malformed? || p.informational.Malformed? || p.tagIds.Malformed?
    then None
    else Some(ItemInput(
                SetIfPresent(p.name, item.name),
                SetIfPresent(p.quantity, item.quantity),
                SetIfPresent(p.unitPriceCents, item.unitPriceCents),
                SetIfPresent(p.amountCents, item.amountCents),
                SetIfPresent(p.categoryId, item.categoryId),
                SetIfPresent(p.informational, item.informational),
                SetIfPresent(p.tagIds, item.tagIds)))
  }

  /** The AUD equivalent of a total under a user-entered rate. */
  function AudEquivalentCents(totalCents: int, fxRateToAud: Option<real>): Option<int> {
    if fxRateToAud.None? then None else Some(LlRound(totalCents as real * fxRateToAud.value))
  }

  // ---- what the requests mean, key by key ----

  /** A given key replaces what was there, a missing one leaves it. */
  predicate Takes<T(==)>(field: Field<T>, before: T, after: T) {
    match field
    case Absent => after == before
    case Malformed => false
    case Given(v) => after == v
  }

  /** The direction a fixed kind has; a transfer may have either. */
  predicate DirectionOf(kind: Kind, direction: Direction) {
    match kind
    case Purchase => direction == Outflow
    case Transfer => true
    case _ => direction == Inflow
  }

  /** The rules on a whole receipt that need no database, in its own fields. */
  predicate Admissible(e: Editable) {
    && DirectionOf(e.kind, e.direction)
    && (e.taxDeductible ==> e.kind == Purchase)
    && (e.offsetsReceiptId.Some? ==> e.kind == Refund || e.kind == Reimbursement)
    && (e.fxRateToAud.Some? ==> e.currency != "AUD")
  }

  /** e is r with each key of the body in the field of its name. A direction that is not given stays,
      unless the body names a fixed kind, whose direction it then is. */
  predicate Patched(r: Editable, p: ReceiptPatch, e: Editable) {
    && Takes(p.kind, r.kind, e.kind)
    && (match p.direction
        case Given(d) => e.direction == d
        case Malformed => false
        case Absent => if p.kind.Given? && e.kind != Transfer then DirectionOf(e.kind, e.direction)
                       else e.direction == r.direction)
    && Takes(p.totalCents, r.totalCents, e.totalCents)
    && Takes(p.currency, r.currency, e.currency)
    && Takes(p.merchant, r.merchant, e.merchant)
    && Takes(p.storeNameRaw, r.storeNameRaw, e.storeNameRaw)
    && Takes(p.purchaseDate, r.purchaseDate, e.purchaseDate)
    && Takes(p.paymentMethodId, r.paymentMethodId, e.paymentMethodId)
    && Takes(p.taxDeductible, r.taxDeductible, e.taxDeductible)
    && Takes(p.note, r.note, e.note)
    && Takes(p.offsetsReceiptId, r.offsetsReceiptId, e.offsetsReceiptId)
    && Takes(p.fxRateToAud, r.fxRateToAud, e.fxRateToAud)
  }

  /** A body is accepted exactly when every key can be decoded, `reviewed` is not false, and the receipt
      it makes, key by key, is admissible; and then that receipt is the outcome. */
  lemma PatchMeaning(r: Editable, p: ReceiptPatch, e: Editable, marked: bool)
    ensures ApplyReceiptPatch(r, p) == Some((e, marked)) <==>
            && Patched(r, p, e) && Admissible(e)
            && !p.reviewed.Malformed? && p.reviewed != Given(false)
            && (marked <==> p.reviewed == Given(true))
  {
    assert !p.reviewed.Malformed? && p.reviewed != Given(false) <==> p.reviewed in {Absent, Given(true)} by {
      if p.reviewed.Given? { assert p.reviewed.value == true || p.reviewed.value == false; }
    }
    if Patched(r, p, e) && p.reviewed in {Absent, Given(true)} {
      PatchedIsApplied(r, p, e);
    }
    if ApplyReceiptPatch(r, p) == Some((e, marked)) {
      AppliedIsPatched(r, p);
    }
  }

  lemma AppliedIsPatched(r: Editable, p: ReceiptPatch)
    requires ApplyReceiptPatch(r, p).Some?
    ensures Patched(r, p, ApplyReceiptPatch(r, p).value.0) && Admissible(ApplyReceiptPatch(r, p).value.0)
    ensures p.reviewed in {Absent, Given(true)} && ApplyReceiptPatch(r, p).value.1 == p.reviewed.Given?
  {
    var e := ApplyReceiptPatch(r, p).value.0;
    assert p.kind.Given? ==> e.kind == p.kind.value;
    assert p.direction.Given? ==> e.direction == p.direction.value;
  }

  lemma PatchedIsApplied(r: Editable, p: ReceiptPatch, e: Editable)
    requires Patched(r, p, e) && p.reviewed in {Absent, Given(true)}
    ensures WellFormedPatch(p)
    ensures ApplyReceiptPatch(r, p) == if Admissible(e) then Some((e, p.reviewed.Given?)) else None
  {
    var kinded := PatchKindDirection(r, p);
    var merged := ApplyCommonFields(kinded.(storeNameRaw := SetIfPresent(p.storeNameRaw, kinded.storeNameRaw)), p);
    assert merged == e;
  }

  /** An entry whose total is given: its keys in the fields of their names, with the defaults of a blank
      receipt, a purchase unless it says otherwise, and the direction of its kind; a transfer must give one. */
  predicate Entered(f: ReceiptPatch, e: Editable) {
    && f.totalCents.Given? && e.totalCents == f.totalCents.value
    && Takes(f.kind, Purchase, e.kind)
    && (match f.direction
        case Given(d) => e.direction == d
        case Malformed => false
        case Absent => e.kind != Transfer && DirectionOf(e.kind, e.direction))
    && Takes(f.currency, "AUD", e.currency)
    && Takes(f.merchant, None, e.merchant)
    && e.storeNameRaw == None && f.storeNameRaw.Absent?
    && Takes(f.purchaseDate, None, e.purchaseDate)
    && Takes(f.paymentMethodId, None, e.paymentMethodId)
    && Takes(f.taxDeductible, false, e.taxDeductible)
    && Takes(f.note, None, e.note)
    && Takes(f.offsetsReceiptId, None, e.offsetsReceiptId)
    && Takes(f.fxRateToAud, None, e.fxRateToAud)
    && f.reviewed.Absent?
  }

  /** The items listed, or one for the whole total with the merchant's name and the entry's category. */
  predicate EnteredItems(body: ManualBody, e: Editable, items: seq<ItemInput>) {
    if body.items.Given? && body.items.value != [] then items == body.items.value
    else
      && |items| == 1 && items[0].name == e.merchant && items[0].amountCents == e.totalCents
      && items[0].categoryId == (if body.categoryId.Given? then body.categoryId.value else None)
      && items[0].quantity == None && items[0].unitPriceCents == None && !items[0].informational && items[0].tagIds == []
  }

  /** A manual entry is accepted exactly when it can be decoded, does not give both items and a category,
      and is admissible. */
  lemma EntryMeaning(body: ManualBody, entry: ManualEntry)
    ensures ParseManualEntry(body) == Some(entry) <==>
            && Entered(body.fields, entry.receipt) && Admissible(entry.receipt) && EnteredItems(body, entry.receipt, entry.items)
            && !body.categoryId.Malformed? && !body.items.Malformed?
            && !(body.items.Given? && body.categoryId.Given? && body.categoryId.value.Some?)
  {
    if Entered(body.fields, entry.receipt) && EnteredItems(body, entry.receipt, entry.items) {
      EnteredIsParsed(body.fields, entry.receipt);
      if !(body.items.Given? && body.items.value != []) {
        assert entry.items == [entry.items[0]];
      }
    }
    if ParseManualEntry(body) == Some(entry) {
      ParsedIsEntered(body);
    }
  }

  lemma ParsedIsEntered(body: ManualBody)
    requires ParseManualEntry(body).Some?
    ensures var entry := ParseManualEntry(body).value;
      Entered(body.fields, entry.receipt) && Admissible(entry.receipt) && EnteredItems(body, entry.receipt, entry.items)
  {
  }

  lemma EnteredIsParsed(f: ReceiptPatch, e: Editable)
    requires Entered(f, e)
    ensures WellFormedPatch(f) && ValidReceipt(e) == Admissible(e)
    ensures var kind := SetIfPresent(f.kind, DEFAULT_KIND);
      var canonical := RulesFor(kind).canonicalDirection;
      && !(f.direction.Absent? && canonical.None?)
      && ApplyCommonFields(BLANK_RECEIPT.(kind := kind), f).(
           direction := if f.direction.Given? then f.direction.value else canonical.value) == e
  {
  }

  /** A stored item changes in exactly the fields whose keys are given. */
  lemma ItemPatchMeaning(item: ItemInput, p: ItemPatch, e: ItemInput)
    ensures ApplyItemPatch(item, p) == Some(e) <==>
            && Takes(p.name, item.name, e.name)
            && Takes(p.quantity, item.quantity, e.quantity)
            && Takes(p.unitPriceCents, item.unitPriceCents, e.unitPriceCents)
            && Takes(p.amountCents, item.amountCents, e.amountCents)
            && Takes(p.categoryId, item.categoryId, e.categoryId)
            && Takes(p.informational, item.informational, e.informational)
            && Takes(p.tagIds, item.tagIds, e.tagIds)
  {
  }

  /** The AUD equivalent is the product to the nearest cent, midpoints away from zero. */
  lemma AudEquivalentMeaning(totalCents: int, rate: real, n: int)
    ensures AudEquivalentCents(totalCents, Some(rate)) == Some(n) <==>
            var exact := totalCents as real * rate;
            || n as real - 0.5 < exact < n as real + 0.5
            || (exact > 0.0 && exact == n as real - 0.5)
            || (exact < 0.0 && exact == n as real + 0.5)
    ensures AudEquivalentCents(totalCents, None) == None
  {
    LlRoundMeaning(totalCents as real * rate, n);
  }
}
