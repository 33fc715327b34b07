/** Category fit one level down: the transactions that can break it, statement by statement, with the
    row locks they take. Item writers hold a category FOR SHARE, and when they insert, the receipt
    against kind changes too (the foreign key); updating an item locks no receipt. Kind changes hold the
    receipt FOR UPDATE and its categories FOR SHARE; flips hold the category FOR UPDATE. A scan write
    holds the receipt FOR UPDATE and, item by item, their categories FOR SHARE; so does a manual entry,
    whose receipt nobody else sees yet. Deleting a category needs it unlocked, and uncategorises. */
module CategoryLocks {
  import opened Basics
  import opened Kinds

  /** A transaction by how far it has got, with what it has read. A scan write begins with the kind it
      extracts, or none to verify; then it fills in items, in place of the receipt's own if it extracts. */
  datatype Tx =
    | ItemBegun(rid: nat, cat: nat, updates: bool)
    | ItemKindRead(rid: nat, cat: nat, updates: bool, kind: Kind)
    | ItemChecked(rid: nat, cat: nat, updates: bool, kind: Kind)
    | ItemWritten(rid: nat, cat: nat, updates: bool, kind: Kind)
    | KindBegun(rid: nat, to: Kind)
    | KindLocked(rid: nat, from: Kind, to: Kind)
    | KindChecked(rid: nat, from: Kind, to: Kind, cats: set<nat>)
    | FlipBegun(cat: nat, isIncome: bool)
    | FlipLocked(cat: nat, isIncome: bool)
    | FlipChecked(cat: nat, isIncome: bool, changes: bool)
    | ScanBegun(rid: nat, extracted: Option<Kind>)
    | ScanFilling(rid: nat, kind: Kind, anew: bool, cats: set<nat>)
    | EntryFilling(kind: Kind, cats: set<nat>)

  datatype Entry = Entry(rid: nat, cat: nat)

  /** Committed kinds, sides and categorised items, and the transactions in progress. */
  datatype State = State(kinds: map<nat, Kind>, income: map<nat, bool>, items: map<nat, Entry>, txs: map<nat, Tx>)

  datatype Action =
    | Start(t: nat, tx: Tx)
    | ReadKind(t: nat)
    | CheckCategory(t: nat)
    | WriteItem(t: nat)
    | CommitItem(t: nat, item: nat)
    | LockReceipt(t: nat)
    | CheckItems(t: nat)
    | CommitKind(t: nat)
    | LockCategory(t: nat)
    | CheckFlip(t: nat)
    | CommitFlip(t: nat)
    | LockForScan(t: nat)
    | AddScanned(t: nat, cat: nat)
    | CommitScan(t: nat, added: map<nat, nat>)
    | AddEntered(t: nat, cat: nat)
    | CommitEntry(t: nat, rid: nat, added: map<nat, nat>)
    | DropCategory(cat: nat)
    | Abort(t: nat)
    | DropItem(item: nat)

  function Side(kind: Kind): bool {
    RulesFor(kind).usesIncomeCategories
  }

  // ---- locks held ----

  function CategoryShares(tx: Tx): set<nat> {
    match tx
    case ItemChecked(_, cat, _, _) => {cat}
    case ItemWritten(_, cat, _, _) => {cat}
    case KindChecked(_, _, _, cats) => cats
    case ScanFilling(_, _, _, cats) => cats
    case EntryFilling(_, cats) => cats
    case _ => {}
  }

  function CategoryLocks(tx: Tx): set<nat> {
    match tx
    case FlipLocked(cat, _) => {cat}
    case FlipChecked(cat, _, _) => {cat}
    case _ => {}
  }

  /** The foreign key's lock on the receipt, from an insert on. */
  function ReceiptShares(tx: Tx): set<nat> {
    if tx.ItemWritten? && !tx.updates then {tx.rid} else {}
  }

  function ReceiptLocks(tx: Tx): set<nat> {
    if tx.KindLocked? || tx.KindChecked? || tx.ScanFilling? then {tx.rid} else {}
  }

  ghost predicate NoOtherLocksCategories(s: State, t: nat, cats: set<nat>) {
    forall u :: u in s.txs && u != t ==> CategoryLocks(s.txs[u]) !! cats
  }

  ghost predicate NoOtherSharesCategory(s: State, t: nat, cat: nat) {
    forall u :: u in s.txs && u != t ==> cat !in CategoryShares(s.txs[u])
  }

  ghost predicate NoOtherLocksReceipt(s: State, t: nat, rid: nat) {
    forall u :: u in s.txs && u != t ==> rid !in ReceiptLocks(s.txs[u])
  }

  ghost predicate NoOtherSharesReceipt(s: State, t: nat, rid: nat) {
    forall u :: u in s.txs && u != t ==> rid !in ReceiptShares(s.txs[u])
  }

  /** No other transaction holds an item of the receipt for an update. */
  ghost predicate NoOtherHoldsItem(s: State, t: nat, rid: nat) {
    forall u :: u in s.txs && u != t && (s.txs[u].ItemChecked? || s.txs[u].ItemWritten?) && s.txs[u].updates ==>
      s.txs[u].rid != rid
  }

  // ---- steps ----

  function CategoriesOn(s: State, rid: nat): set<nat> {
    set i | i in s.items && s.items[i].rid == rid :: s.items[i].cat
  }

  predicate FlipClashes(s: State, cat: nat, isIncome: bool) {
    exists i :: i in s.items && s.items[i].cat == cat && s.items[i].rid in s.kinds && Side(s.kinds[s.items[i].rid]) != isIncome
  }

  predicate Begins(tx: Tx) {
    tx.ItemBegun? || tx.KindBegun? || tx.FlipBegun? || tx.ScanBegun? || (tx.EntryFilling? && tx.cats == {})
  }

  ghost predicate Enabled(s: State, a: Action) {
    match a
    case Start(t, tx) => t !in s.txs && Begins(tx)
    case ReadKind(t) => t in s.txs && s.txs[t].ItemBegun? && s.txs[t].rid in s.kinds
    case CheckCategory(t) =>
      t in s.txs && s.txs[t].ItemKindRead? && s.txs[t].cat in s.income && NoOtherLocksCategories(s, t, {s.txs[t].cat})
    case WriteItem(t) =>
      t in s.txs && s.txs[t].ItemChecked? && (!s.txs[t].updates ==> NoOtherLocksReceipt(s, t, s.txs[t].rid))
    case CommitItem(t, item) =>
      t in s.txs && s.txs[t].ItemWritten?
      && (item in s.items ==> s.txs[t].updates && s.items[item].rid == s.txs[t].rid)
    case LockReceipt(t) =>
      t in s.txs && s.txs[t].KindBegun? && s.txs[t].rid in s.kinds
      && NoOtherLocksReceipt(s, t, s.txs[t].rid) && NoOtherSharesReceipt(s, t, s.txs[t].rid)
    case CheckItems(t) =>
      t in s.txs && s.txs[t].KindLocked?
      && (Side(s.txs[t].from) != Side(s.txs[t].to) ==> NoOtherLocksCategories(s, t, CategoriesOn(s, s.txs[t].rid)))
    case CommitKind(t) => t in s.txs && s.txs[t].KindChecked?
    case LockCategory(t) =>
      t in s.txs && s.txs[t].FlipBegun? && s.txs[t].cat in s.income
      && NoOtherLocksCategories(s, t, {s.txs[t].cat}) && NoOtherSharesCategory(s, t, s.txs[t].cat)
    case CheckFlip(t) => t in s.txs && s.txs[t].FlipLocked? && s.txs[t].cat in s.income
    case CommitFlip(t) => t in s.txs && s.txs[t].FlipChecked?
    case LockForScan(t) =>
      t in s.txs && s.txs[t].ScanBegun? && s.txs[t].rid in s.kinds
      && NoOtherLocksReceipt(s, t, s.txs[t].rid) && NoOtherSharesReceipt(s, t, s.txs[t].rid)
    case AddScanned(t, cat) =>
      t in s.txs && s.txs[t].ScanFilling? && cat in s.income && NoOtherLocksCategories(s, t, {cat})
    case CommitScan(t, added) =>
      t in s.txs && s.txs[t].ScanFilling? && added.Keys !! s.items.Keys && added.Values <= s.txs[t].cats
      && (s.txs[t].anew ==> NoOtherHoldsItem(s, t, s.txs[t].rid))
    case AddEntered(t, cat) =>
      t in s.txs && s.txs[t].EntryFilling? && cat in s.income && NoOtherLocksCategories(s, t, {cat})
    case CommitEntry(t, rid, added) =>
      t in s.txs && s.txs[t].EntryFilling? && rid !in s.kinds && added.Keys !! s.items.Keys && added.Values <= s.txs[t].cats
    case DropCategory(cat) =>
      cat in s.income && forall u :: u in s.txs ==> cat !in CategoryShares(s.txs[u]) && cat !in CategoryLocks(s.txs[u])
    case Abort(t) => t in s.txs
    case DropItem(item) => item in s.items
  }

  function GoTo(s: State, t: nat, tx: Tx): State {
    s.(txs := s.txs[t := tx])
  }

  function End(s: State, t: nat): State {
    s.(txs := s.txs - {t})
  }

  /** The items once the scan's are in: beside the receipt's own, or in place of them. */
  function Filled(s: State, tx: Tx, added: map<nat, nat>): map<nat, Entry>
    requires tx.ScanFilling?
  {
    map i | i in s.items.Keys + added.Keys && (i in added || !(tx.anew && s.items[i].rid == tx.rid)) ::
      if i in added then Entry(tx.rid, added[i]) else s.items[i]
  }

  function Entries(rid: nat, added: map<nat, nat>): map<nat, Entry> {
    map i | i in added :: Entry(rid, added[i])
  }

  ghost function Next(s: State, a: Action): State
    requires Enabled(s, a)
  {
    match a
    case Start(t, tx) => GoTo(s, t, tx)
    case ReadKind(t) => GoTo(s, t, ItemKindRead(s.txs[t].rid, s.txs[t].cat, s.txs[t].updates, s.kinds[s.txs[t].rid]))
    case CheckCategory(t) =>
      var tx := s.txs[t];
      if CategoryFitsKind(s.income[tx.cat], tx.kind) then GoTo(s, t, ItemChecked(tx.rid, tx.cat, tx.updates, tx.kind)) else End(s, t)
    case WriteItem(t) =>
      var tx := s.txs[t];
      if tx.rid in s.kinds then GoTo(s, t, ItemWritten(tx.rid, tx.cat, tx.updates, tx.kind)) else End(s, t)
    case CommitItem(t, item) => End(s, t).(items := s.items[item := Entry(s.txs[t].rid, s.txs[t].cat)])
    case LockReceipt(t) => GoTo(s, t, KindLocked(s.txs[t].rid, s.kinds[s.txs[t].rid], s.txs[t].to))
    case CheckItems(t) =>
      var tx := s.txs[t];
      if Side(tx.from) == Side(tx.to) then GoTo(s, t, KindChecked(tx.rid, tx.from, tx.to, {}))
      else
        var cats := CategoriesOn(s, tx.rid);
        if forall q :: q in cats && q in s.income ==> s.income[q] == Side(tx.to)
        then GoTo(s, t, KindChecked(tx.rid, tx.from, tx.to, cats))
        else End(s, t)
    case CommitKind(t) => End(s, t).(kinds := s.kinds[s.txs[t].rid := s.txs[t].to])
    case LockCategory(t) => GoTo(s, t, FlipLocked(s.txs[t].cat, s.txs[t].isIncome))
    case CheckFlip(t) =>
      var tx := s.txs[t];
      if s.income[tx.cat] == tx.isIncome then GoTo(s, t, FlipChecked(tx.cat, tx.isIncome, false))
      else if FlipClashes(s, tx.cat, tx.isIncome) then End(s, t)
      else GoTo(s, t, FlipChecked(tx.cat, tx.isIncome, true))
    case CommitFlip(t) => End(s, t).(income := s.income[s.txs[t].cat := s.txs[t].isIncome])
    case LockForScan(t) =>
      var tx := s.txs[t];
      if tx.extracted.Some? then GoTo(s, t, ScanFilling(tx.rid, tx.extracted.value, true, {}))
      else GoTo(s, t, ScanFilling(tx.rid, s.kinds[tx.rid], false, {}))
    case AddScanned(t, cat) =>
      var tx := s.txs[t];
      if CategoryFitsKind(s.income[cat], tx.kind) then GoTo(s, t, ScanFilling(tx.rid, tx.kind, tx.anew, tx.cats + {cat})) else End(s, t)
    case CommitScan(t, added) =>
      End(s, t).(items := Filled(s, s.txs[t], added), kinds := s.kinds[s.txs[t].rid := s.txs[t].kind])
    case AddEntered(t, cat) =>
      var tx := s.txs[t];
      if CategoryFitsKind(s.income[cat], tx.kind) then GoTo(s, t, EntryFilling(tx.kind, tx.cats + {cat})) else End(s, t)
    case CommitEntry(t, rid, added) =>
      End(s, t).(items := s.items + Entries(rid, added), kinds := s.kinds[rid := s.txs[t].kind])
    case DropCategory(cat) =>
      s.(income := s.income - {cat}, items := map i | i in s.items && s.items[i].cat != cat :: s.items[i])
    case Abort(t) => End(s, t)
    case DropItem(item) => s.(items := s.items - {item})
  }

  // ---- what the locks let through, by the stages reached ----

  /** The transaction has checked the category and may still use it. */
  predicate RestsOn(tx: Tx, cat: nat) {
    match tx
    case ItemChecked(_, q, _, _) => q == cat
    case ItemWritten(_, q, _, _) => q == cat
    case KindChecked(_, _, _, cats) => cat in cats
    case ScanFilling(_, _, _, cats) => cat in cats
    case EntryFilling(_, cats) => cat in cats
    case _ => false
  }

  predicate Flips(tx: Tx, cat: nat) {
    (tx.FlipLocked? || tx.FlipChecked?) && tx.cat == cat
  }

  /** The transaction has the receipt to itself. */
  predicate Changes(tx: Tx, rid: nat) {
    (tx.KindLocked? || tx.KindChecked? || tx.ScanFilling?) && tx.rid == rid
  }

  /** Who waits for whom: a flip for everybody who rests on its category, and they for it; a kind change
      or scan for a new item on its receipt, and that for them. */
  lemma WaitingMeaning(s: State, t: nat, cat: nat, added: map<nat, nat>)
    requires t in s.txs
    ensures Enabled(s, LockCategory(t)) <==>
            s.txs[t].FlipBegun? && s.txs[t].cat in s.income
            && forall u :: u in s.txs && u != t ==> !Flips(s.txs[u], s.txs[t].cat) && !RestsOn(s.txs[u], s.txs[t].cat)
    ensures Enabled(s, CheckCategory(t)) <==>
            s.txs[t].ItemKindRead? && s.txs[t].cat in s.income && forall u :: u in s.txs && u != t ==> !Flips(s.txs[u], s.txs[t].cat)
    ensures Enabled(s, AddScanned(t, cat)) <==>
            s.txs[t].ScanFilling? && cat in s.income && forall u :: u in s.txs && u != t ==> !Flips(s.txs[u], cat)
    ensures Enabled(s, AddEntered(t, cat)) <==>
            s.txs[t].EntryFilling? && cat in s.income && forall u :: u in s.txs && u != t ==> !Flips(s.txs[u], cat)
    ensures Enabled(s, WriteItem(t)) <==>
            s.txs[t].ItemChecked?
            && (s.txs[t].updates || forall u :: u in s.txs && u != t ==> !Changes(s.txs[u], s.txs[t].rid))
    ensures Enabled(s, LockReceipt(t)) <==>
            s.txs[t].KindBegun? && s.txs[t].rid in s.kinds
            && forall u :: u in s.txs && u != t ==>
                 !Changes(s.txs[u], s.txs[t].rid) && !(s.txs[u].ItemWritten? && !s.txs[u].updates && s.txs[u].rid == s.txs[t].rid)
    ensures Enabled(s, LockForScan(t)) <==>
            s.txs[t].ScanBegun? && s.txs[t].rid in s.kinds
            && forall u :: u in s.txs && u != t ==>
                 !Changes(s.txs[u], s.txs[t].rid) && !(s.txs[u].ItemWritten? && !s.txs[u].updates && s.txs[u].rid == s.txs[t].rid)
  {
    forall u, q | u in s.txs
      ensures q in CategoryLocks(s.txs[u]) <==> Flips(s.txs[u], q)
      ensures q in CategoryShares(s.txs[u]) <==> RestsOn(s.txs[u], q)
      ensures q in ReceiptLocks(s.txs[u]) <==> Changes(s.txs[u], q)
    {
    }
  }

  /** What a scan's commit does: its items are on the receipt, in place of the receipt's own only if it
      extracts; the receipt has the scan's kind; and everything else stays. */
  lemma CommitScanMeaning(s: State, t: nat, added: map<nat, nat>)
    requires Enabled(s, CommitScan(t, added))
    ensures var s' := Next(s, CommitScan(t, added));
      && s' == s.(kinds := s.kinds[s.txs[t].rid := s.txs[t].kind], items := s'.items, txs := s.txs - {t})
      && forall i :: if i in added then i in s'.items && s'.items[i] == Entry(s.txs[t].rid, added[i])
                     else if i in s.items && !(s.txs[t].anew && s.items[i].rid == s.txs[t].rid)
                     then i in s'.items && s'.items[i] == s.items[i]
                     else i !in s'.items
  {
  }

  /** What a manual entry's commit does: a receipt of its kind, with its items; everything else stays. */
  lemma CommitEntryMeaning(s: State, t: nat, rid: nat, added: map<nat, nat>)
    requires Enabled(s, CommitEntry(t, rid, added))
    ensures var s' := Next(s, CommitEntry(t, rid, added));
      && s' == s.(kinds := s.kinds[rid := s.txs[t].kind], items := s'.items, txs := s.txs - {t})
      && forall i :: if i in added then i in s'.items && s'.items[i] == Entry(rid, added[i])
                     else if i in s.items then i in s'.items && s'.items[i] == s.items[i] else i !in s'.items
  {
  }

  /** A scan goes by the kind it extracts, or by the one the receipt has once it is locked. */
  lemma ScanKindMeaning(s: State, t: nat)
    requires Enabled(s, LockForScan(t))
    ensures t in Next(s, LockForScan(t)).txs && Next(s, LockForScan(t)).txs[t].ScanFilling?
    ensures var tx, tx' := s.txs[t], Next(s, LockForScan(t)).txs[t];
      && tx'.rid == tx.rid && tx'.cats == {} && (tx'.anew <==> tx.extracted.Some?)
      && match tx.extracted
         case Some(kind) => tx'.kind == kind
         case None => tx'.kind == s.kinds[tx.rid]
  {
  }

  /** What the checks let through: an item whose category is on the kind's side, a kind change that keeps
      the side or leaves every item's category on the new one, a flip that changes nothing or finds every
      item on a receipt of the new side. */
  lemma CheckingMeaning(s: State, t: nat)
    requires t in s.txs
    ensures Enabled(s, CheckCategory(t)) ==>
      (t in Next(s, CheckCategory(t)).txs <==> (s.income[s.txs[t].cat] <==> s.txs[t].kind == Income))
    ensures Enabled(s, CheckItems(t)) ==>
      (t in Next(s, CheckItems(t)).txs <==>
         || ((s.txs[t].from == Income) <==> (s.txs[t].to == Income))
         || forall i :: i in s.items && s.items[i].rid == s.txs[t].rid && s.items[i].cat in s.income ==>
              (s.income[s.items[i].cat] <==> s.txs[t].to == Income))
    ensures Enabled(s, CheckFlip(t)) ==>
      (t in Next(s, CheckFlip(t)).txs <==>
         || s.income[s.txs[t].cat] == s.txs[t].isIncome
         || forall i :: i in s.items && s.items[i].cat == s.txs[t].cat && s.items[i].rid in s.kinds ==>
              (s.kinds[s.items[i].rid] == Income <==> s.txs[t].isIncome))
  {
    forall kind: Kind ensures Side(kind) <==> kind == Income {}
    if Enabled(s, CheckItems(t)) { CheckedCategories(s, s.txs[t].rid, Side(s.txs[t].to)); }
  }

  lemma CheckedCategories(s: State, rid: nat, side: bool)
    ensures (forall q :: q in CategoriesOn(s, rid) && q in s.income ==> s.income[q] == side) <==>
            forall i :: i in s.items && s.items[i].rid == rid && s.items[i].cat in s.income ==> s.income[s.items[i].cat] == side
  {
    forall i | i in s.items && s.items[i].rid == rid ensures s.items[i].cat in CategoriesOn(s, rid) {}
  }

  // ---- the property and what keeps it ----

  ghost predicate AllFit(s: State) {
    forall i :: i in s.items ==>
      s.items[i].rid in s.kinds && s.items[i].cat in s.income
      && s.income[s.items[i].cat] == Side(s.kinds[s.items[i].rid])
  }

  ghost predicate NoLockConflict(s: State) {
    forall t, u :: t in s.txs && u in s.txs && t != u ==>
      && CategoryLocks(s.txs[t]) !! (CategoryLocks(s.txs[u]) + CategoryShares(s.txs[u]))
      && ReceiptLocks(s.txs[t]) !! (ReceiptLocks(s.txs[u]) + ReceiptShares(s.txs[u]))
  }

  ghost predicate NoItemIn(s: State, cat: nat) {
    forall i :: i in s.items ==> s.items[i].cat != cat
  }

  ghost predicate NoItemOn(s: State, rid: nat) {
    forall i :: i in s.items ==> s.items[i].rid != rid
  }

  /** What a transaction has checked still holds, because of the locks it took. A flip that changes
      anything has found its category unused. */
  ghost predicate TxSound(s: State, tx: Tx) {
    match tx
    case ItemChecked(_, cat, _, kind) => cat in s.income && s.income[cat] == Side(kind)
    case ItemWritten(rid, cat, _, kind) => rid in s.kinds && cat in s.income && s.income[cat] == Side(kind)
    case KindLocked(rid, from, _) => rid in s.kinds && s.kinds[rid] == from
    case KindChecked(rid, from, to, cats) => rid in s.kinds && s.kinds[rid] == from
    case FlipLocked(cat, _) => cat in s.income
    case FlipChecked(cat, isIncome, changes) =>
      cat in s.income && (if changes then NoItemIn(s, cat) else s.income[cat] == isIncome)
    case ScanFilling(rid, kind, anew, cats) =>
      rid in s.kinds && (!anew ==> s.kinds[rid] == kind)
      && forall q :: q in cats ==> q in s.income && s.income[q] == Side(kind)
    case EntryFilling(kind, cats) => forall q :: q in cats ==> q in s.income && s.income[q] == Side(kind)
    case _ => true
  }

  ghost predicate Inv(s: State) {
    && NoLockConflict(s)
    && (forall t :: t in s.txs ==> TxSound(s, s.txs[t]))
  }

  lemma LocalStepKeeps(s: State, s': State, t: nat)
    requires Inv(s) && s' == s.(txs := s'.txs)
    requires s'.txs == s.txs - {t} || (t in s'.txs && s'.txs == s.txs[t := s'.txs[t]])
    requires t in s'.txs ==>
      && TxSound(s, s'.txs[t])
      && NoOtherLocksCategories(s, t, CategoryLocks(s'.txs[t]) + CategoryShares(s'.txs[t]))
      && (forall u :: u in s.txs && u != t ==> CategoryLocks(s'.txs[t]) !! CategoryShares(s.txs[u]))
      && (forall u :: u in s.txs && u != t ==>
            ReceiptLocks(s.txs[u]) !! (ReceiptLocks(s'.txs[t]) + ReceiptShares(s'.txs[t])))
      && (forall u :: u in s.txs && u != t ==> ReceiptLocks(s'.txs[t]) !! ReceiptShares(s.txs[u]))
    ensures Inv(s')
  {
    forall v | v in s'.txs ensures TxSound(s', s'.txs[v]) {
      if v != t { assert TxSound(s, s.txs[v]); }
    }
  }

  lemma CommitItemKeeps(s: State, t: nat, item: nat)
    requires Inv(s) && Enabled(s, CommitItem(t, item))
    ensures Inv(Next(s, CommitItem(t, item)))
  {
    var s' := Next(s, CommitItem(t, item));
    assert TxSound(s, s.txs[t]);
    forall v | v in s'.txs ensures TxSound(s', s'.txs[v]) {
      assert TxSound(s, s.txs[v]);
      assert CategoryLocks(s.txs[v]) !! CategoryShares(s.txs[t]);
      assert s.txs[t].cat in CategoryShares(s.txs[t]);
    }
  }

  lemma CommitKindKeeps(s: State, t: nat)
    requires Inv(s) && Enabled(s, CommitKind(t))
    ensures Inv(Next(s, CommitKind(t)))
  {
    var s', tx := Next(s, CommitKind(t)), s.txs[t];
    forall v | v in s'.txs ensures TxSound(s', s'.txs[v]) {
      assert TxSound(s, s.txs[v]);
      assert ReceiptLocks(s.txs[v]) !! ReceiptLocks(tx);
      assert tx.rid in ReceiptLocks(tx);
    }
  }

  lemma CommitFlipKeeps(s: State, t: nat)
    requires Inv(s) && Enabled(s, CommitFlip(t))
    ensures Inv(Next(s, CommitFlip(t)))
    ensures AllFit(s) ==> AllFit(Next(s, CommitFlip(t)))
  {
    var s', tx := Next(s, CommitFlip(t)), s.txs[t];
    assert TxSound(s, tx);
    forall v | v in s'.txs ensures TxSound(s', s'.txs[v]) {
      assert TxSound(s, s.txs[v]);
      assert CategoryLocks(tx) !! (CategoryLocks(s.txs[v]) + CategoryShares(s.txs[v]));
      assert tx.cat in CategoryLocks(tx);
    }
  }

  /** A scan write commits under the receipt's lock and its items' categories, so it fits and leaves
      everybody else's checks as they were. */
  lemma CommitScanKeeps(s: State, t: nat, added: map<nat, nat>)
    requires Inv(s) && Enabled(s, CommitScan(t, added))
    ensures Inv(Next(s, CommitScan(t, added)))
    ensures AllFit(s) ==> AllFit(Next(s, CommitScan(t, added)))
  {
    var s', tx := Next(s, CommitScan(t, added)), s.txs[t];
    assert TxSound(s, tx);
    forall i | i in added ensures added[i] in tx.cats { assert added[i] in added.Values; }
    forall v | v in s'.txs ensures TxSound(s', s'.txs[v]) {
      ScanLeavesSound(s, s', t, v, added);
    }
  }

  /** A flip under way has its category to itself, so nobody else adds an item to it. */
  lemma FlipUndisturbed(s: State, items: map<nat, Entry>, t: nat, v: nat)
    requires Inv(s) && v in s.txs && t in s.txs && v != t && s.txs[v].FlipChecked? && s.txs[v].changes
    requires forall i :: i in items ==> (i in s.items && items[i] == s.items[i]) || items[i].cat in CategoryShares(s.txs[t])
    ensures forall i :: i in items ==> items[i].cat != s.txs[v].cat
  {
    assert TxSound(s, s.txs[v]);
    assert CategoryLocks(s.txs[v]) !! CategoryShares(s.txs[t]) && s.txs[v].cat in CategoryLocks(s.txs[v]);
  }

  lemma ScanLeavesFlip(s: State, s': State, t: nat, v: nat, added: map<nat, nat>)
    requires Inv(s) && Enabled(s, CommitScan(t, added)) && s' == Next(s, CommitScan(t, added)) && v in s.txs && v != t
    requires s.txs[v].FlipChecked? && forall i :: i in added ==> added[i] in s.txs[t].cats
    ensures TxSound(s', s.txs[v])
  {
    assert TxSound(s, s.txs[v]);
    if s.txs[v].changes { FlipUndisturbed(s, s'.items, t, v); }
  }

  lemma ScanLeavesSound(s: State, s': State, t: nat, v: nat, added: map<nat, nat>)
    requires Inv(s) && Enabled(s, CommitScan(t, added)) && s' == Next(s, CommitScan(t, added)) && v in s.txs && v != t
    requires forall i :: i in added ==> added[i] in s.txs[t].cats
    ensures TxSound(s', s.txs[v])
  {
    var tx := s.txs[t];
    if s.txs[v].FlipChecked? {
      ScanLeavesFlip(s, s', t, v, added);
    } else {
      assert TxSound(s, s.txs[v]);
      assert ReceiptLocks(s.txs[v]) !! ReceiptLocks(tx) && tx.rid in ReceiptLocks(tx);
      assert s'.income == s.income && s'.kinds == s.kinds[tx.rid := tx.kind];
    }
  }

  /** A manual entry's categories are its own until it commits, and nobody else knows its receipt. */
  lemma CommitEntryKeeps(s: State, t: nat, rid: nat, added: map<nat, nat>)
    requires Inv(s) && Enabled(s, CommitEntry(t, rid, added))
    ensures Inv(Next(s, CommitEntry(t, rid, added)))
    ensures AllFit(s) ==> AllFit(Next(s, CommitEntry(t, rid, added)))
  {
    var s', tx := Next(s, CommitEntry(t, rid, added)), s.txs[t];
    assert TxSound(s, tx);
    forall i | i in added ensures added[i] in tx.cats { assert added[i] in added.Values; }
    forall v | v in s'.txs ensures TxSound(s', s'.txs[v]) {
      EntryLeavesSound(s, s', t, rid, added, v);
    }
  }

  lemma EntryLeavesFlip(s: State, items: map<nat, Entry>, t: nat, rid: nat, added: map<nat, nat>, v: nat)
    requires Inv(s) && t in s.txs && s.txs[t].EntryFilling? && v in s.txs && v != t
    requires s.txs[v].FlipChecked? && s.txs[v].changes && items == s.items + Entries(rid, added)
    requires forall i :: i in added ==> added[i] in s.txs[t].cats
    ensures forall i :: i in items ==> items[i].cat != s.txs[v].cat
  {
    EntryItems(s, rid, added);
    FlipUndisturbed(s, items, t, v);
  }

  lemma EntryLeavesSound(s: State, s': State, t: nat, rid: nat, added: map<nat, nat>, v: nat)
    requires Inv(s) && t in s.txs && s.txs[t].EntryFilling? && v in s.txs && v != t && rid !in s.kinds
    requires s'.income == s.income && s'.items == s.items + Entries(rid, added)
    requires rid in s'.kinds && s'.kinds == s.kinds[rid := s'.kinds[rid]]
    requires forall i :: i in added ==> added[i] in s.txs[t].cats
    ensures TxSound(s', s.txs[v])
  {
    assert TxSound(s, s.txs[v]);
    if s.txs[v].FlipChecked? && s.txs[v].changes { EntryLeavesFlip(s, s'.items, t, rid, added, v); }
  }

  lemma EntryItems(s: State, rid: nat, added: map<nat, nat>)
    ensures forall i :: i in s.items + Entries(rid, added) ==>
      (s.items + Entries(rid, added))[i] == if i in added then Entry(rid, added[i]) else s.items[i]
  {
  }

  /** A category nobody has locked is in nobody's checks. */
  lemma DropCategoryKeeps(s: State, cat: nat)
    requires Inv(s) && Enabled(s, DropCategory(cat))
    ensures Inv(Next(s, DropCategory(cat)))
    ensures AllFit(s) ==> AllFit(Next(s, DropCategory(cat)))
  {
    var s' := Next(s, DropCategory(cat));
    forall v | v in s'.txs ensures TxSound(s', s'.txs[v]) {
      assert TxSound(s, s.txs[v]);
      assert cat !in CategoryShares(s.txs[v]) && cat !in CategoryLocks(s.txs[v]);
    }
  }

  lemma DropItemKeeps(s: State, item: nat)
    requires Inv(s) && item in s.items
    ensures Inv(Next(s, DropItem(item)))
  {
    var s' := Next(s, DropItem(item));
    forall v | v in s'.txs ensures TxSound(s', s'.txs[v]) {
      assert TxSound(s, s.txs[v]);
    }
  }

  lemma ItemStepKeeps(s: State, a: Action)
    requires Inv(s) && Enabled(s, a) && (a.ReadKind? || a.CheckCategory? || a.WriteItem?)
    ensures Inv(Next(s, a))
  {
    assert TxSound(s, s.txs[a.t]);
    LocalStepKeeps(s, Next(s, a), a.t);
  }

  lemma LockReceiptKeeps(s: State, t: nat)
    requires Inv(s) && Enabled(s, LockReceipt(t))
    ensures Inv(Next(s, LockReceipt(t)))
  {
    LocalStepKeeps(s, Next(s, LockReceipt(t)), t);
  }

  lemma CheckItemsKeeps(s: State, t: nat)
    requires Inv(s) && Enabled(s, CheckItems(t))
    ensures Inv(Next(s, CheckItems(t)))
  {
    var s', tx := Next(s, CheckItems(t)), s.txs[t];
    assert TxSound(s, tx);
    if t in s'.txs {
      var cats := if Side(tx.from) == Side(tx.to) then {} else CategoriesOn(s, tx.rid);
      CheckedKindKeeps(s, s', t, cats);
    } else {
      LocalStepKeeps(s, s', t);
    }
  }

  lemma CheckedKindKeeps(s: State, s': State, t: nat, cats: set<nat>)
    requires Inv(s) && t in s.txs && s.txs[t].KindLocked? && NoOtherLocksCategories(s, t, cats)
    requires s' == GoTo(s, t, KindChecked(s.txs[t].rid, s.txs[t].from, s.txs[t].to, cats))
    ensures Inv(s')
  {
    assert TxSound(s, s.txs[t]);
    LocalStepKeeps(s, s', t);
  }

  lemma LockCategoryKeeps(s: State, t: nat)
    requires Inv(s) && Enabled(s, LockCategory(t))
    ensures Inv(Next(s, LockCategory(t)))
  {
    LocalStepKeeps(s, Next(s, LockCategory(t)), t);
  }

  lemma CheckFlipKeeps(s: State, t: nat)
    requires Inv(s) && Enabled(s, CheckFlip(t)) && AllFit(s)
    ensures Inv(Next(s, CheckFlip(t)))
  {
    var s' := Next(s, CheckFlip(t));
    assert TxSound(s, s.txs[t]);
    if t in s'.txs {
      CheckedFlipKeeps(s, s', t);
    } else {
      LocalStepKeeps(s, s', t);
    }
  }

  lemma CheckedFlipKeeps(s: State, s': State, t: nat)
    requires Inv(s) && t in s.txs && s.txs[t].FlipLocked? && t in s'.txs && s' == GoTo(s, t, s'.txs[t])
    requires s'.txs[t].FlipChecked? && s'.txs[t].cat == s.txs[t].cat && TxSound(s, s'.txs[t])
    ensures Inv(s')
  {
    LocalStepKeeps(s, s', t);
  }

  /** A scan write that holds its receipt alone, and its items' categories against flips. */
  lemma FillingKeeps(s: State, s': State, t: nat, tx: Tx)
    requires Inv(s) && t in s.txs && s' == GoTo(s, t, tx) && tx.ScanFilling? && TxSound(s, tx)
    requires NoOtherLocksReceipt(s, t, tx.rid) && NoOtherSharesReceipt(s, t, tx.rid)
    requires NoOtherLocksCategories(s, t, tx.cats)
    ensures Inv(s')
  {
    LocalStepKeeps(s, s', t);
  }

  lemma LockForScanKeeps(s: State, t: nat)
    requires Inv(s) && Enabled(s, LockForScan(t))
    ensures Inv(Next(s, LockForScan(t)))
  {
    FillingKeeps(s, Next(s, LockForScan(t)), t, Next(s, LockForScan(t)).txs[t]);
  }

  /** What it holds, nobody else does. */
  lemma FillingHolds(s: State, t: nat)
    requires Inv(s) && t in s.txs && s.txs[t].ScanFilling?
    ensures NoOtherLocksReceipt(s, t, s.txs[t].rid) && NoOtherSharesReceipt(s, t, s.txs[t].rid)
    ensures NoOtherLocksCategories(s, t, s.txs[t].cats)
  {
    assert s.txs[t].rid in ReceiptLocks(s.txs[t]);
  }

  lemma AddScannedKeeps(s: State, t: nat, cat: nat)
    requires Inv(s) && Enabled(s, AddScanned(t, cat))
    ensures Inv(Next(s, AddScanned(t, cat)))
  {
    var s' := Next(s, AddScanned(t, cat));
    assert TxSound(s, s.txs[t]);
    if t in s'.txs {
      FillingHolds(s, t);
      FillingKeeps(s, s', t, s'.txs[t]);
    } else {
      LocalStepKeeps(s, s', t);
    }
  }

  lemma AddEnteredKeeps(s: State, t: nat, cat: nat)
    requires Inv(s) && Enabled(s, AddEntered(t, cat))
    ensures Inv(Next(s, AddEntered(t, cat)))
  {
    var s' := Next(s, AddEntered(t, cat));
    assert TxSound(s, s.txs[t]);
    if t in s'.txs {
      EntryFillingKeeps(s, s', t, cat);
    } else {
      LocalStepKeeps(s, s', t);
    }
  }

  lemma EntryFillingKeeps(s: State, s': State, t: nat, cat: nat)
    requires Inv(s) && t in s.txs && s.txs[t].EntryFilling? && NoOtherLocksCategories(s, t, {cat})
    requires cat in s.income && s.income[cat] == Side(s.txs[t].kind)
    requires s' == GoTo(s, t, EntryFilling(s.txs[t].kind, s.txs[t].cats + {cat}))
    ensures Inv(s')
  {
    assert TxSound(s, s.txs[t]);
    LocalStepKeeps(s, s', t);
  }

  lemma StartOrAbortKeeps(s: State, a: Action)
    requires Inv(s) && Enabled(s, a) && (a.Start? || a.Abort?)
    ensures Inv(Next(s, a))
  {
    LocalStepKeeps(s, Next(s, a), a.t);
  }

  lemma StepKeeps(s: State, a: Action)
    requires Inv(s) && Enabled(s, a) && AllFit(s)
    ensures Inv(Next(s, a))
  {
    match a {
      case CommitItem(t, item) => CommitItemKeeps(s, t, item);
      case CommitKind(t) => CommitKindKeeps(s, t);
      case CommitFlip(t) => CommitFlipKeeps(s, t);
      case DropItem(item) => DropItemKeeps(s, item);
      case CommitScan(t, added) => CommitScanKeeps(s, t, added);
      case CommitEntry(t, rid, added) => CommitEntryKeeps(s, t, rid, added);
      case AddEntered(t, cat) => AddEnteredKeeps(s, t, cat);
      case DropCategory(cat) => DropCategoryKeeps(s, cat);
      case LockForScan(t) => LockForScanKeeps(s, t);
      case AddScanned(t, cat) => AddScannedKeeps(s, t, cat);
      case LockReceipt(t) => LockReceiptKeeps(s, t);
      case CheckItems(t) => CheckItemsKeeps(s, t);
      case LockCategory(t) => LockCategoryKeeps(s, t);
      case CheckFlip(t) => CheckFlipKeeps(s, t);
      case Start(_, _) => StartOrAbortKeeps(s, a);
      case Abort(_) => StartOrAbortKeeps(s, a);
      case _ => ItemStepKeeps(s, a);
    }
  }

  /** The kind an item writer read without a lock is still on the receipt's side when it commits. */
  predicate KindStillCurrent(s: State, t: nat) {
    t in s.txs && s.txs[t].ItemWritten? && s.txs[t].rid in s.kinds
    && Side(s.kinds[s.txs[t].rid]) == Side(s.txs[t].kind)
  }

  /** No categorised item is left on a receipt whose kind is about to change sides. */
  ghost predicate KindChangeSettled(s: State, t: nat) {
    t in s.txs && s.txs[t].KindChecked? && (Side(s.txs[t].from) == Side(s.txs[t].to) || NoItemOn(s, s.txs[t].rid))
  }

  /** An item commits against a kind on the receipt's present side; a kind changes sides only while
      the receipt has no categorised item. */
  ghost predicate GoodCommit(s: State, a: Action) {
    (a.CommitItem? ==> KindStillCurrent(s, a.t)) && (a.CommitKind? ==> KindChangeSettled(s, a.t))
  }

  lemma ItemCommitFitsIff(s: State, t: nat, item: nat)
    requires Inv(s) && Enabled(s, CommitItem(t, item)) && AllFit(s)
    ensures AllFit(Next(s, CommitItem(t, item))) <==> KindStillCurrent(s, t)
  {
    var s' := Next(s, CommitItem(t, item));
    assert TxSound(s, s.txs[t]);
    assert s'.items[item] == Entry(s.txs[t].rid, s.txs[t].cat);
    if KindStillCurrent(s, t) {
      forall i | i in s'.items
        ensures s'.items[i].rid in s'.kinds && s'.items[i].cat in s'.income
             && s'.income[s'.items[i].cat] == Side(s'.kinds[s'.items[i].rid])
      {
        if i != item { assert s'.items[i] == s.items[i]; }
      }
    }
  }

  lemma KindCommitFitsIff(s: State, t: nat)
    requires Inv(s) && Enabled(s, CommitKind(t)) && AllFit(s)
    ensures AllFit(Next(s, CommitKind(t))) <==> KindChangeSettled(s, t)
  {
    var s', tx := Next(s, CommitKind(t)), s.txs[t];
    assert TxSound(s, tx);
    if !KindChangeSettled(s, t) {
      var i :| i in s.items && s.items[i].rid == tx.rid;
      assert s'.items[i] == s.items[i];
    }
  }

  /** The step is a transaction of its own. */
  predicate Drops(a: Action) {
    a.DropItem? || a.DropCategory?
  }

  /** The step neither commits nor drops anything. */
  predicate Quiet(a: Action) {
    !a.CommitItem? && !a.CommitKind? && !a.CommitFlip? && !a.CommitScan? && !a.CommitEntry? && !Drops(a)
  }

  lemma QuietShape(s: State, a: Action)
    requires Enabled(s, a) && Quiet(a)
    ensures Next(s, a) == s.(txs := Next(s, a).txs)
    ensures forall u :: u in Next(s, a).txs && u != a.t ==> u in s.txs && Next(s, a).txs[u] == s.txs[u]
  {
  }

  /** Whatever the step, it changes at most its own transaction. */
  lemma OtherTxsKept(s: State, a: Action, u: nat)
    requires Enabled(s, a) && u in Next(s, a).txs && (Drops(a) || u != a.t)
    ensures u in s.txs && Next(s, a).txs[u] == s.txs[u]
  {
  }

  /** A commit ends its transaction. */
  lemma CommitEnds(s: State, a: Action)
    requires Enabled(s, a) && !Quiet(a) && !Drops(a)
    ensures a.t !in Next(s, a).txs
  {
  }

  lemma OtherStepsKeepFit(s: State, a: Action)
    requires Inv(s) && Enabled(s, a) && AllFit(s) && !a.CommitItem? && !a.CommitKind?
    ensures AllFit(Next(s, a))
  {
    if a.CommitFlip? {
      CommitFlipKeeps(s, a.t);
    } else if a.CommitScan? {
      CommitScanKeeps(s, a.t, a.added);
    } else if a.CommitEntry? {
      CommitEntryKeeps(s, a.t, a.rid, a.added);
    } else if a.DropCategory? {
      DropCategoryKeeps(s, a.cat);
    } else if Quiet(a) {
      QuietShape(s, a);
    } else {
      DropItemFits(s, a.item);
    }
  }

  lemma DropItemFits(s: State, item: nat)
    requires AllFit(s) && item in s.items
    ensures AllFit(Next(s, DropItem(item)))
  {
  }

  /** These are exactly the commits that leave every item on the right side; flips, scans, manual entries
      and deletions always do. */
  lemma CommitFitsIff(s: State, a: Action)
    requires Inv(s) && Enabled(s, a) && AllFit(s)
    ensures AllFit(Next(s, a)) <==> GoodCommit(s, a)
  {
    if a.CommitItem? {
      ItemCommitFitsIff(s, a.t, a.item);
    } else if a.CommitKind? {
      KindCommitFitsIff(s, a.t);
    } else {
      OtherStepsKeepFit(s, a);
    }
  }

  // ---- whole runs ----

  /** A run from a settled ledger: nothing in progress, everything fitting. */
  ghost predicate IsRun(states: seq<State>, actions: seq<Action>) {
    && |states| == |actions| + 1
    && states[0].txs == map[] && AllFit(states[0])
    && forall i :: 0 <= i < |actions| ==> Enabled(states[i], actions[i]) && states[i + 1] == Next(states[i], actions[i])
  }

  ghost predicate GoodBefore(states: seq<State>, actions: seq<Action>, i: nat)
    requires |states| == |actions| + 1 && i <= |actions|
  {
    forall j :: 0 <= j < i ==> GoodCommit(states[j], actions[j])
  }

  lemma {:induction false} FitUpTo(states: seq<State>, actions: seq<Action>, i: nat)
    requires IsRun(states, actions) && i < |states| && GoodBefore(states, actions, i)
    ensures AllFit(states[i]) && Inv(states[i])
  {
    if i > 0 {
      FitUpTo(states, actions, i - 1);
      StepKeeps(states[i - 1], actions[i - 1]);
      assert GoodCommit(states[i - 1], actions[i - 1]);
      CommitFitsIff(states[i - 1], actions[i - 1]);
    }
  }

  lemma {:induction false} GoodUpTo(states: seq<State>, actions: seq<Action>, i: nat)
    requires IsRun(states, actions) && i <= |actions|
    requires forall j :: 0 <= j < |states| ==> AllFit(states[j])
    ensures GoodBefore(states, actions, i) && Inv(states[i])
  {
    if i > 0 {
      GoodUpTo(states, actions, i - 1);
      assert AllFit(states[i - 1]) && AllFit(states[i]);
      CommitFitsIff(states[i - 1], actions[i - 1]);
      StepKeeps(states[i - 1], actions[i - 1]);
    }
  }

  /** Over every interleaving of all these transactions: every item is on the
      right side at every moment if and only if every commit is a good one. */
  lemma AlwaysFitsIff(states: seq<State>, actions: seq<Action>)
    requires IsRun(states, actions)
    ensures (forall i :: 0 <= i < |states| ==> AllFit(states[i])) <==> GoodBefore(states, actions, |actions|)
  {
    if GoodBefore(states, actions, |actions|) {
      forall i | 0 <= i < |states| ensures AllFit(states[i]) {
        FitUpTo(states, actions, i);
      }
    }
    if forall i :: 0 <= i < |states| ==> AllFit(states[i]) {
      GoodUpTo(states, actions, |actions|);
    }
  }

  // ---- which races are safe ----

  /** An item writer's kind, once read, is on the receipt's side. */
  predicate KindCurrent(kinds: map<nat, Kind>, tx: Tx) {
    tx.ItemKindRead? || tx.ItemChecked? || tx.ItemWritten? ==> tx.rid in kinds && Side(kinds[tx.rid]) == Side(tx.kind)
  }

  /** No item writer holds a kind from the other side. */
  ghost predicate KindsCurrent(s: State) {
    forall t :: t in s.txs ==> KindCurrent(s.kinds, s.txs[t])
  }

  /** The step leaves every receipt on its side. */
  ghost predicate SidesKept(s: State, s': State) {
    forall r :: r in s.kinds ==> r in s'.kinds && Side(s'.kinds[r]) == Side(s.kinds[r])
  }

  /** Every kind change that passed its check still finds the receipt clear. */
  ghost predicate ChangesSettled(s: State) {
    forall t :: t in s.txs && s.txs[t].KindChecked? ==> KindChangeSettled(s, t)
  }

  lemma OwnKindCurrent(s: State, a: Action)
    requires Enabled(s, a) && Quiet(a) && a.t in Next(s, a).txs && (a.t in s.txs ==> KindCurrent(s.kinds, s.txs[a.t]))
    ensures KindCurrent(s.kinds, Next(s, a).txs[a.t])
  {
  }

  lemma KindsStayCurrent(s: State, a: Action)
    requires KindsCurrent(s) && Enabled(s, a) && SidesKept(s, Next(s, a))
    ensures KindsCurrent(Next(s, a))
  {
    var s' := Next(s, a);
    forall u | u in s'.txs ensures KindCurrent(s'.kinds, s'.txs[u]) {
      if !Drops(a) && u == a.t {
        if !Quiet(a) { CommitEnds(s, a); }
        QuietShape(s, a);
        OwnKindCurrent(s, a);
      } else {
        OtherTxsKept(s, a, u);
      }
    }
  }

  lemma CheckSettles(s: State, t: nat)
    requires Inv(s) && AllFit(s) && Enabled(s, CheckItems(t))
    ensures t in Next(s, CheckItems(t)).txs ==> KindChangeSettled(Next(s, CheckItems(t)), t)
  {
    var tx := s.txs[t];
    assert TxSound(s, tx);
    if Side(tx.from) != Side(tx.to) {
      forall i | i in s.items && s.items[i].rid == tx.rid
        ensures s.items[i].cat in CategoriesOn(s, tx.rid) && s.items[i].cat in s.income
      {
      }
    }
  }

  /** Inserting cannot unsettle a checked kind change: the foreign key waits for the receipt. */
  lemma InsertLeavesSettled(s: State, t: nat, item: nat, u: nat)
    requires Inv(s) && Enabled(s, CommitItem(t, item)) && !UpdatesItem(s, t)
    requires u != t && u in s.txs && s.txs[u].KindChecked? && KindChangeSettled(s, u)
    ensures KindChangeSettled(Next(s, CommitItem(t, item)), u)
  {
    assert ReceiptLocks(s.txs[u]) !! ReceiptShares(s.txs[t]);
    assert s.txs[u].rid in ReceiptLocks(s.txs[u]) && s.txs[t].rid in ReceiptShares(s.txs[t]);
  }

  /** Nor can a scan: it holds the receipt itself. */
  lemma ScanLeavesSettled(s: State, t: nat, added: map<nat, nat>, u: nat)
    requires Inv(s) && Enabled(s, CommitScan(t, added))
    requires u != t && u in s.txs && s.txs[u].KindChecked? && KindChangeSettled(s, u)
    ensures KindChangeSettled(Next(s, CommitScan(t, added)), u)
  {
    assert ReceiptLocks(s.txs[u]) !! ReceiptLocks(s.txs[t]);
    assert s.txs[u].rid in ReceiptLocks(s.txs[u]) && s.txs[t].rid in ReceiptLocks(s.txs[t]);
  }

  /** Nor can a manual entry: its receipt is a new one. */
  lemma EntryLeavesSettled(s: State, t: nat, rid: nat, added: map<nat, nat>, u: nat)
    requires Inv(s) && Enabled(s, CommitEntry(t, rid, added))
    requires u != t && u in s.txs && s.txs[u].KindChecked? && KindChangeSettled(s, u)
    ensures KindChangeSettled(Next(s, CommitEntry(t, rid, added)), u)
  {
    assert TxSound(s, s.txs[u]);
  }

  lemma OthersLeaveSettled(s: State, a: Action, u: nat)
    requires Enabled(s, a) && !a.CommitItem? && !a.CommitScan? && !a.CommitEntry? && u in s.txs && s.txs[u].KindChecked? && KindChangeSettled(s, u)
    requires u in Next(s, a).txs && Next(s, a).txs[u] == s.txs[u]
    ensures KindChangeSettled(Next(s, a), u)
  {
  }

  lemma OnlyChecksSettle(s: State, a: Action)
    requires Enabled(s, a) && !Drops(a) && a.t in Next(s, a).txs && Next(s, a).txs[a.t].KindChecked?
    ensures a.CheckItems?
  {
  }

  lemma ChangesStaySettled(s: State, a: Action)
    requires Inv(s) && AllFit(s) && ChangesSettled(s) && Enabled(s, a)
    requires a.CommitItem? ==> !UpdatesItem(s, a.t)
    ensures ChangesSettled(Next(s, a))
  {
    var s' := Next(s, a);
    forall u | u in s'.txs && s'.txs[u].KindChecked? ensures KindChangeSettled(s', u) {
      if !Drops(a) && a.t == u {
        OnlyChecksSettle(s, a);
        CheckSettles(s, u);
      } else {
        OtherTxsKept(s, a, u);
        OtherStaysSettled(s, a, u);
      }
    }
  }

  lemma OtherStaysSettled(s: State, a: Action, u: nat)
    requires Inv(s) && Enabled(s, a) && (a.CommitItem? ==> !UpdatesItem(s, a.t))
    requires u in s.txs && s.txs[u].KindChecked? && KindChangeSettled(s, u) && (Drops(a) || u != a.t)
    requires u in Next(s, a).txs && Next(s, a).txs[u] == s.txs[u]
    ensures KindChangeSettled(Next(s, a), u)
  {
    if a.CommitItem? {
      InsertLeavesSettled(s, a.t, a.item, u);
    } else if a.CommitScan? {
      ScanLeavesSettled(s, a.t, a.added, u);
    } else if a.CommitEntry? {
      EntryLeavesSettled(s, a.t, a.rid, a.added, u);
    } else {
      OthersLeaveSettled(s, a, u);
    }
  }

  /** A commit that keeps every receipt's side, while no writer holds a stale one, is a good one. */
  lemma KeptSidesAreGood(s: State, a: Action)
    requires Inv(s) && AllFit(s) && KindsCurrent(s) && Enabled(s, a) && SidesKept(s, Next(s, a))
    ensures GoodCommit(s, a)
  {
    if a.CommitItem? || a.CommitKind? { assert TxSound(s, s.txs[a.t]); }
    if a.CommitKind? { assert Side(Next(s, a).kinds[s.txs[a.t].rid]) == Side(s.kinds[s.txs[a.t].rid]); }
  }

  lemma {:induction false} SafeWithoutSideChanges(states: seq<State>, actions: seq<Action>, i: nat)
    requires IsRun(states, actions) && i < |states|
    requires forall j :: 0 <= j < |actions| ==> SidesKept(states[j], states[j + 1])
    ensures AllFit(states[i]) && Inv(states[i]) && KindsCurrent(states[i])
  {
    if i > 0 {
      SafeWithoutSideChanges(states, actions, i - 1);
      assert SidesKept(states[i - 1], states[i]);
      KindsStayCurrent(states[i - 1], actions[i - 1]);
      StepKeeps(states[i - 1], actions[i - 1]);
      KeptSidesAreGood(states[i - 1], actions[i - 1]);
      CommitFitsIff(states[i - 1], actions[i - 1]);
    }
  }

  predicate UpdatesItem(s: State, t: nat) {
    t in s.txs && s.txs[t].ItemWritten? && s.txs[t].updates
  }

  ghost predicate NoUpdates(states: seq<State>, actions: seq<Action>)
    requires |states| == |actions| + 1
  {
    forall j :: 0 <= j < |actions| && actions[j].CommitItem? ==> !UpdatesItem(states[j], actions[j].t)
  }

  ghost predicate NoStaleKind(states: seq<State>, actions: seq<Action>)
    requires |states| == |actions| + 1
  {
    forall j :: 0 <= j < |actions| && actions[j].CommitItem? ==> KindStillCurrent(states[j], actions[j].t)
  }

  lemma {:induction false} SafeInserts(states: seq<State>, actions: seq<Action>, i: nat)
    requires IsRun(states, actions) && i < |states| && NoUpdates(states, actions) && NoStaleKind(states, actions)
    ensures AllFit(states[i]) && Inv(states[i]) && ChangesSettled(states[i])
  {
    if i > 0 {
      SafeInserts(states, actions, i - 1);
      ChangesStaySettled(states[i - 1], actions[i - 1]);
      StepKeeps(states[i - 1], actions[i - 1]);
      CommitFitsIff(states[i - 1], actions[i - 1]);
    }
  }

  /** While no receipt changes sides, everything races safely. So does everything but item writers, also
      when receipts do change sides. With inserts added, the one thing that can go wrong is an insert
      whose kind, read without a lock, went stale. */
  lemma SafeRaces(states: seq<State>, actions: seq<Action>)
    requires IsRun(states, actions)
    ensures (forall j :: 0 <= j < |actions| ==> SidesKept(states[j], states[j + 1])) ==>
            forall i :: 0 <= i < |states| ==> AllFit(states[i])
    ensures (forall j :: 0 <= j < |actions| ==> !actions[j].CommitItem?) ==> forall i :: 0 <= i < |states| ==> AllFit(states[i])
    ensures NoUpdates(states, actions) ==>
      ((forall i :: 0 <= i < |states| ==> AllFit(states[i])) <==> NoStaleKind(states, actions))
  {
    if forall j :: 0 <= j < |actions| ==> SidesKept(states[j], states[j + 1]) {
      forall i | 0 <= i < |states| ensures AllFit(states[i]) { SafeWithoutSideChanges(states, actions, i); }
    }
    if NoUpdates(states, actions) && NoStaleKind(states, actions) {
      forall i | 0 <= i < |states| ensures AllFit(states[i]) { SafeInserts(states, actions, i); }
    }
    AlwaysFitsIff(states, actions);
    if GoodBefore(states, actions, |actions|) {
      forall j | 0 <= j < |actions| && actions[j].CommitItem? ensures KindStillCurrent(states[j], actions[j].t) {
        assert GoodCommit(states[j], actions[j]);
      }
    }
  }

  // ---- the races that are not covered ----

  function Racing(kind: Kind, items: map<nat, Entry>, txs: map<nat, Tx>): State {
    State(map[0 := kind], map[0 := false], items, txs)
  }

  /** A kind change commits between an insert's kind read and its category check. */
  const STALE_READ_STATES: seq<State> := [
    Racing(Purchase, map[], map[]),
    Racing(Purchase, map[], map[0 := ItemBegun(0, 0, false)]),
    Racing(Purchase, map[], map[0 := ItemKindRead(0, 0, false, Purchase)]),
    Racing(Purchase, map[], map[0 := ItemKindRead(0, 0, false, Purchase), 1 := KindBegun(0, Income)]),
    Racing(Purchase, map[], map[0 := ItemKindRead(0, 0, false, Purchase), 1 := KindLocked(0, Purchase, Income)]),
    Racing(Purchase, map[], map[0 := ItemKindRead(0, 0, false, Purchase), 1 := KindChecked(0, Purchase, Income, {})]),
    Racing(Income, map[], map[0 := ItemKindRead(0, 0, false, Purchase)]),
    Racing(Income, map[], map[0 := ItemChecked(0, 0, false, Purchase)]),
    Racing(Income, map[], map[0 := ItemWritten(0, 0, false, Purchase)]),
    Racing(Income, map[0 := Entry(0, 0)], map[])
  ]

  const STALE_READ_ACTIONS: seq<Action> := [
    Start(0, ItemBegun(0, 0, false)), ReadKind(0), Start(1, KindBegun(0, Income)), LockReceipt(1), CheckItems(1),
    CommitKind(1), CheckCategory(0), WriteItem(0), CommitItem(0, 0)
  ]

  /** An item is given a category between a kind change's check and its commit. */
  const LATE_UPDATE_STATES: seq<State> := [
    Racing(Purchase, map[], map[]),
    Racing(Purchase, map[], map[1 := KindBegun(0, Income)]),
    Racing(Purchase, map[], map[1 := KindLocked(0, Purchase, Income)]),
    Racing(Purchase, map[], map[1 := KindChecked(0, Purchase, Income, {})]),
    Racing(Purchase, map[], map[1 := KindChecked(0, Purchase, Income, {}), 0 := ItemBegun(0, 0, true)]),
    Racing(Purchase, map[], map[1 := KindChecked(0, Purchase, Income, {}), 0 := ItemKindRead(0, 0, true, Purchase)]),
    Racing(Purchase, map[], map[1 := KindChecked(0, Purchase, Income, {}), 0 := ItemChecked(0, 0, true, Purchase)]),
    Racing(Purchase, map[], map[1 := KindChecked(0, Purchase, Income, {}), 0 := ItemWritten(0, 0, true, Purchase)]),
    Racing(Purchase, map[0 := Entry(0, 0)], map[1 := KindChecked(0, Purchase, Income, {})]),
    Racing(Income, map[0 := Entry(0, 0)], map[])
  ]

  const LATE_UPDATE_ACTIONS: seq<Action> := [
    Start(1, KindBegun(0, Income)), LockReceipt(1), CheckItems(1), Start(0, ItemBegun(0, 0, true)), ReadKind(0),
    CheckCategory(0), WriteItem(0), CommitItem(0, 0), CommitKind(1)
  ]

  /** An extraction commits in that same gap, with no kind change at all. */
  const STALE_SCAN_STATES: seq<State> := [
    STALE_READ_STATES[0], STALE_READ_STATES[1], STALE_READ_STATES[2],
    Racing(Purchase, map[], map[0 := ItemKindRead(0, 0, false, Purchase), 1 := ScanBegun(0, Some(Income))]),
    Racing(Purchase, map[], map[0 := ItemKindRead(0, 0, false, Purchase), 1 := ScanFilling(0, Income, true, {})]),
    STALE_READ_STATES[6], STALE_READ_STATES[7], STALE_READ_STATES[8], STALE_READ_STATES[9]
  ]

  const STALE_SCAN_ACTIONS: seq<Action> := [
    STALE_READ_ACTIONS[0], STALE_READ_ACTIONS[1], Start(1, ScanBegun(0, Some(Income))), LockForScan(1), CommitScan(1, map[]),
    STALE_READ_ACTIONS[6], STALE_READ_ACTIONS[7], STALE_READ_ACTIONS[8]
  ]

  lemma StaleScanBegun()
    ensures Enabled(STALE_SCAN_STATES[2], STALE_SCAN_ACTIONS[2])
    ensures STALE_SCAN_STATES[3] == Next(STALE_SCAN_STATES[2], STALE_SCAN_ACTIONS[2])
  {
    assert STALE_SCAN_STATES[3].txs == Next(STALE_SCAN_STATES[2], STALE_SCAN_ACTIONS[2]).txs;
  }

  lemma StaleScanLocked()
    ensures Enabled(STALE_SCAN_STATES[3], STALE_SCAN_ACTIONS[3])
    ensures STALE_SCAN_STATES[4] == Next(STALE_SCAN_STATES[3], STALE_SCAN_ACTIONS[3])
  {
    assert STALE_SCAN_STATES[4].txs == Next(STALE_SCAN_STATES[3], STALE_SCAN_ACTIONS[3]).txs;
  }

  lemma StaleScanCommitted()
    ensures Enabled(STALE_SCAN_STATES[4], STALE_SCAN_ACTIONS[4])
    ensures STALE_SCAN_STATES[5] == Next(STALE_SCAN_STATES[4], STALE_SCAN_ACTIONS[4])
  {
    assert STALE_SCAN_STATES[5].txs == Next(STALE_SCAN_STATES[4], STALE_SCAN_ACTIONS[4]).txs;
  }

  lemma StaleScanStep(i: nat)
    requires i < 8
    ensures Enabled(STALE_SCAN_STATES[i], STALE_SCAN_ACTIONS[i])
    ensures STALE_SCAN_STATES[i + 1] == Next(STALE_SCAN_STATES[i], STALE_SCAN_ACTIONS[i])
  {
    if i < 2 {
      StaleReadStep(i);
      assert i == 0 || i == 1;
    } else if i == 2 {
      StaleScanBegun();
    } else if i == 3 {
      StaleScanLocked();
    } else if i == 4 {
      StaleScanCommitted();
    } else {
      StaleReadStep(i + 1);
      assert i == 5 || i == 6 || i == 7;
    }
  }

  lemma StaleReadBegun(i: nat)
    requires i < 3
    ensures Enabled(STALE_READ_STATES[i], STALE_READ_ACTIONS[i])
    ensures STALE_READ_STATES[i + 1] == Next(STALE_READ_STATES[i], STALE_READ_ACTIONS[i])
  {
    var s, a, s' := STALE_READ_STATES[i], STALE_READ_ACTIONS[i], STALE_READ_STATES[i + 1];
    assert i == 0 || i == 1 || i == 2;
    assert s'.txs == Next(s, a).txs;
  }

  lemma StaleReadLocked(i: nat)
    requires i == 3 || i == 5
    ensures Enabled(STALE_READ_STATES[i], STALE_READ_ACTIONS[i])
    ensures STALE_READ_STATES[i + 1] == Next(STALE_READ_STATES[i], STALE_READ_ACTIONS[i])
  {
    assert STALE_READ_STATES[i + 1].txs == Next(STALE_READ_STATES[i], STALE_READ_ACTIONS[i]).txs;
  }

  lemma StaleReadChecked()
    ensures Enabled(STALE_READ_STATES[4], STALE_READ_ACTIONS[4])
    ensures STALE_READ_STATES[5] == Next(STALE_READ_STATES[4], STALE_READ_ACTIONS[4])
  {
    assert CategoriesOn(STALE_READ_STATES[4], 0) == {};
    assert STALE_READ_STATES[5].txs == Next(STALE_READ_STATES[4], STALE_READ_ACTIONS[4]).txs;
  }

  lemma StaleReadStep(i: nat)
    requires i < 9
    ensures Enabled(STALE_READ_STATES[i], STALE_READ_ACTIONS[i])
    ensures STALE_READ_STATES[i + 1] == Next(STALE_READ_STATES[i], STALE_READ_ACTIONS[i])
  {
    if i < 3 {
      StaleReadBegun(i);
    } else if i == 4 {
      StaleReadChecked();
    } else if i < 6 {
      StaleReadLocked(i);
    } else {
      assert i == 6 || i == 7 || i == 8;
      assert STALE_READ_STATES[i + 1].txs == Next(STALE_READ_STATES[i], STALE_READ_ACTIONS[i]).txs;
    }
  }

  lemma LateUpdateCheck(i: nat)
    requires i < 3
    ensures Enabled(LATE_UPDATE_STATES[i], LATE_UPDATE_ACTIONS[i])
    ensures LATE_UPDATE_STATES[i + 1] == Next(LATE_UPDATE_STATES[i], LATE_UPDATE_ACTIONS[i])
  {
    var s, a, s' := LATE_UPDATE_STATES[i], LATE_UPDATE_ACTIONS[i], LATE_UPDATE_STATES[i + 1];
    assert CategoriesOn(s, 0) == {};
    assert i == 0 || i == 1 || i == 2;
    assert s'.txs == Next(s, a).txs;
  }

  lemma LateUpdateItem(i: nat)
    requires 3 <= i < 8
    ensures Enabled(LATE_UPDATE_STATES[i], LATE_UPDATE_ACTIONS[i])
    ensures LATE_UPDATE_STATES[i + 1] == Next(LATE_UPDATE_STATES[i], LATE_UPDATE_ACTIONS[i])
  {
    var s, a, s' := LATE_UPDATE_STATES[i], LATE_UPDATE_ACTIONS[i], LATE_UPDATE_STATES[i + 1];
    assert i == 3 || i == 4 || i == 5 || i == 6 || i == 7;
    assert s'.txs == Next(s, a).txs;
  }

  lemma LateUpdateStep(i: nat)
    requires i < 9
    ensures Enabled(LATE_UPDATE_STATES[i], LATE_UPDATE_ACTIONS[i])
    ensures LATE_UPDATE_STATES[i + 1] == Next(LATE_UPDATE_STATES[i], LATE_UPDATE_ACTIONS[i])
  {
    if i < 3 {
      LateUpdateCheck(i);
    } else if i < 8 {
      LateUpdateItem(i);
    } else {
      assert i == 8;
      assert LATE_UPDATE_STATES[9].txs == Next(LATE_UPDATE_STATES[8], CommitKind(1)).txs;
    }
  }

  /** The gaps are real: each run ends with an expense item on a receipt that became income. */
  lemma UnlockedKindMisfiles()
    ensures IsRun(STALE_READ_STATES, STALE_READ_ACTIONS) && !AllFit(STALE_READ_STATES[9])
    ensures IsRun(LATE_UPDATE_STATES, LATE_UPDATE_ACTIONS) && !AllFit(LATE_UPDATE_STATES[9])
    ensures IsRun(STALE_SCAN_STATES, STALE_SCAN_ACTIONS) && !AllFit(STALE_SCAN_STATES[8])
    ensures forall j :: 0 <= j < |STALE_SCAN_ACTIONS| ==> !STALE_SCAN_ACTIONS[j].CommitKind?
  {
    forall i | 0 <= i < 9
      ensures Enabled(STALE_READ_STATES[i], STALE_READ_ACTIONS[i])
      ensures STALE_READ_STATES[i + 1] == Next(STALE_READ_STATES[i], STALE_READ_ACTIONS[i])
      ensures Enabled(LATE_UPDATE_STATES[i], LATE_UPDATE_ACTIONS[i])
      ensures LATE_UPDATE_STATES[i + 1] == Next(LATE_UPDATE_STATES[i], LATE_UPDATE_ACTIONS[i])
    {
      StaleReadStep(i);
      LateUpdateStep(i);
    }
    assert 0 in STALE_READ_STATES[9].items && 0 in LATE_UPDATE_STATES[9].items;
    StaleScanMisfiles();
  }

  lemma StaleScanMisfiles()
    ensures IsRun(STALE_SCAN_STATES, STALE_SCAN_ACTIONS) && !AllFit(STALE_SCAN_STATES[8])
    ensures forall j :: 0 <= j < |STALE_SCAN_ACTIONS| ==> !STALE_SCAN_ACTIONS[j].CommitKind?
  {
    forall i | 0 <= i < 8
      ensures Enabled(STALE_SCAN_STATES[i], STALE_SCAN_ACTIONS[i])
      ensures STALE_SCAN_STATES[i + 1] == Next(STALE_SCAN_STATES[i], STALE_SCAN_ACTIONS[i])
    {
      StaleScanStep(i);
    }
    assert 0 in STALE_SCAN_STATES[8].items;
  }
}
