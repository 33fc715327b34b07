/** The worker's transactions in terms of the stored columns: which rows a claim takes, what a scan
    writes where, what a failure or a reclaim costs, and what decides all of it. */
module ScanStepMeaning {
  import opened Basics
  import opened Kinds
  import opened LedgerInput
  import opened ScanTypes
  import opened Tables
  import opened LedgerInvariant
  import opened ScanProtocol
  import opened ScanInvariant
  import opened ScanTheorems
  import opened TransactionMeaning

  // ---- snapshots and derived states ----

  lemma SnapshotMeaning(row: Row, counted: nat)
    ensures var s := SnapshotOf(row);
      && (s.reviewed <==> row.reviewedAt.Some?) && s.kind == row.rec.kind && s.totalCents == row.rec.totalCents
      && s.currency == row.rec.currency && s.merchant == row.rec.merchant && s.purchaseDate == row.rec.purchaseDate
      && s.taxDeductible == row.rec.taxDeductible && s.offsetsReceiptId == row.rec.offsetsReceiptId
      && s.updatedAt == row.updatedAt && s.itemCount == |row.items|
      && LockedSnapshot(row, counted) == s.(itemCount := counted)
  {
  }

  /** A receipt is confirmed while its last review is no older than its last proposal, and needs review
      while a proposal is newer than its review, if it has one. */
  lemma ReviewStateMeaning(row: Row)
    ensures IsConfirmed(row) <==>
            match (row.reviewedAt, row.proposedAt)
            case (None, _) => false
            case (Some(_), None) => true
            case (Some(reviewed), Some(proposed)) => proposed <= reviewed
    ensures NeedsReview(row) <==>
            match (row.reviewedAt, row.proposedAt)
            case (_, None) => false
            case (None, Some(_)) => true
            case (Some(reviewed), Some(proposed)) => reviewed < proposed
  {
  }

  // ---- claims ----

  /** The slots free are those of the concurrency that no scanning row takes. */
  lemma LimitMeaning(c: Config, db: Db)
    ensures var scanning := |set r | r in db.rows && db.rows[r].lane.state == Scanning|;
      ClaimLimit(c, db) == if c.concurrency > scanning then c.concurrency - scanning else 0
  {
    assert ScanningSet(db) == set r | r in db.rows && db.rows[r].lane.state == Scanning;
  }

  /** Queued, and locked by nobody else. */
  predicate Waits(db: Db, locked: set<nat>, r: nat) {
    r in db.rows && db.rows[r].lane.state == Uploaded && r !in locked
  }

  /** a was created first, or at the same time under a lower id. */
  predicate CreatedBefore(db: Db, a: nat, b: nat) {
    && a in db.rows && b in db.rows
    && if db.rows[a].createdAt == db.rows[b].createdAt then a < b else db.rows[a].createdAt < db.rows[b].createdAt
  }

  /** A selection within the limit takes waiting rows only; if it leaves one waiting, it is full, and every
      row it took was created before that one. */
  lemma OldestMeaning(db: Db, limit: nat, locked: set<nat>, taken: set<nat>)
    ensures OldestClaimable(db, limit, locked, taken) <==>
            && |taken| <= limit
            && (forall a :: a in taken ==> Waits(db, locked, a))
            && forall b :: b !in taken && Waits(db, locked, b) ==>
                 |taken| == limit && forall a :: a in taken ==> CreatedBefore(db, a, b)
  {
    if OldestClaimable(db, limit, locked, taken) {
      forall b | b !in taken && Waits(db, locked, b)
        ensures |taken| == limit && forall a :: a in taken ==> CreatedBefore(db, a, b)
      {
        assert Claimable(db, locked, b);
        forall a | a in taken ensures CreatedBefore(db, a, b) {
          assert Claimable(db, locked, a) && Older(db, a, b);
        }
      }
      forall a | a in taken ensures Waits(db, locked, a) { assert Claimable(db, locked, a); }
    } else if |taken| <= limit && (forall a :: a in taken ==> Waits(db, locked, a)) {
      NotOldest(db, limit, locked, taken);
    }
  }

  lemma NotOldest(db: Db, limit: nat, locked: set<nat>, taken: set<nat>)
    requires !OldestClaimable(db, limit, locked, taken) && |taken| <= limit && forall a :: a in taken ==> Waits(db, locked, a)
    ensures exists b :: b !in taken && Waits(db, locked, b)
                        && !(|taken| == limit && forall a :: a in taken ==> CreatedBefore(db, a, b))
  {
    forall a | a in taken ensures Claimable(db, locked, a) { assert Waits(db, locked, a); }
    if a, b :| a in taken && Claimable(db, locked, b) && b !in taken && !Older(db, a, b) {
      assert Waits(db, locked, b) && !CreatedBefore(db, a, b);
    } else {
      var b :| Claimable(db, locked, b) && b !in taken;
      assert Waits(db, locked, b);
    }
  }

  /** A claim puts the row in scanning with its token, and changes nothing else of it. */
  lemma TakeMeaning(db: Db, tokens: map<nat, nat>, clock: nat, r: nat)
    requires r in db.rows
    ensures var db' := TakeRows(db, tokens, clock);
      && db' == db.(rows := db'.rows, clock := clock) && db'.rows.Keys == db.rows.Keys
      && (r !in tokens ==> db'.rows[r] == db.rows[r])
      && (r in tokens ==>
            && db'.rows[r] == db.rows[r].(lane := db'.rows[r].lane)
            && db'.rows[r].lane.state == Scanning && db'.rows[r].lane.startedAt == Some(tokens[r])
            && db'.rows[r].lane.attempts == db.rows[r].lane.attempts && db'.rows[r].lane.reclaims == db.rows[r].lane.reclaims)
  {
  }

  /** In every run, a claim takes the oldest queued rows: whatever row it leaves waiting, unlocked, was
      created after each row it takes, and is left only because the slots counted are used up. */
  lemma ClaimsTakeOldest(c: Config, worlds: seq<World>, actions: seq<Action>, i: nat, a: nat, b: nat)
    requires IsRun(c, worlds, actions) && i < |actions| && actions[i].Take? && a in actions[i].tokens
    ensures a in worlds[i].db.rows && worlds[i].db.rows[a].lane.state == Uploaded && a !in actions[i].locked
    ensures a in worlds[i + 1].db.rows && worlds[i + 1].db.rows[a].lane.state == Scanning
    ensures b in worlds[i].db.rows && worlds[i].db.rows[b].lane.state == Uploaded && b !in actions[i].locked && b !in actions[i].tokens ==>
      && |actions[i].tokens| == worlds[i].limits[actions[i].index]
      && (worlds[i].db.rows[a].createdAt < worlds[i].db.rows[b].createdAt
          || (worlds[i].db.rows[a].createdAt == worlds[i].db.rows[b].createdAt && a < b))
  {
    var w, t := worlds[i], actions[i];
    assert CanTake(w, t.index, t.locked, t.tokens, t.clock);
    OldestMeaning(w.db, w.limits[t.index], t.locked, t.tokens.Keys);
    assert Waits(w.db, t.locked, a);
    TakeMeaning(w.db, t.tokens, t.clock, a);
    TakenNext(c, w, t);
    assert b in t.tokens.Keys <==> b in t.tokens;
    assert |t.tokens.Keys| == |t.tokens|;
  }

  lemma TakenNext(c: Config, w: World, a: Action)
    requires a.Take? && Enabled(c, w, a)
    ensures Next(c, w, a).db == TakeRows(w.db, a.tokens, a.clock)
  {
  }

  // ---- what a scan writes ----

  /** The item has every field of the scanned item that is not a name to be resolved. */
  predicate TakenOver(item: Item, scanned: ScannedItem) {
    && item.name == scanned.name && item.quantity == scanned.quantity && item.unitPriceCents == scanned.unitPriceCents
    && item.amountCents == scanned.amountCents && item.informational == scanned.informational
  }

  /** The scanned items, in order, numbered from `next`. */
  predicate TakenOverInOrder(items: map<nat, Item>, scanned: seq<ScannedItem>, next: nat) {
    forall j :: 0 <= j < |scanned| ==> next + j in items && TakenOver(items[next + j], scanned[j])
  }

  lemma ScannedAreTakenOver(scanned: seq<ScannedItem>, kind: Kind, lists: Taxonomy, next: nat)
    ensures TakenOverInOrder(Numbered(ToItemInputs(scanned, kind, lists), next), scanned, next)
    ensures forall n :: n in Numbered(ToItemInputs(scanned, kind, lists), next) <==> next <= n < next + |scanned|
  {
    var inputs := ToItemInputs(scanned, kind, lists);
    NumberedHold(inputs, next);
    forall j | 0 <= j < |scanned| ensures TakenOver(Numbered(inputs, next)[next + j], scanned[j]) {
      ItemInputMeaning(scanned[j], kind, lists);
      assert Holds(Numbered(inputs, next)[next + j], inputs[j]);
    }
  }

  /** The columns every scan write sets, and those it never does. */
  predicate ScanStored(row: Row, row': Row, result: ScanResult, now: nat) {
    && row'.raw == Some(result) && row'.proposedAt == Some(now) && row'.updatedAt == now
    && row'.lane.state == Idle && row'.lane.startedAt == None
    && row'.lane.attempts == row.lane.attempts && row'.lane.reclaims == row.lane.reclaims
    && row'.owner == row.owner && row'.createdAt == row.createdAt && row'.images == row.images
    && row'.audEquivalent == row.audEquivalent
    && row'.rec.paymentMethodId == row.rec.paymentMethodId && row'.rec.note == row.rec.note
    && row'.rec.fxRateToAud == row.rec.fxRateToAud
  }

  /** An extraction: each field of the scan in the column of its name, the direction of its kind, tax and
      offset kept where that kind allows them, and the scanned items for the receipt's own. */
  ghost predicate Extracted(row: Row, row': Row, result: ScanResult, now: nat, next: nat) {
    && ScanStored(row, row', result, now) && row'.reviewedAt == row.reviewedAt
    && RulesFor(row'.rec.kind).name == result.kind
    && row'.rec.kind != Transfer && DirectionOf(row'.rec.kind, row'.rec.direction)
    && row'.rec.totalCents == result.totalCents
    && row'.rec.currency == result.currency
    && row'.rec.merchant == result.merchant
    && row'.rec.storeNameRaw == result.storeNameRaw
    && row'.rec.purchaseDate == (if result.purchaseDate.Given? then Some(result.purchaseDate.value) else None)
    && (row'.rec.taxDeductible <==> row.rec.taxDeductible && row'.rec.kind == Purchase)
    && row'.rec.offsetsReceiptId ==
       (if row'.rec.kind == Refund || row'.rec.kind == Reimbursement then row.rec.offsetsReceiptId else None)
    && TakenOverInOrder(row'.items, result.items, next)
    && forall n :: n in row'.items <==> next <= n < next + |result.items|
  }

  lemma ExtractionMeaning(db: Db, k: Claim, now: nat, result: ScanResult, lists: Taxonomy, allMatch: bool, counted: nat)
    requires k.rid in db.rows && db.rows[k.rid].reviewedAt.None? && Extractable(result.kind)
    requires WriteResult(db, k, now, result, lists, allMatch, counted).Some?
    ensures k.rid in WriteResult(db, k, now, result, lists, allMatch, counted).value.rows
    ensures Extracted(db.rows[k.rid], WriteResult(db, k, now, result, lists, allMatch, counted).value.rows[k.rid], result, now, db.nextItem)
  {
    var kind := FindKind(result.kind).value;
    FindKindInvertsNames(result.kind, kind);
    TableMeaning(kind);
    ScannedAreTakenOver(result.items, kind, lists, db.nextItem);
    ExtractedRowMeaning(db.rows[k.rid], now, kind, result, Numbered(ToItemInputs(result.items, kind, lists), db.nextItem), db.nextItem);
  }

  lemma ExtractedRowMeaning(row: Row, now: nat, kind: Kind, result: ScanResult, items: map<nat, Item>, next: nat)
    requires RulesFor(kind).name == result.kind && kind != Transfer
    requires TakenOverInOrder(items, result.items, next) && forall n :: n in items <==> next <= n < next + |result.items|
    ensures Extracted(row, ExtractedRow(row, now, kind, result, items), result, now, next)
  {
    TableMeaning(kind);
  }

  /** What is there stays; what is empty takes the scan's value. */
  predicate Filled<T(==)>(before: Option<T>, scanned: Option<T>, after: Option<T>) {
    match before
    case Some(v) => after == Some(v)
    case None => after == scanned
  }

  /** A verification: the empty merchant, store name and date filled, every other field and every item as
      it was, the scanned items added if none were counted, the review renewed if the scan agrees. */
  ghost predicate Verified(row: Row, row': Row, result: ScanResult, now: nat, agrees: bool, counted: nat, next: nat) {
    && ScanStored(row, row', result, now)
    && row'.reviewedAt == (if agrees then Some(now) else row.reviewedAt)
    && row'.rec.kind == row.rec.kind && row'.rec.direction == row.rec.direction
    && row'.rec.totalCents == row.rec.totalCents && row'.rec.currency == row.rec.currency
    && row'.rec.taxDeductible == row.rec.taxDeductible && row'.rec.offsetsReceiptId == row.rec.offsetsReceiptId
    && Filled(row.rec.merchant, result.merchant, row'.rec.merchant)
    && Filled(row.rec.storeNameRaw, result.storeNameRaw, row'.rec.storeNameRaw)
    && Filled(row.rec.purchaseDate, if result.purchaseDate.Given? then Some(result.purchaseDate.value) else None, row'.rec.purchaseDate)
    && (forall n :: n in row.items ==> n in row'.items && row'.items[n] == row.items[n])
    && (counted == 0 ==> TakenOverInOrder(row'.items, result.items, next))
    && forall n :: n in row'.items <==> n in row.items || (counted == 0 && next <= n < next + |result.items|)
  }

  lemma VerificationMeaning(db: Db, k: Claim, now: nat, result: ScanResult, lists: Taxonomy, allMatch: bool, counted: nat)
    requires DbOk(db) && k.rid in db.rows && db.rows[k.rid].reviewedAt.Some?
    requires WriteResult(db, k, now, result, lists, allMatch, counted).Some?
    ensures k.rid in WriteResult(db, k, now, result, lists, allMatch, counted).value.rows
    ensures Verified(db.rows[k.rid], WriteResult(db, k, now, result, lists, allMatch, counted).value.rows[k.rid], result, now, allMatch,
                     counted, db.nextItem)
  {
    var row := db.rows[k.rid];
    var added := Numbered(WrittenItems(row, result, lists, counted), db.nextItem);
    assert RowOk(db, k.rid, row);
    if counted == 0 {
      ScannedAreTakenOver(result.items, row.rec.kind, lists, db.nextItem);
    }
    VerifiedRowMeaning(row, now, result, allMatch, counted, added, db.nextItem);
  }

  lemma VerifiedRowMeaning(row: Row, now: nat, result: ScanResult, allMatch: bool, counted: nat, added: map<nat, Item>, next: nat)
    requires forall n :: n in row.items ==> n < next
    requires counted == 0 ==> TakenOverInOrder(added, result.items, next)
    requires forall n :: n in added <==> counted == 0 && next <= n < next + |result.items|
    ensures Verified(row, VerifiedRow(row, now, result, allMatch, row.items + added), result, now, allMatch, counted, next)
  {
  }

  /** The scan and the reviewed row agree, in their own fields: totals and currencies are equal, dates that
      both have are close enough, and a merchant that both have is similar enough to one of the names. */
  predicate Agrees(c: Config, row: Row, result: ScanResult) {
    && result.totalCents == row.rec.totalCents
    && result.currency == row.rec.currency
    && (row.rec.purchaseDate.Some? && result.purchaseDate.Given? ==>
          -c.matchDateDays <= result.purchaseDate.value - row.rec.purchaseDate.value <= c.matchDateDays)
    && (row.rec.merchant.Some? && (result.merchant.Some? || result.storeNameRaw.Some?) ==>
          || (result.merchant.Some? && c.similarity(row.rec.merchant.value, result.merchant.value) >= c.merchantMatchThreshold)
          || (result.storeNameRaw.Some? && c.similarity(row.rec.merchant.value, result.storeNameRaw.value) >= c.merchantMatchThreshold)
          || (result.merchant.None? && c.merchantMatchThreshold <= 0.0))
  }

  lemma AgreesMeaning(c: Config, row: Row, result: ScanResult)
    ensures Agrees(c, row, result) <==> RowMatches(c, row, result)
  {
    AgreementMeaning(c, row.rec.totalCents, row.rec.currency, row.rec.purchaseDate, row.rec.merchant, result);
  }

  /** In every run, a scan written to a receipt that was never reviewed is stored there field by field. */
  lemma ExtractionStoresScan(c: Config, worlds: seq<World>, actions: seq<Action>, i: nat, r: nat)
    requires IsRun(c, worlds, actions) && i < |actions| && CommitsTo(worlds[i], actions[i], r)
    requires worlds[i].db.rows[r].reviewedAt.None?
    ensures r in worlds[i + 1].db.rows
    ensures var t := worlds[i].tasks[actions[i].k];
      Extracted(worlds[i].db.rows[r], worlds[i + 1].db.rows[r], t.job.result, t.now, worlds[i].db.nextItem)
  {
    var w, k := worlds[i], actions[i].k;
    var t := w.tasks[k];
    CommittedInRun(c, worlds, actions, i, r);
    ExtractionMeaning(w.db, k, t.now, t.job.result, t.job.taxonomy, t.allMatch, t.counted);
  }

  /** In every run, a scan written to a reviewed receipt fills its gaps and nothing else, and renews the
      review exactly when the two agree. */
  lemma VerificationFillsGaps(c: Config, worlds: seq<World>, actions: seq<Action>, i: nat, r: nat)
    requires IsRun(c, worlds, actions) && i < |actions| && CommitsTo(worlds[i], actions[i], r)
    requires worlds[i].db.rows[r].reviewedAt.Some?
    ensures r in worlds[i + 1].db.rows
    ensures var t := worlds[i].tasks[actions[i].k];
      Verified(worlds[i].db.rows[r], worlds[i + 1].db.rows[r], t.job.result, t.now, Agrees(c, worlds[i].db.rows[r], t.job.result),
               t.counted, worlds[i].db.nextItem)
  {
    var w, k := worlds[i], actions[i].k;
    var t := w.tasks[k];
    CommittedInRun(c, worlds, actions, i, r);
    VerdictIsRows(c, worlds, actions, i, r);
    VerificationMeaning(w.db, k, t.now, t.job.result, t.job.taxonomy, t.allMatch, t.counted);
  }

  lemma VerdictIsRows(c: Config, worlds: seq<World>, actions: seq<Action>, i: nat, r: nat)
    requires IsRun(c, worlds, actions) && i < |actions| && CommitsTo(worlds[i], actions[i], r)
    requires worlds[i].db.rows[r].reviewedAt.Some?
    ensures DbOk(worlds[i].db)
    ensures worlds[i].tasks[actions[i].k].allMatch <==> Agrees(c, worlds[i].db.rows[r], worlds[i].tasks[actions[i].k].job.result)
  {
    RunSound(c, worlds, actions, i);
    AgreesMeaning(c, worlds[i].db.rows[r], worlds[i].tasks[actions[i].k].job.result);
    VerdictAgrees(c, worlds[i], actions[i].k);
  }

  lemma VerdictAgrees(c: Config, w: World, k: Claim)
    requires Inv(c, w) && CommitsWrite(w, k) && w.db.rows[k.rid].reviewedAt.Some?
    ensures w.tasks[k].allMatch == RowMatches(c, w.db.rows[k.rid], w.tasks[k].job.result)
  {
    assert TaskSound(c, w.db, k, w.tasks[k]);
  }

  /** In every run, the write goes through exactly when the claim still holds and version, review state and
      item count are those compared, as long as the lists the scan was resolved by still hold. */
  lemma WriteCommitsIff(c: Config, worlds: seq<World>, actions: seq<Action>, i: nat)
    requires IsRun(c, worlds, actions) && i < |actions| && actions[i].Write?
    ensures var w, k := worlds[i], actions[i].k;
      var t := w.tasks[k];
      var asCompared :=
        && k.rid in w.db.rows && w.db.rows[k.rid].lane.state == Scanning && w.db.rows[k.rid].lane.startedAt == Some(k.token)
        && t.before.updatedAt == w.db.rows[k.rid].updatedAt && (t.before.reviewed <==> w.db.rows[k.rid].reviewedAt.Some?)
        && t.before.itemCount == t.counted;
      && (CommitsWrite(w, k) ==> asCompared)
      && (asCompared && ListsHold(w.db, k.user, t.job.taxonomy) ==> CommitsWrite(w, k))
  {
    var w, k := worlds[i], actions[i].k;
    assert Enabled(c, w, Write(k));
    if k.rid in w.db.rows && ListsHold(w.db, k.user, w.tasks[k].job.taxonomy) {
      WrittenItemsAllowed(w.db, k, w.tasks[k].job.result, w.tasks[k].job.taxonomy, w.tasks[k].counted);
    }
  }

  lemma WrittenItemsAllowed(db: Db, k: Claim, result: ScanResult, lists: Taxonomy, counted: nat)
    requires k.rid in db.rows && KindUsable(db, k, result) && ListsHold(db, k.user, lists)
    ensures AllAllowed(db, k.user, WrittenKind(db.rows[k.rid], result), WrittenItems(db.rows[k.rid], result, lists, counted))
  {
    ScannedItemsFit(db, k.user, WrittenKind(db.rows[k.rid], result), result.items, lists);
  }

  lemma CommittedInRun(c: Config, worlds: seq<World>, actions: seq<Action>, i: nat, r: nat)
    requires IsRun(c, worlds, actions) && i < |actions| && CommitsTo(worlds[i], actions[i], r)
    ensures worlds[i + 1].db == Committed(worlds[i], actions[i].k)
  {
    assert actions[i] == Write(actions[i].k);
    CommitNext(c, worlds[i], actions[i].k);
  }

  lemma CommitNext(c: Config, w: World, k: Claim)
    requires Enabled(c, w, Write(k)) && CommitsWrite(w, k)
    ensures Next(c, w, Write(k)).db == Committed(w, k)
  {
    CommitShape(w, k);
  }

  // ---- failures and reclaims ----

  /** A recorded failure costs one attempt if the scan is to blame and one reclaim otherwise, ends the
      claim, and gives the receipt up when it is terminal or the budget it is on is spent. */
  lemma FailureMeaning(c: Config, db: Db, k: Claim, scanError: bool, terminal: bool)
    requires k.rid in db.rows && db.rows[k.rid].lane.state == Scanning && db.rows[k.rid].lane.startedAt == Some(k.token)
    ensures var db' := RecordFailure(c, db, k, scanError, terminal);
      && OnlyRow(db, db', k.rid) && db'.nextItem == db.nextItem && db'.open == db.open
      && var row, row' := db.rows[k.rid], db'.rows[k.rid];
         && row' == row.(lane := row'.lane) && row'.lane.startedAt == None
         && row'.lane.attempts == row.lane.attempts + (if scanError then 1 else 0)
         && row'.lane.reclaims == row.lane.reclaims + (if scanError then 0 else 1)
         && row'.lane.state in {Uploaded, ScanFailed}
         && (row'.lane.state == ScanFailed <==>
               || (scanError && row'.lane.attempts >= c.maxScanAttempts)
               || (!scanError && row'.lane.reclaims >= c.maxReclaims)
               || terminal)
  {
  }

  /** A stale failure costs nothing. */
  lemma StaleFailureMeaning(c: Config, db: Db, k: Claim, scanError: bool, terminal: bool)
    requires !(k.rid in db.rows && db.rows[k.rid].lane.state == Scanning && db.rows[k.rid].lane.startedAt == Some(k.token))
    ensures RecordFailure(c, db, k, scanError, terminal) == db
  {
  }

  /** A reclaim takes exactly the rows scanning for longer than the timeout, costs each one reclaim, and
      gives it up when that budget is spent. */
  lemma ReclaimMeaning(c: Config, db: Db, now: nat, r: nat)
    requires r in db.rows
    ensures var db' := ReclaimStuck(c, db, now);
      && db' == db.(rows := db'.rows) && db'.rows.Keys == db.rows.Keys
      && var row, row' := db.rows[r], db'.rows[r];
         if row.lane.state == Scanning && row.lane.startedAt.Some? && row.lane.startedAt.value + c.reclaimAfter < now then
           && row' == row.(lane := row'.lane) && row'.lane.startedAt == None
           && row'.lane.attempts == row.lane.attempts && row'.lane.reclaims == row.lane.reclaims + 1
           && row'.lane.state == (if row.lane.reclaims + 1 >= c.maxReclaims then ScanFailed else Uploaded)
         else row' == row
  {
  }

  // ---- a claim's steps up to its write ----

  /** Reading the row ends a stale claim and otherwise tells the kind of a reviewed receipt; reading the
      images fails, terminally, if there are none; the reply fails if it cannot be used. */
  lemma ScanPathMeaning(w: World, k: Claim, result: ScanResult)
    requires k in w.tasks
    ensures w.tasks[k].Claimed? ==>
      var w' := DoReadRow(w, k);
      if k.rid in w.db.rows && w.db.rows[k.rid].lane.state == Scanning && w.db.rows[k.rid].lane.startedAt == Some(k.token)
      then w' == w.(tasks := w.tasks[k := Snapped(match w.db.rows[k.rid].reviewedAt
                                                  case Some(_) => Some(w.db.rows[k.rid].rec.kind)
                                                  case None => None)])
      else w' == w.(tasks := w.tasks - {k})
    ensures w.tasks[k].Snapped? ==>
      DoReadImages(w, k) ==
      w.(tasks := w.tasks[k := if k.rid in w.db.rows && w.db.rows[k.rid].images != []
                               then Fetched(w.tasks[k].known, w.db.rows[k.rid].images) else Failing(true, true)])
    ensures w.tasks[k].Fetched? ==>
      DoProvide(w, k, result) ==
      w.(tasks := w.tasks[k := match ValidateResult(result, w.tasks[k].known.Some?)
                               case Some(valid) => Scanned(w.tasks[k].images, valid)
                               case None => Failing(true, false)])
    ensures w.tasks[k].Scanned? ==>
      DoLoadLists(w, k) == w.(tasks := w.tasks[k := Ready(Job(w.tasks[k].images, w.tasks[k].result, LoadTaxonomy(w.db, k.user)), 0)])
  {
  }

  /** Comparing and sending the locking read end a stale claim; otherwise the verdict is that of the row
      as it is, a row never reviewed agreeing with anything, and the items are counted. */
  lemma ComparePathMeaning(c: Config, w: World, k: Claim)
    requires k in w.tasks
    ensures w.tasks[k].Ready? ==>
      var w', t := DoCompare(c, w, k), w.tasks[k];
      if k.rid in w.db.rows && w.db.rows[k.rid].lane.state == Scanning && w.db.rows[k.rid].lane.startedAt == Some(k.token)
      then
        var row := w.db.rows[k.rid];
        w' == w.(tasks := w.tasks[k := Compared(t.job, t.attempt, SnapshotOf(row),
                                                row.reviewedAt.Some? ==> Agrees(c, row, t.job.result))])
      else w' == w.(tasks := w.tasks - {k})
    ensures w.tasks[k].Writing? ==>
      var w', t := DoSend(w, k), w.tasks[k];
      if k.rid in w.db.rows && w.db.rows[k.rid].lane.state == Scanning && w.db.rows[k.rid].lane.startedAt == Some(k.token)
      then w' == w.(tasks := w.tasks[k := Locking(t.job, t.attempt, t.before, t.allMatch, t.now, |w.db.rows[k.rid].items|)])
      else w' == w.(tasks := w.tasks - {k})
  {
    if k.rid in w.db.rows && w.tasks[k].Ready? { AgreesMeaning(c, w.db.rows[k.rid], w.tasks[k].job.result); }
  }

  /** A write that does not go through changes no table. It ends quietly if the claim is stale; if the row
      changed since it was compared, it compares once more the first time and fails the second; if an
      item is refused, it fails. The failure is never the scan's fault and never terminal. */
  lemma WritePathMeaning(c: Config, w: World, k: Claim)
    requires Enabled(c, w, Write(k)) && !CommitsWrite(w, k)
    ensures var w', t := Next(c, w, Write(k)), w.tasks[k];
      && w' == w.(tasks := w'.tasks)
      && if !(k.rid in w.db.rows && w.db.rows[k.rid].lane.state == Scanning && w.db.rows[k.rid].lane.startedAt == Some(k.token))
         then w'.tasks == w.tasks - {k}
         else if !(t.before.updatedAt == w.db.rows[k.rid].updatedAt
                   && (t.before.reviewed <==> w.db.rows[k.rid].reviewedAt.Some?) && t.before.itemCount == t.counted)
                 && t.attempt == 0
         then w'.tasks == w.tasks[k := Ready(t.job, 1)]
         else w'.tasks == w.tasks[k := Failing(false, false)]
  {
  }
}
