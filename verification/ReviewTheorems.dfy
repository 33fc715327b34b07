/** What holds of the ledger itself over whole runs: categories, constraints, reviewed data, and the
    derived review state. */
module ReviewTheorems {
  import opened Basics
  import opened Kinds
  import opened LedgerInput
  import opened ScanTypes
  import opened Tables
  import opened LedgerInvariant
  import opened ScanProtocol
  import opened ScanInvariant
  import opened ScanTheorems
  import opened ScanStepMeaning

  // ---- the ledger in every run ----

  /** Whatever six services and any number of workers interleave: every categorised item has a
      category of the receipt's owner on the receipt's side, every tag and payment method is the
      owner's, every row meets the CHECK constraints, and an offset is another receipt of the same owner, set only on a
      kind that may have one. */
  lemma LedgerHoldsInEveryRun(c: Config, worlds: seq<World>, actions: seq<Action>, i: nat, r: nat)
    requires IsRun(c, worlds, actions) && i < |worlds| && r in worlds[i].db.rows
    ensures var db, row := worlds[i].db, worlds[i].db.rows[r];
      && (forall n :: n in row.items ==>
            && (row.items[n].categoryId.Some? ==>
                  var id := row.items[n].categoryId.value;
                  id in db.cats && db.cats[id].owner == row.owner
                  && db.cats[id].isIncome == RulesFor(row.rec.kind).usesIncomeCategories)
            && (forall t :: t in row.items[n].tags ==> t in db.tags && db.tags[t].owner == row.owner))
      && ChkDirectionByKind(row.rec.kind, row.rec.direction)
      && ChkTaxDeductible(row.rec.kind, row.rec.taxDeductible)
      && row.rec.totalCents >= 0
      && (row.rec.paymentMethodId.Some? ==>
            row.rec.paymentMethodId.value in db.methods && db.methods[row.rec.paymentMethodId.value] == row.owner)
      && (row.rec.offsetsReceiptId.Some? ==>
            var target := row.rec.offsetsReceiptId.value;
            RulesFor(row.rec.kind).canOffset && target != r && target in db.rows && db.rows[target].owner == row.owner)
  {
    RunSound(c, worlds, actions, i);
    var db, row := worlds[i].db, worlds[i].db.rows[r];
    assert RowOk(db, r, row);
    forall n | n in row.items ensures ItemFits(db, row.owner, row.rec.kind, row.items[n]) {}
  }

  /** A user's categories on one side never share a name, so a scanned name means at most one. */
  lemma ScannedNameIsUnambiguous(c: Config, worlds: seq<World>, actions: seq<Action>, i: nat, a: nat, b: nat)
    requires IsRun(c, worlds, actions) && i < |worlds| && a in worlds[i].db.cats && b in worlds[i].db.cats
    requires var cats := worlds[i].db.cats;
      cats[a].owner == cats[b].owner && cats[a].isIncome == cats[b].isIncome && Lower(cats[a].name) == Lower(cats[b].name)
    ensures a == b
  {
    RunSound(c, worlds, actions, i);
    assert CategoryNameFree(worlds[i].db, a, worlds[i].db.cats[a]);
  }

  // ---- reviewed data ----

  predicate KeptOnceSet<T(==)>(before: Option<T>, after: Option<T>) {
    before.Some? ==> after == before
  }

  /** Still reviewed, and nothing the user can have entered was changed: only empty merchant, store
      name and date may have been filled in, and only items added. */
  ghost predicate ReviewedDataKept(row: Row, row': Row) {
    && row.reviewedAt.Some? && row'.reviewedAt.Some?
    && row'.owner == row.owner && row'.audEquivalent == row.audEquivalent
    && row'.rec == row.rec.(merchant := row'.rec.merchant, storeNameRaw := row'.rec.storeNameRaw,
                            purchaseDate := row'.rec.purchaseDate)
    && KeptOnceSet(row.rec.merchant, row'.rec.merchant)
    && KeptOnceSet(row.rec.storeNameRaw, row'.rec.storeNameRaw)
    && KeptOnceSet(row.rec.purchaseDate, row'.rec.purchaseDate)
    && forall i :: i in row.items ==> i in row'.items && row'.items[i] == row.items[i]
  }

  /** The acts that reach receipt r: an edit of it or of its items, and the deletion of r, of the
      receipt it offsets, of its payment method, or of a category or tag one of its items has. */
  predicate Reaches(db: Db, act: UserAction, r: nat)
    requires r in db.rows
  {
    var row := db.rows[r];
    match act
    case Patch(_, rid, _, _) => rid == r
    case Delete(_, rid) => rid == r || row.rec.offsetsReceiptId == Some(rid)
    case NewItem(_, rid, _) => rid == r
    case EditItem(_, rid, _, _) => rid == r
    case DropItem(_, rid, _) => rid == r
    case DropCategory(_, id) => exists i :: i in row.items && row.items[i].categoryId == Some(id)
    case DropTag(_, id) => exists i :: i in row.items && id in row.items[i].tags
    case DropMethod(_, id) => row.rec.paymentMethodId == Some(id)
    case _ => false
  }

  predicate EditsLedger(w: World, a: Action, r: nat) {
    a.User? && r in w.db.rows && Reaches(w.db, a.act, r)
  }

  /** Only the owner's acts reach a receipt. */
  lemma OnlyOwnersReach(db: Db, act: UserAction, r: nat)
    requires DbOk(db) && UserDb(db, act).Some? && r in db.rows && Reaches(db, act, r)
    ensures act.user == db.rows[r].owner
  {
    var row := db.rows[r];
    assert RowOk(db, r, row);
    if act.DropCategory? {
      var i :| i in row.items && row.items[i].categoryId == Some(act.id);
      assert ItemFits(db, row.owner, row.rec.kind, row.items[i]);
    } else if act.DropTag? {
      var i :| i in row.items && act.id in row.items[i].tags;
      assert ItemFits(db, row.owner, row.rec.kind, row.items[i]);
    }
  }

  lemma VerifiedRowKeeps(row: Row, now: nat, result: ScanResult, allMatch: bool, items: map<nat, Item>)
    requires row.reviewedAt.Some?
    requires forall i :: i in row.items ==> i in items && items[i] == row.items[i]
    ensures ReviewedDataKept(row, VerifiedRow(row, now, result, allMatch, items))
  {
  }

  lemma CommitKeepsReviewedData(w: World, k: Claim)
    requires DbOk(w.db) && CommitsWrite(w, k) && w.db.rows[k.rid].reviewedAt.Some?
    ensures ReviewedDataKept(w.db.rows[k.rid], Committed(w, k).rows[k.rid])
  {
    var t, row := w.tasks[k], w.db.rows[k.rid];
    var added := Numbered(WrittenItems(row, t.job.result, t.job.taxonomy, t.counted), w.db.nextItem);
    assert RowOk(w.db, k.rid, row);
    VerifiedRowKeeps(row, t.now, t.job.result, t.allMatch, row.items + added);
  }

  lemma WorkerKeepsReviewedData(c: Config, w: World, a: Action, r: nat)
    requires DbOk(w.db) && Enabled(c, w, a) && !a.User? && r in w.db.rows && w.db.rows[r].reviewedAt.Some?
    ensures r in Next(c, w, a).db.rows && ReviewedDataKept(w.db.rows[r], Next(c, w, a).db.rows[r])
  {
    WorkerStep(c, w, a, r);
    EffectKeepsReviewedData(c, w, a, r, Next(c, w, a).db.rows[r]);
  }

  lemma EffectKeepsReviewedData(c: Config, w: World, a: Action, r: nat, row': Row)
    requires DbOk(w.db) && r in w.db.rows && w.db.rows[r].reviewedAt.Some?
    requires WorkerEffect(c, w, a, r, w.db.rows[r], row')
    ensures ReviewedDataKept(w.db.rows[r], row')
  {
    if a.Write? && a.k.rid == r && CommitsWrite(w, a.k) {
      CommitKeepsReviewedData(w, a.k);
    }
  }

  lemma DropsKeepOthers(db: Db, act: UserAction, r: nat)
    requires UserDb(db, act).Some? && r in db.rows && !Reaches(db, act, r)
    requires act.Delete? || act.DropCategory? || act.DropTag? || act.DropMethod?
    ensures r in UserDb(db, act).value.rows && UserDb(db, act).value.rows[r] == db.rows[r]
  {
    var row := db.rows[r];
    if act.DropCategory? {
      assert Uncategorise(row, act.id).items == row.items;
    } else if act.DropTag? {
      forall i | i in row.items ensures row.items[i].tags - {act.id} == row.items[i].tags {}
      assert Untag(row, act.id).items == row.items;
    }
  }

  lemma InsertsKeepRows(db: Db, act: UserAction, r: nat)
    requires DbOk(db) && UserDb(db, act).Some? && r in db.rows && (act.Upload? || act.EnterManually?)
    ensures r in UserDb(db, act).value.rows && UserDb(db, act).value.rows[r] == db.rows[r]
  {
    assert r < db.nextRow;
  }

  lemma ReceiptActsKeepReviewed(db: Db, act: UserAction, r: nat)
    requires UserDb(db, act).Some? && r in db.rows && !Reaches(db, act, r) && db.rows[r].reviewedAt.Some?
    requires act.Attach? || act.Patch? || act.Retry?
    ensures r in UserDb(db, act).value.rows && ReviewedDataKept(db.rows[r], UserDb(db, act).value.rows[r])
  {
  }

  lemma OtherActsKeepReviewed(db: Db, act: UserAction, r: nat)
    requires UserDb(db, act).Some? && r in db.rows && !Reaches(db, act, r) && db.rows[r].reviewedAt.Some?
    requires !(act.Upload? || act.EnterManually? || act.Attach? || act.Patch? || act.Retry?)
    requires !(act.Delete? || act.DropCategory? || act.DropTag? || act.DropMethod?)
    ensures r in UserDb(db, act).value.rows && UserDb(db, act).value.rows[r] == db.rows[r]
  {
  }

  lemma UserKeepsReviewedData(db: Db, act: UserAction, r: nat)
    requires DbOk(db) && UserDb(db, act).Some? && r in db.rows && !Reaches(db, act, r)
    requires db.rows[r].reviewedAt.Some?
    ensures r in UserDb(db, act).value.rows && ReviewedDataKept(db.rows[r], UserDb(db, act).value.rows[r])
  {
    if act.Upload? || act.EnterManually? {
      InsertsKeepRows(db, act, r);
    } else if act.Attach? || act.Patch? || act.Retry? {
      ReceiptActsKeepReviewed(db, act, r);
    } else if act.Delete? || act.DropCategory? || act.DropTag? || act.DropMethod? {
      DropsKeepOthers(db, act, r);
    } else {
      OtherActsKeepReviewed(db, act, r);
    }
  }

  ghost predicate KeptAcross(db: Db, db': Db, r: nat) {
    r in db.rows && r in db'.rows && ReviewedDataKept(db.rows[r], db'.rows[r])
  }

  lemma StepKeepsReviewedData(c: Config, worlds: seq<World>, actions: seq<Action>, n: nat, r: nat)
    requires IsRun(c, worlds, actions) && n < |actions| && !EditsLedger(worlds[n], actions[n], r)
    requires r in worlds[n].db.rows && worlds[n].db.rows[r].reviewedAt.Some?
    ensures KeptAcross(worlds[n].db, worlds[n + 1].db, r)
  {
    var w, a := worlds[n], actions[n];
    RunSound(c, worlds, actions, n);
    if a.User? {
      UserKeepsReviewedData(w.db, a.act, r);
    } else {
      WorkerKeepsReviewedData(c, w, a, r);
    }
  }

  /** Over any stretch of a run in which no act of its owner reaches a reviewed receipt, scans, re-scans,
      retries, crashes and new images, and whatever anybody else does, never cost it anything the user
      entered. */
  lemma {:induction false} ReviewedDataIsNeverLost(c: Config, worlds: seq<World>, actions: seq<Action>, i: nat, j: nat, r: nat)
    requires IsRun(c, worlds, actions) && i <= j < |worlds|
    requires r in worlds[i].db.rows && worlds[i].db.rows[r].reviewedAt.Some?
    requires forall n :: i <= n < j ==> !EditsLedger(worlds[n], actions[n], r)
    ensures KeptAcross(worlds[i].db, worlds[j].db, r)
    decreases j - i
  {
    if i < j {
      StepKeepsReviewedData(c, worlds, actions, i, r);
      ReviewedDataIsNeverLost(c, worlds, actions, i + 1, j, r);
    }
  }

  // ---- the derived review state ----

  /** The row written is confirmed exactly if it was reviewed and agrees with the scan; otherwise it
      needs review. */
  ghost predicate ReviewDecided(c: Config, row: Row, row': Row, result: ScanResult) {
    && (IsConfirmed(row') <==> row.reviewedAt.Some? && Agrees(c, row, result))
    && (NeedsReview(row') <==> !IsConfirmed(row'))
  }

  /** In every run, a committed verify write confirms the receipt exactly when the scan agrees with the
      row it was written to, and otherwise sends it to review; an extraction always does. */
  lemma WriteDecidesReview(c: Config, worlds: seq<World>, actions: seq<Action>, i: nat, r: nat)
    requires IsRun(c, worlds, actions) && i < |actions| && CommitsTo(worlds[i], actions[i], r)
    ensures r in worlds[i + 1].db.rows
    ensures ReviewDecided(c, worlds[i].db.rows[r], worlds[i + 1].db.rows[r], worlds[i].tasks[actions[i].k].job.result)
  {
    CommittedInRun(c, worlds, actions, i, r);
    ReviewOfCommit(c, worlds, actions, i, r);
  }

  lemma ReviewOfCommit(c: Config, worlds: seq<World>, actions: seq<Action>, i: nat, r: nat)
    requires IsRun(c, worlds, actions) && i < |actions| && CommitsTo(worlds[i], actions[i], r)
    ensures r in Committed(worlds[i], actions[i].k).rows
    ensures ReviewDecided(c, worlds[i].db.rows[r], Committed(worlds[i], actions[i].k).rows[r],
                          worlds[i].tasks[actions[i].k].job.result)
  {
    RunSound(c, worlds, actions, i);
    CommitReview(c, worlds[i], actions[i].k);
  }

  lemma CommitReview(c: Config, w: World, k: Claim)
    requires Inv(c, w) && CommitsWrite(w, k)
    ensures k.rid in Committed(w, k).rows
    ensures ReviewDecided(c, w.db.rows[k.rid], Committed(w, k).rows[k.rid], w.tasks[k].job.result)
  {
    assert TaskSound(c, w.db, k, w.tasks[k]);
    AgreesMeaning(c, w.db.rows[k.rid], w.tasks[k].job.result);
  }

  /** A worker takes a receipt out of the confirmed state only by writing a scan that disagrees with
      it: never by claiming, reclaiming or failing. */
  lemma OnlyAMismatchUnconfirms(c: Config, worlds: seq<World>, actions: seq<Action>, i: nat, r: nat)
    requires IsRun(c, worlds, actions) && i < |actions| && !actions[i].User?
    requires r in worlds[i].db.rows && IsConfirmed(worlds[i].db.rows[r])
    ensures r in worlds[i + 1].db.rows
    ensures !IsConfirmed(worlds[i + 1].db.rows[r]) <==>
      && actions[i].Write? && actions[i].k.rid == r && CommitsWrite(worlds[i], actions[i].k)
      && !Agrees(c, worlds[i].db.rows[r], worlds[i].tasks[actions[i].k].job.result)
  {
    var w, a := worlds[i], actions[i];
    WorkerStep(c, w, a, r);
    if a.Write? && a.k.rid == r && CommitsWrite(w, a.k) {
      WriteDecidesReview(c, worlds, actions, i, r);
    }
  }

  /** Marking a receipt reviewed stamps the time the edit's transaction began, so it confirms the receipt
      exactly when that is no earlier than the last scan proposal. */
  lemma MarkingReviewedConfirmsIff(db: Db, user: nat, rid: nat, stamp: nat, patch: ReceiptPatch)
    requires UpdateReceipt(db, user, rid, stamp, patch).Some? && patch.reviewed == Given(true)
    ensures rid in db.rows && rid in UpdateReceipt(db, user, rid, stamp, patch).value.rows
    ensures IsConfirmed(UpdateReceipt(db, user, rid, stamp, patch).value.rows[rid]) <==>
            db.rows[rid].proposedAt.None? || db.rows[rid].proposedAt.value <= stamp
  {
  }

  // ---- exchange rates ----

  /** The stored rate is admissible, and the stored AUD equivalent is the one the row's own total and
      rate give. */
  predicate RateSound(row: Row) {
    FxRuleHolds(row.rec) && row.audEquivalent == AudEquivalentCents(row.rec.totalCents, row.rec.fxRateToAud)
  }

  ghost predicate RatesSound(db: Db) {
    forall r :: r in db.rows ==> RateSound(db.rows[r])
  }

  /** The step commits an extraction to a receipt that has a rate, and the scan is in AUD or its total
      converts to another equivalent. */
  ghost predicate StrandsRate(w: World, a: Action) {
    && a.Write? && CommitsWrite(w, a.k)
    && var row, result := w.db.rows[a.k.rid], w.tasks[a.k].job.result;
       && row.reviewedAt.None? && row.rec.fxRateToAud.Some?
       && (result.currency == "AUD"
           || AudEquivalentCents(result.totalCents, row.rec.fxRateToAud) != row.audEquivalent)
  }

  lemma UserKeepsRates(db: Db, act: UserAction)
    requires RatesSound(db) && UserDb(db, act).Some?
    ensures RatesSound(UserDb(db, act).value)
  {
  }

  lemma WriteKeepsRateIff(w: World, k: Claim)
    requires CommitsWrite(w, k) && RateSound(w.db.rows[k.rid])
    ensures k.rid in Committed(w, k).rows
    ensures RateSound(Committed(w, k).rows[k.rid]) <==> !StrandsRate(w, Write(k))
  {
  }

  lemma WorkerKeepsRates(c: Config, w: World, a: Action, r: nat)
    requires Enabled(c, w, a) && !a.User? && r in w.db.rows && RateSound(w.db.rows[r])
    ensures r in Next(c, w, a).db.rows
    ensures RateSound(Next(c, w, a).db.rows[r]) <==> !(StrandsRate(w, a) && a.k.rid == r)
  {
    WorkerStep(c, w, a, r);
    if a.Write? && CommitsWrite(w, a.k) {
      CommitShape(w, a.k);
      CommittedRowShape(w, a.k);
      WriteKeepsRateIffAt(w, a.k, r);
    }
  }

  lemma WriteKeepsRateIffAt(w: World, k: Claim, r: nat)
    requires CommitsWrite(w, k) && r in w.db.rows && RateSound(w.db.rows[r])
    ensures r in Committed(w, k).rows
    ensures RateSound(Committed(w, k).rows[r]) <==> !(StrandsRate(w, Write(k)) && k.rid == r)
  {
    CommittedRowShape(w, k);
    if r == k.rid { WriteKeepsRateIff(w, k); }
  }

  /** Exactly one kind of step leaves a stored rate inadmissible or its equivalent stale: a committed
      extraction that replaces currency and total under a rate they do not go with. */
  lemma ExtractionAndExchangeRate(c: Config, w: World, a: Action)
    requires Enabled(c, w, a) && RatesSound(w.db)
    ensures RatesSound(Next(c, w, a).db) <==> !StrandsRate(w, a)
  {
    var db' := Next(c, w, a).db;
    if a.User? {
      UserKeepsRates(w.db, a.act);
    } else {
      forall r | r in db'.rows ensures RateSound(db'.rows[r]) <==> !(StrandsRate(w, a) && a.k.rid == r) {
        WorkerStep(c, w, a, r);
        WorkerKeepsRates(c, w, a, r);
      }
      if StrandsRate(w, a) { WorkerKeepsRates(c, w, a, a.k.rid); }
    }
  }

  lemma {:induction false} RatesSoundUpTo(c: Config, worlds: seq<World>, actions: seq<Action>, i: nat)
    requires IsRun(c, worlds, actions) && i < |worlds|
    requires forall j :: 0 <= j < i ==> !StrandsRate(worlds[j], actions[j])
    ensures RatesSound(worlds[i].db)
  {
    if i > 0 {
      RatesSoundUpTo(c, worlds, actions, i - 1);
      ExtractionAndExchangeRate(c, worlds[i - 1], actions[i - 1]);
    }
  }

  /** Over whole runs: stored rates are sound at every moment if and only if no extraction strands one. */
  lemma RatesStaySoundIff(c: Config, worlds: seq<World>, actions: seq<Action>)
    requires IsRun(c, worlds, actions)
    ensures (forall i :: 0 <= i < |worlds| ==> RatesSound(worlds[i].db)) <==>
            (forall j :: 0 <= j < |actions| ==> !StrandsRate(worlds[j], actions[j]))
  {
    if forall j :: 0 <= j < |actions| ==> !StrandsRate(worlds[j], actions[j]) {
      forall i | 0 <= i < |worlds| ensures RatesSound(worlds[i].db) {
        RatesSoundUpTo(c, worlds, actions, i);
      }
    }
    if forall i :: 0 <= i < |worlds| ==> RatesSound(worlds[i].db) {
      forall j | 0 <= j < |actions| ensures !StrandsRate(worlds[j], actions[j]) {
        assert RatesSound(worlds[j].db) && RatesSound(worlds[j + 1].db);
        ExtractionAndExchangeRate(c, worlds[j], actions[j]);
      }
    }
  }

  // ---- items counted before the lock ----

  /** The write that would commit now verifies, and adds scanned items to a receipt that has some. */
  ghost predicate JoinsItems(w: World, k: Claim) {
    && CommitsWrite(w, k) && w.db.rows[k.rid].reviewedAt.Some? && w.db.rows[k.rid].items != map[]
    && WrittenItems(w.db.rows[k.rid], w.tasks[k].job.result, w.tasks[k].job.taxonomy, w.tasks[k].counted) != []
  }

  /** The last locking read of claim k before step i was sent at step j. */
  ghost predicate LastSent(worlds: seq<World>, actions: seq<Action>, j: nat, i: nat, k: Claim)
    requires |worlds| == |actions| + 1 && i <= |actions|
  {
    && j < i && actions[j] == Send(k) && ClaimHolds(worlds[j].db, k)
    && forall m :: j < m < i ==> actions[m] != Send(k)
  }

  /** Steps that do not work for claim k leave its task alone, unless they create it. */
  lemma OthersLeaveTask(c: Config, w: World, a: Action, k: Claim)
    requires Enabled(c, w, a) && !ActsFor(a, k) && k in Next(c, w, a).tasks
    ensures (k in w.tasks && Next(c, w, a).tasks[k] == w.tasks[k]) || Next(c, w, a).tasks[k].Claimed?
  {
  }

  /** Only sending the locking read takes a claim to it. */
  lemma OwnStepToLocking(c: Config, w: World, a: Action, k: Claim)
    requires Enabled(c, w, a) && ActsFor(a, k) && k in Next(c, w, a).tasks && Next(c, w, a).tasks[k].Locking?
    ensures a == Send(k) && ClaimHolds(w.db, k) && |w.db.rows[k.rid].items| == Next(c, w, a).tasks[k].counted
  {
  }

  lemma LockingWasSent(c: Config, w: World, a: Action, k: Claim)
    requires Enabled(c, w, a) && k in Next(c, w, a).tasks && Next(c, w, a).tasks[k].Locking?
    ensures || (k in w.tasks && w.tasks[k] == Next(c, w, a).tasks[k] && a != Send(k))
            || (a == Send(k) && ClaimHolds(w.db, k) && |w.db.rows[k.rid].items| == Next(c, w, a).tasks[k].counted)
  {
    if ActsFor(a, k) { OwnStepToLocking(c, w, a, k); } else { OthersLeaveTask(c, w, a, k); }
  }

  lemma LockingInRun(c: Config, worlds: seq<World>, actions: seq<Action>, n: nat, k: Claim)
    requires IsRun(c, worlds, actions) && n < |actions| && k in worlds[n + 1].tasks && worlds[n + 1].tasks[k].Locking?
    ensures || (k in worlds[n].tasks && worlds[n].tasks[k] == worlds[n + 1].tasks[k] && actions[n] != Send(k))
            || (actions[n] == Send(k) && ClaimHolds(worlds[n].db, k)
                && |worlds[n].db.rows[k.rid].items| == worlds[n + 1].tasks[k].counted)
  {
    LockingWasSent(c, worlds[n], actions[n], k);
  }

  /** A write works with the item count of its last locking read. */
  lemma {:induction false} CountWasTaken(c: Config, worlds: seq<World>, actions: seq<Action>, i: nat, k: Claim)
    requires IsRun(c, worlds, actions) && i < |worlds| && k in worlds[i].tasks && worlds[i].tasks[k].Locking?
    ensures exists j: nat :: LastSent(worlds, actions, j, i, k) && |worlds[j].db.rows[k.rid].items| == worlds[i].tasks[k].counted
  {
    if i > 0 {
      LockingInRun(c, worlds, actions, i - 1, k);
      if actions[i - 1] == Send(k) {
        assert LastSent(worlds, actions, i - 1, i, k);
      } else {
        CountWasTaken(c, worlds, actions, i - 1, k);
        var j: nat :| LastSent(worlds, actions, j, i - 1, k) && |worlds[j].db.rows[k.rid].items| == worlds[i].tasks[k].counted;
        assert LastSent(worlds, actions, j, i, k);
      }
    }
  }

  /** In every run, a verify write adds scanned items to a receipt that already has some if and only if
      the scan has items, the receipt has some now, and it had none when the locking read was sent. */
  lemma ItemsJoinIff(c: Config, worlds: seq<World>, actions: seq<Action>, i: nat, r: nat)
    requires IsRun(c, worlds, actions) && i < |actions| && CommitsTo(worlds[i], actions[i], r)
    requires worlds[i].db.rows[r].reviewedAt.Some?
    ensures exists j: nat ::
      LastSent(worlds, actions, j, i, actions[i].k)
      && (JoinsItems(worlds[i], actions[i].k) <==>
            && worlds[j].db.rows[r].items == map[] && worlds[i].db.rows[r].items != map[]
            && worlds[i].tasks[actions[i].k].job.result.items != [])
  {
    var w, k := worlds[i], actions[i].k;
    CountWasTaken(c, worlds, actions, i, k);
    var j: nat :| LastSent(worlds, actions, j, i, k) && |worlds[j].db.rows[k.rid].items| == w.tasks[k].counted;
    JoinsIff(w, k);
    EmptyIff(worlds[j].db.rows[r].items);
  }

  lemma EmptyIff(items: map<nat, Item>)
    ensures |items| == 0 <==> items == map[]
  {
  }

  lemma JoinsIff(w: World, k: Claim)
    requires CommitsWrite(w, k) && w.db.rows[k.rid].reviewedAt.Some?
    ensures JoinsItems(w, k) <==>
            w.tasks[k].counted == 0 && w.db.rows[k.rid].items != map[] && w.tasks[k].job.result.items != []
  {
    var t, row := w.tasks[k], w.db.rows[k.rid];
    assert |ToItemInputs(t.job.result.items, row.rec.kind, t.job.taxonomy)| == |t.job.result.items|;
  }
}
