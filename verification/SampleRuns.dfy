/** Two complete runs from the empty system, one action at a time, to the states in which a promise one
    might expect does not hold. */
module SampleRuns {
  import opened Basics
  import opened Kinds
  import opened LedgerInput
  import opened ScanTypes
  import opened Tables
  import opened ClaimLog
  import opened ScanProtocol
  import opened ScanInvariant
  import opened ReviewTheorems

  /** Some run from the start ends in w. */
  ghost predicate Reachable(c: Config, w: World) {
    exists worlds, actions :: IsRun(c, worlds, actions) && worlds[|actions|] == w
  }

  lemma StartReachable(c: Config)
    ensures Reachable(c, START)
  {
    var worlds: seq<World>, actions: seq<Action> := [START], [];
    assert IsRun(c, worlds, actions) && worlds[|actions|] == START;
  }

  lemma StepReachable(c: Config, w: World, a: Action)
    requires Reachable(c, w) && Enabled(c, w, a)
    ensures Reachable(c, Next(c, w, a))
  {
    var worlds, actions :| IsRun(c, worlds, actions) && worlds[|actions|] == w;
    var worlds', actions' := worlds + [Next(c, w, a)], actions + [a];
    forall i | 0 <= i < |actions'|
      ensures Enabled(c, worlds'[i], actions'[i]) && worlds'[i + 1] == Next(c, worlds'[i], actions'[i])
    {
      if i < |actions| {
        assert worlds'[i] == worlds[i] && worlds'[i + 1] == worlds[i + 1] && actions'[i] == actions[i];
      } else {
        assert worlds'[i] == w && actions'[i] == a;
      }
    }
    assert IsRun(c, worlds', actions') && worlds'[|actions'|] == Next(c, w, a);
  }

  /** What is particular about the one receipt: its fields, its AUD equivalent, its version, its review. */
  datatype Base = Base(rec: Editable, aud: Option<int>, version: nat, reviewed: Option<nat>)

  /** A system with that receipt of user 0, one image, no items, and nothing else. */
  function Single(base: Base, lane: Lane, clock: nat, open: set<nat>, log: seq<Event>, tasks: map<Claim, Task>): World {
    World(Db(map[0 := Row(0, base.rec, base.aud, lane, None, base.reviewed, 0, base.version, ["image"], map[], None)],
             map[], map[], map[], 1, 0, 0, clock, open),
          map[0 := log], tasks, [], {}, [], {})
  }

  function Queued(base: Base, clock: nat): World {
    Single(base, QUEUED, clock, {}, [Created(true)], map[])
  }

  /** Claimed with token t and gone as far as `task`; `open` holds transactions begun meanwhile. */
  function AtTask(base: Base, t: nat, clock: nat, open: set<nat>, task: Task): World {
    Single(base, Lane(Scanning, 0, 0, Some(t)), clock, open, [Created(true), Issued(t)], map[Claim(0, 0, t) := task])
  }

  const UPLOADED: Base := Base(BLANK_RECEIPT, None, 0, None)

  // ---- up to the queue ----

  lemma Uploaded(c: Config)
    ensures Reachable(c, Queued(UPLOADED, 1))
  {
    StartReachable(c);
    var begun := START.(db := Begin(START.db));
    StepReachable(c, START, User(BeginTransaction));
    var upload := User(Upload(0, 0, ["image"]));
    StepReachable(c, begun, upload);
    assert begun.db == Db(map[], map[], map[], map[], 0, 0, 0, 1, {0});
    var row := Row(0, BLANK_RECEIPT, None, QUEUED, None, None, 0, 0, ["image"], map[], None);
    assert Numbered([], 0) == map[] && row.(items := map[]) == row;
    assert UploadReceipt(begun.db, 0, 0, ["image"]).rows == map[0 := row];
    assert Next(c, begun, upload) == Queued(UPLOADED, 1);
  }

  /** The user edits the queued receipt. */
  lemma EditedQueued(c: Config, patch: ReceiptPatch, base: Base)
    requires ApplyReceiptPatch(BLANK_RECEIPT, patch) == Some((base.rec, base.reviewed.Some?))
    requires base.rec.offsetsReceiptId.None? && base.rec.paymentMethodId.None? && base.rec.kind == Purchase
    requires base.aud == AudEquivalentCents(base.rec.totalCents, base.rec.fxRateToAud)
    requires base.version == 1 && base.reviewed in {None, Some(1)}
    ensures Reachable(c, Queued(base, 2))
  {
    Uploaded(c);
    var w := Queued(UPLOADED, 1);
    var begun := w.(db := Begin(w.db));
    StepReachable(c, w, User(BeginTransaction));
    PatchedRow(c, begun, patch, base);
    StepReachable(c, begun, User(Patch(0, 0, 1, patch)));
  }

  lemma PatchedRow(c: Config, begun: World, patch: ReceiptPatch, base: Base)
    requires begun == Queued(UPLOADED, 1).(db := Begin(Queued(UPLOADED, 1).db))
    requires ApplyReceiptPatch(BLANK_RECEIPT, patch) == Some((base.rec, base.reviewed.Some?))
    requires base.rec.offsetsReceiptId.None? && base.rec.paymentMethodId.None? && base.rec.kind == Purchase
    requires base.aud == AudEquivalentCents(base.rec.totalCents, base.rec.fxRateToAud)
    requires base.version == 1 && base.reviewed in {None, Some(1)}
    ensures Enabled(c, begun, User(Patch(0, 0, 1, patch)))
    ensures Next(c, begun, User(Patch(0, 0, 1, patch))) == Queued(base, 2)
  {
    assert begun.db.open - {1} == {};
    assert Next(c, begun, User(Patch(0, 0, 1, patch))).db.rows == Queued(base, 2).db.rows;
  }

  const FOREIGN_PATCH: ReceiptPatch :=
    ReceiptPatch(Absent, Absent, Given(100), Given("USD"), Absent, Absent, Absent, Absent, Absent, Absent, Absent,
                 Given(Some(1.5)), Absent)

  const FOREIGN_RECEIPT: Editable := BLANK_RECEIPT.(totalCents := 100, currency := "USD", fxRateToAud := Some(1.5))

  const FOREIGN: Base := Base(FOREIGN_RECEIPT, Some(150), 1, None)

  const JUST_REVIEWED: ReceiptPatch :=
    ReceiptPatch(Absent, Absent, Absent, Absent, Absent, Absent, Absent, Absent, Absent, Absent, Absent, Absent, Given(true))

  const REVIEWED: Base := Base(BLANK_RECEIPT, None, 1, Some(1))

  // ---- one scan, from the queue to the write ----

  lemma Claimed(c: Config, base: Base, clock: nat)
    requires Reachable(c, Queued(base, clock)) && c.concurrency >= 1
    ensures Reachable(c, AtTask(base, clock, clock + 1, {}, Task.Claimed))
  {
    var w := Queued(base, clock);
    StepReachable(c, w, CountSlots);
    assert ScanningSet(w.db) == {};
    var counted := w.(limits := [c.concurrency as nat]);
    assert Next(c, w, CountSlots) == counted;
    var tokens := map[0 := clock];
    assert tokens.Keys == {0};
    assert OldestClaimable(w.db, c.concurrency, {}, {0});
    StepReachable(c, counted, Take(0, {}, tokens, clock + 1));
    TakenWorld(base, clock, counted, tokens);
  }

  lemma TakenWorld(base: Base, clock: nat, w: World, tokens: map<nat, nat>)
    requires |w.limits| == 1 && w == Queued(base, clock).(limits := w.limits) && tokens == map[0 := clock]
    ensures DoTake(w, 0, tokens, clock + 1) == AtTask(base, clock, clock + 1, {}, Task.Claimed)
  {
    var w' := DoTake(w, 0, tokens, clock + 1);
    var goal := AtTask(base, clock, clock + 1, {}, Task.Claimed);
    assert 0 in tokens && 0 in w.db.rows && Claim(0, 0, clock) in NewClaims(w.db, tokens);
    forall k | k in NewClaims(w.db, tokens) ensures k == Claim(0, 0, clock) {}
    assert [Created(true)] + [Issued(clock)] == [Created(true), Issued(clock)];
    assert w'.tasks == goal.tasks;
    assert w'.db.rows == goal.db.rows;
    assert w'.log == goal.log;
    assert w'.limits == [];
  }

  function Known(base: Base): Snapshot {
    Snapshot(base.reviewed.Some?, base.rec.kind, base.rec.totalCents, base.rec.currency, base.rec.merchant,
             base.rec.purchaseDate, base.rec.taxDeductible, base.rec.offsetsReceiptId, base.version, 0)
  }

  const NO_LISTS: Taxonomy := Taxonomy([], [])

  function JobOf(result: ScanResult): Job {
    Job(["image"], result, NO_LISTS)
  }

  /** The receipt is read, its image fetched, and the provider answers. */
  lemma ScannedAs(c: Config, base: Base, t: nat, result: ScanResult)
    requires Reachable(c, AtTask(base, t, t + 1, {}, Task.Claimed))
    requires ValidateResult(result, base.reviewed.Some?) == Some(result)
    ensures Reachable(c, AtTask(base, t, t + 1, {}, Scanned(["image"], result)))
  {
    var k, known := Claim(0, 0, t), if base.reviewed.Some? then Some(base.rec.kind) else None;
    var w := AtTask(base, t, t + 1, {}, Task.Claimed);
    StepReachable(c, w, ReadRow(k));
    var read := AtTask(base, t, t + 1, {}, Snapped(known));
    assert Next(c, w, ReadRow(k)) == read;
    FetchedAndScanned(c, base, t, known, result);
  }

  lemma FetchedAndScanned(c: Config, base: Base, t: nat, known: Option<Kind>, result: ScanResult)
    requires Reachable(c, AtTask(base, t, t + 1, {}, Snapped(known))) && ValidateResult(result, known.Some?) == Some(result)
    ensures Reachable(c, AtTask(base, t, t + 1, {}, Scanned(["image"], result)))
  {
    var k, read := Claim(0, 0, t), AtTask(base, t, t + 1, {}, Snapped(known));
    StepReachable(c, read, ReadImages(k));
    var fetched := AtTask(base, t, t + 1, {}, Fetched(known, ["image"]));
    assert Next(c, read, ReadImages(k)) == fetched;
    StepReachable(c, fetched, Provide(k, result));
    assert Next(c, fetched, Provide(k, result)) == AtTask(base, t, t + 1, {}, Scanned(["image"], result));
  }

  /** The worker loads the lists and compares. */
  lemma ComparedToo(c: Config, base: Base, t: nat, result: ScanResult)
    requires Reachable(c, AtTask(base, t, t + 1, {}, Scanned(["image"], result)))
    requires SnapshotMatches(c, Known(base), result)
    ensures Reachable(c, AtTask(base, t, t + 1, {}, Compared(JobOf(result), 0, Known(base), true)))
  {
    var k, job := Claim(0, 0, t), JobOf(result);
    var w := AtTask(base, t, t + 1, {}, Scanned(["image"], result));
    StepReachable(c, w, LoadLists(k));
    var ready := AtTask(base, t, t + 1, {}, Ready(job, 0));
    assert Next(c, w, LoadLists(k)) == ready;
    StepReachable(c, ready, Compare(k));
    assert Next(c, ready, Compare(k)) == AtTask(base, t, t + 1, {}, Compared(job, 0, Known(base), true));
  }

  /** The user opens a transaction just before the worker begins its write. */
  lemma BothBegin(c: Config, base: Base, t: nat, job: Job, before: Snapshot)
    requires Reachable(c, AtTask(base, t, t + 1, {}, Compared(job, 0, before, true)))
    ensures Reachable(c, AtTask(base, t, t + 3, {t + 1}, Writing(job, 0, before, true, t + 2)))
  {
    var k := Claim(0, 0, t);
    var compared := AtTask(base, t, t + 1, {}, Compared(job, 0, before, true));
    StepReachable(c, compared, User(BeginTransaction));
    var begun := AtTask(base, t, t + 2, {t + 1}, Compared(job, 0, before, true));
    assert {} + {t + 1} == {t + 1};
    assert Next(c, compared, User(BeginTransaction)) == begun;
    StepReachable(c, begun, BeginWrite(k));
    assert Next(c, begun, BeginWrite(k)) == AtTask(base, t, t + 3, {t + 1}, Writing(job, 0, before, true, t + 2));
  }

  /** The world in which the locking read has been sent, having counted no items. */
  function Sent(base: Base, t: nat, result: ScanResult): World {
    AtTask(base, t, t + 3, {t + 1}, Locking(JobOf(result), 0, Known(base), true, t + 2, 0))
  }

  lemma CountedNone(c: Config, base: Base, t: nat, result: ScanResult)
    requires Reachable(c, AtTask(base, t, t + 3, {t + 1}, Writing(JobOf(result), 0, Known(base), true, t + 2)))
    ensures Reachable(c, Sent(base, t, result))
  {
    var w := AtTask(base, t, t + 3, {t + 1}, Writing(JobOf(result), 0, Known(base), true, t + 2));
    StepReachable(c, w, Send(Claim(0, 0, t)));
    assert Next(c, w, Send(Claim(0, 0, t))) == Sent(base, t, result);
  }

  lemma OneScan(c: Config, base: Base, t: nat, result: ScanResult)
    requires Reachable(c, Queued(base, t)) && c.concurrency >= 1
    requires ValidateResult(result, base.reviewed.Some?) == Some(result) && SnapshotMatches(c, Known(base), result)
    ensures Reachable(c, Sent(base, t, result))
  {
    Claimed(c, base, t);
    ScannedAs(c, base, t, result);
    ComparedToo(c, base, t, result);
    BothBegin(c, base, t, JobOf(result), Known(base));
    CountedNone(c, base, t, result);
  }

  /** That write commits: the receipt was never reviewed, so the scan's fields replace its own. */
  lemma WriteCommits(c: Config, base: Base, t: nat, result: ScanResult)
    requires FindKind(result.kind) == Some(Purchase) && result.items == [] && base.reviewed.None?
    ensures var w := Sent(base, t, result);
      && CommitsWrite(w, Claim(0, 0, t)) && Enabled(c, w, Write(Claim(0, 0, t)))
      && Next(c, w, Write(Claim(0, 0, t))).db.rows == map[0 := ExtractedRow(w.db.rows[0], t + 2, Purchase, result, map[])]
      && Next(c, w, Write(Claim(0, 0, t))).db.open == {t + 1}
  {
    var k, w := Claim(0, 0, t), Sent(base, t, result);
    var row := w.db.rows[0];
    assert ToItemInputs(result.items, Purchase, NO_LISTS) == [];
    assert WrittenItems(row, result, NO_LISTS, 0) == [] && WrittenKind(row, result) == Purchase;
    assert Numbered([], 0) == map[];
    assert WriteResult(w.db, k, t + 2, result, NO_LISTS, true, 0).Some?;
    CommitShape(w, k);
  }

  const AUD_SCAN: ScanResult := ScanResult("purchase", "AUD", 200, None, None, Absent, [])

  lemma AudScanValid()
    ensures ValidateResult(AUD_SCAN, false) == Some(AUD_SCAN) && FindKind(AUD_SCAN.kind) == Some(Purchase)
  {
    FindKindInvertsNames("purchase", Purchase);
    assert Upper("AUD") == "AUD";
  }

  // ---- what they end in ----

  /** Marking a valid receipt reviewed with a stamp before its last proposal. */
  lemma ReviewedTooEarly(c: Config, w: World, stamp: nat)
    requires 0 in w.db.rows && w.db.rows[0].owner == 0 && stamp in w.db.open
    requires ValidReceipt(w.db.rows[0].rec)
    requires w.db.rows[0].rec.offsetsReceiptId.None? && w.db.rows[0].rec.paymentMethodId.None?
    requires w.db.rows[0].proposedAt.Some? && stamp < w.db.rows[0].proposedAt.value
    ensures var edit := User(Patch(0, 0, stamp, JUST_REVIEWED));
      Enabled(c, w, edit) && 0 in Next(c, w, edit).db.rows && NeedsReview(Next(c, w, edit).db.rows[0])
  {
    var rec := w.db.rows[0].rec;
    assert ApplyReceiptPatch(rec, JUST_REVIEWED) == Some((rec, true));
  }

  /** A run in which the user marks a receipt reviewed, after a scan was committed to it but in a
      transaction begun before: the edit is accepted and the receipt still needs review. */
  lemma MarkingReviewedCanBeOvertaken(c: Config)
    requires c.concurrency >= 1
    ensures exists w, stamp ::
      && Reachable(c, w) && Enabled(c, w, User(Patch(0, 0, stamp, JUST_REVIEWED)))
      && 0 in Next(c, w, User(Patch(0, 0, stamp, JUST_REVIEWED))).db.rows
      && NeedsReview(Next(c, w, User(Patch(0, 0, stamp, JUST_REVIEWED))).db.rows[0])
  {
    AudScanValid();
    Uploaded(c);
    OneScan(c, UPLOADED, 1, AUD_SCAN);
    WriteCommits(c, UPLOADED, 1, AUD_SCAN);
    var w := Sent(UPLOADED, 1, AUD_SCAN);
    StepReachable(c, w, Write(Claim(0, 0, 1)));
    ReviewedTooEarly(c, Next(c, w, Write(Claim(0, 0, 1))), 2);
  }

  /** A run in which a foreign receipt with a sound rate is scanned as AUD and loses both. */
  lemma ExtractionCanStrandARate(c: Config)
    requires c.concurrency >= 1
    ensures exists w, k :: Reachable(c, w) && Enabled(c, w, Write(k)) && RatesSound(w.db) && StrandsRate(w, Write(k))
                           && !RatesSound(Next(c, w, Write(k)).db)
  {
    AudScanValid();
    assert LlRound(150.0) == 150;
    assert ApplyReceiptPatch(BLANK_RECEIPT, FOREIGN_PATCH) == Some((FOREIGN_RECEIPT, false));
    EditedQueued(c, FOREIGN_PATCH, FOREIGN);
    OneScan(c, FOREIGN, 2, AUD_SCAN);
    WriteCommits(c, FOREIGN, 2, AUD_SCAN);
    var w := Sent(FOREIGN, 2, AUD_SCAN);
    assert RatesSound(w.db) && StrandsRate(w, Write(Claim(0, 0, 2)));
    ExtractionAndExchangeRate(c, w, Write(Claim(0, 0, 2)));
  }

  // ---- items counted too early ----

  const ONE_ITEM: ScannedItem := ScannedItem(None, None, None, 0, None, false, [])

  /** Agrees with a receipt just uploaded and reviewed, and has one item. */
  const ITEM_SCAN: ScanResult := ScanResult("purchase", "AUD", 0, None, None, Absent, [ONE_ITEM])

  const OWN_ITEM: ItemInput := ItemInput(None, None, None, 0, None, false, [])

  lemma ItemScanFits(c: Config)
    ensures ValidateResult(ITEM_SCAN, true) == Some(ITEM_SCAN) && SnapshotMatches(c, Known(REVIEWED), ITEM_SCAN)
    ensures ToItemInput(ONE_ITEM, Purchase, NO_LISTS) == OWN_ITEM
  {
    assert Upper("AUD") == "AUD";
    forall i | 0 <= i < |ITEM_SCAN.items| ensures UsableItem(ITEM_SCAN.items[i]) {}
  }

  /** The user's own item commits while the locking read waits. */
  lemma OwnItemAdded(c: Config, w: World)
    requires w == Sent(REVIEWED, 2, ITEM_SCAN)
    ensures Enabled(c, w, User(NewItem(0, 0, OWN_ITEM)))
    ensures Next(c, w, User(NewItem(0, 0, OWN_ITEM)))
         == w.(db := SetItems(w.db, 0, map[0 := Stored(OWN_ITEM)], 1))
  {
    assert map[][0 := Stored(OWN_ITEM)] == map[0 := Stored(OWN_ITEM)];
  }

  lemma OwnItemJoined(w: World)
    requires w == Sent(REVIEWED, 2, ITEM_SCAN).(db := SetItems(Sent(REVIEWED, 2, ITEM_SCAN).db, 0, map[0 := Stored(OWN_ITEM)], 1))
    requires ToItemInput(ONE_ITEM, Purchase, NO_LISTS) == OWN_ITEM
    ensures JoinsItems(w, Claim(0, 0, 2))
  {
    var k, row := Claim(0, 0, 2), w.db.rows[0];
    assert ToItemInputs(ITEM_SCAN.items, Purchase, NO_LISTS) == [OWN_ITEM];
    assert WrittenItems(row, ITEM_SCAN, NO_LISTS, 0) == [OWN_ITEM];
    assert AllAllowed(w.db, 0, Purchase, [OWN_ITEM]);
    assert 0 in row.items;
  }

  lemma OwnItemReachable(c: Config)
    requires Reachable(c, Sent(REVIEWED, 2, ITEM_SCAN)) && ToItemInput(ONE_ITEM, Purchase, NO_LISTS) == OWN_ITEM
    ensures exists w, k :: Reachable(c, w) && Enabled(c, w, Write(k)) && JoinsItems(w, k)
  {
    var w, add := Sent(REVIEWED, 2, ITEM_SCAN), User(NewItem(0, 0, OWN_ITEM));
    OwnItemAdded(c, w);
    StepReachable(c, w, add);
    var w' := w.(db := SetItems(w.db, 0, map[0 := Stored(OWN_ITEM)], 1));
    assert Reachable(c, w');
    OwnItemJoined(w');
    assert Enabled(c, w', Write(Claim(0, 0, 2)));
  }

  /** A run in which a verify scan adds its item to the one the user has just entered, although it
      checks, under the row's lock, that the receipt has none. */
  lemma VerifyCanJoinItems(c: Config)
    requires c.concurrency >= 1
    ensures exists w, k :: Reachable(c, w) && Enabled(c, w, Write(k)) && JoinsItems(w, k)
  {
    ItemScanFits(c);
    assert ApplyReceiptPatch(BLANK_RECEIPT, JUST_REVIEWED) == Some((BLANK_RECEIPT, true));
    EditedQueued(c, JUST_REVIEWED, REVIEWED);
    OneScan(c, REVIEWED, 2, ITEM_SCAN);
    OwnItemReachable(c);
  }
}
