/** The invariant of the scan queue and its preservation by every step. */
module ScanInvariant {
  import opened Basics
  import opened Kinds
  import opened LedgerInput
  import opened ScanTypes
  import opened Tables
  import opened LedgerInvariant
  import opened ClaimLog
  import opened ScanProtocol

  /** Images read for a claim are still the receipt's while the claim holds. */
  ghost predicate ImagesFresh(db: Db, k: Claim, images: seq<string>) {
    ClaimHolds(db, k) ==> db.rows[k.rid].images == images
  }

  /** A provider told a kind was told so by a reviewed row, and a review is for good. */
  ghost predicate KnownSound(db: Db, k: Claim, known: Option<Kind>) {
    known.Some? && k.rid in db.rows ==> db.rows[k.rid].reviewedAt.Some?
  }

  ghost predicate ResultSound(db: Db, k: Claim, result: ScanResult) {
    result.totalCents >= 0 && KindUsable(db, k, result)
  }

  /** While the claim holds and the version is the one snapshotted, so are the compared fields. */
  ghost predicate SnapshotSound(db: Db, k: Claim, before: Snapshot) {
    && before.updatedAt < db.clock && before.updatedAt !in db.open
    && (ClaimHolds(db, k) && db.rows[k.rid].updatedAt == before.updatedAt ==>
          var row := db.rows[k.rid];
          && before.reviewed == row.reviewedAt.Some?
          && before.kind == row.rec.kind && before.totalCents == row.rec.totalCents
          && before.currency == row.rec.currency && before.merchant == row.rec.merchant
          && before.purchaseDate == row.rec.purchaseDate)
  }

  /** The write's timestamp is its own, and later than the review it was compared against. */
  ghost predicate StampSound(db: Db, k: Claim, before: Snapshot, now: nat) {
    && now < db.clock && now !in db.open
    && (ClaimHolds(db, k) && db.rows[k.rid].updatedAt == before.updatedAt ==> Before(db.rows[k.rid].reviewedAt, now))
  }

  ghost predicate JobSound(db: Db, k: Claim, job: Job) {
    ImagesFresh(db, k, job.images) && ResultSound(db, k, job.result)
  }

  ghost predicate ClaimSound(db: Db, k: Claim) {
    k.rid < db.nextRow && k.token < db.clock && (k.rid in db.rows ==> db.rows[k.rid].owner == k.user)
  }

  ghost predicate PhaseSound(c: Config, db: Db, k: Claim, t: Task) {
    match t
    case Claimed => true
    case Snapped(known) => KnownSound(db, k, known)
    case Fetched(known, images) => KnownSound(db, k, known) && ImagesFresh(db, k, images)
    case Scanned(images, result) => JobSound(db, k, Job(images, result, Taxonomy([], [])))
    case Ready(job, attempt) => JobSound(db, k, job) && attempt < 2
    case Compared(job, attempt, before, allMatch) =>
      JobSound(db, k, job) && attempt < 2 && SnapshotSound(db, k, before)
      && allMatch == SnapshotMatches(c, before, job.result)
    case Writing(job, attempt, before, allMatch, now) =>
      JobSound(db, k, job) && attempt < 2 && SnapshotSound(db, k, before)
      && allMatch == SnapshotMatches(c, before, job.result) && StampSound(db, k, before, now)
    case Locking(job, attempt, before, allMatch, now, _) =>
      JobSound(db, k, job) && attempt < 2 && SnapshotSound(db, k, before)
      && allMatch == SnapshotMatches(c, before, job.result) && StampSound(db, k, before, now)
    case Failing(scanError, terminal) => terminal ==> scanError
  }

  ghost predicate TaskSound(c: Config, db: Db, k: Claim, t: Task) {
    ClaimSound(db, k) && PhaseSound(c, db, k, t)
  }

  ghost predicate TasksSound(c: Config, w: World) {
    forall k :: k in w.tasks ==> TaskSound(c, w.db, k, w.tasks[k])
  }

  ghost predicate LogSound(c: Config, w: World) {
    && (forall r :: r in w.db.rows ==> r in w.log && Tracks(c, w.db.rows[r], w.log[r]))
    && (forall r :: r in w.log ==> r < w.db.nextRow && Legal(c, w.log[r]) && LastToken(w.log[r]) < w.db.clock)
  }

  /** Notices and give-ups correspond one to one. */
  ghost predicate NoticesSound(w: World) {
    && Distinct(w.sent)
    && (forall n :: n in w.sent ==> n !in w.owed && n !in w.lost)
    && w.owed !! w.lost
    && (forall n :: n in w.owed || n in w.sent || n in w.lost <==> n.rid in w.log && GaveUpOn(w.log[n.rid], n.token))
  }

  ghost predicate Inv(c: Config, w: World) {
    DbOk(w.db) && TasksSound(c, w) && LogSound(c, w) && NoticesSound(w)
  }

  // ---- in-flight scans survive anyone else's step ----

  lemma TaskSurvives(c: Config, db: Db, db': Db, k: Claim, t: Task)
    requires DbOk(db) && DbOk(db') && Rely(db, db') && TaskSound(c, db, k, t)
    ensures TaskSound(c, db', k, t)
  {
    if k.rid in db'.rows {
      assert RowRely(db, db.rows[k.rid], db'.rows[k.rid]);
      assert RowOk(db', k.rid, db'.rows[k.rid]);
    }
  }

  lemma TasksSurvive(c: Config, w: World, w': World)
    requires Inv(c, w) && DbOk(w'.db) && Rely(w.db, w'.db)
    requires forall k :: k in w'.tasks ==> (k in w.tasks && w'.tasks[k] == w.tasks[k]) || TaskSound(c, w'.db, k, w'.tasks[k])
    ensures TasksSound(c, w')
  {
    forall k | k in w'.tasks && k in w.tasks && w'.tasks[k] == w.tasks[k] ensures TaskSound(c, w'.db, k, w'.tasks[k]) {
      TaskSurvives(c, w.db, w'.db, k, w.tasks[k]);
    }
  }

  // ---- histories ----

  /** The rows and histories other than r's are as before, up to fields the scan lane does not use. */
  ghost predicate OtherLanesKept(w: World, w': World, changed: set<nat>) {
    && (forall r :: r in w'.db.rows && r !in changed ==>
          r in w.db.rows && w'.db.rows[r].lane == w.db.rows[r].lane && w'.db.rows[r].images == w.db.rows[r].images)
    && (forall r :: r in w.log && r !in changed ==> r in w'.log && w'.log[r] == w.log[r])
    && (forall r :: r in w'.log && r !in changed ==> r in w.log)
    && w.db.clock <= w'.db.clock && w.db.nextRow <= w'.db.nextRow
  }

  lemma LogsSurvive(c: Config, w: World, w': World, changed: set<nat>)
    requires LogSound(c, w) && OtherLanesKept(w, w', changed)
    requires forall r :: r in changed && r in w'.db.rows ==> r in w'.log && Tracks(c, w'.db.rows[r], w'.log[r])
    requires forall r :: r in changed && r in w'.log ==>
      r < w'.db.nextRow && Legal(c, w'.log[r]) && LastToken(w'.log[r]) < w'.db.clock
    ensures LogSound(c, w')
  {
    forall r | r in w'.db.rows && r !in changed ensures r in w'.log && Tracks(c, w'.db.rows[r], w'.log[r]) {
      assert Tracks(c, w.db.rows[r], w.log[r]);
    }
  }

  /** One more event, not a give-up, changes no notice. */
  lemma NoticesSurvive(c: Config, w: World, w': World)
    requires NoticesSound(w) && w'.owed == w.owed && w'.sent == w.sent && w'.lost == w.lost
    requires forall r :: r in w.log ==> r in w'.log
    requires forall r :: r in w'.log && r in w.log ==>
      w'.log[r] == w.log[r] || exists e :: w'.log[r] == w.log[r] + [e] && !GivesUp(e)
    requires forall r :: r in w'.log && r !in w.log ==> |w'.log[r]| == 1 && w'.log[r][0].Created?
    ensures NoticesSound(w')
  {
    forall r, t | r in w'.log ensures GaveUpOn(w'.log[r], t) <==> r in w.log && GaveUpOn(w.log[r], t) {
      if r in w.log && w'.log[r] != w.log[r] {
        var e :| w'.log[r] == w.log[r] + [e] && !GivesUp(e);
        assert Front(w'.log[r]) == w.log[r];
      } else if r !in w.log {
        assert !GaveUpOn(Front(w'.log[r]), t);
      }
    }
  }

  // ---- user steps ----

  lemma ReceiptActsKeepDb(db: Db, act: UserAction)
    requires DbOk(db) && UserDb(db, act).Some?
    requires act.Upload? || act.EnterManually? || act.Attach? || act.Patch? || act.Retry? || act.Delete?
    ensures DbOk(UserDb(db, act).value) && Rely(db, UserDb(db, act).value)
  {
    match act {
      case Upload(user, stamp, images) => UploadReceiptKeeps(db, user, stamp, images);
      case EnterManually(user, stamp, today, body) => CreateManualKeeps(db, user, stamp, today, body);
      case Attach(user, rid, images) => AddImagesKeeps(db, user, rid, images);
      case Patch(user, rid, stamp, patch) => UpdateReceiptKeeps(db, user, rid, stamp, patch);
      case Retry(user, rid, stamp) => RetryScanKeeps(db, user, rid, stamp);
      case Delete(user, rid) => DeleteReceiptKeeps(db, user, rid);
    }
  }

  lemma ReferenceActsKeepDb(db: Db, act: UserAction)
    requires DbOk(db) && UserDb(db, act).Some?
    requires || act.NewCategory? || act.EditCategory? || act.DropCategory? || act.NewTag? || act.DropTag?
             || act.NewMethod? || act.DropMethod?
    ensures DbOk(UserDb(db, act).value) && Rely(db, UserDb(db, act).value)
  {
    match act {
      case NewCategory(category) => CreateCategoryKeeps(db, category);
      case EditCategory(user, id, name, isIncome) => UpdateCategoryKeeps(db, user, id, name, isIncome);
      case DropCategory(user, id) => RemoveCategoryKeeps(db, user, id);
      case NewTag(tag) => CreateTagKeeps(db, tag);
      case DropTag(user, id) => RemoveTagKeeps(db, user, id);
      case NewMethod(user) => CreateMethodKeeps(db, user);
      case DropMethod(user, id) => RemoveMethodKeeps(db, user, id);
    }
  }

  lemma ItemActsKeepDb(db: Db, act: UserAction)
    requires DbOk(db) && UserDb(db, act).Some? && (act.NewItem? || act.EditItem? || act.DropItem?)
    ensures DbOk(UserDb(db, act).value) && Rely(db, UserDb(db, act).value)
  {
    match act {
      case NewItem(user, rid, input) => CreateItemKeeps(db, user, rid, input, UserDb(db, act).value);
      case EditItem(user, rid, item, patch) => UpdateItemKeeps(db, user, rid, item, patch);
      case DropItem(user, rid, item) => RemoveItemKeeps(db, user, rid, item);
    }
  }

  lemma ClockActsKeepDb(db: Db, act: UserAction)
    requires DbOk(db) && UserDb(db, act).Some? && (act.BeginTransaction? || act.RollBack? || act.Wait?)
    ensures DbOk(UserDb(db, act).value) && Rely(db, UserDb(db, act).value)
  {
    ClockKeeps(db, UserDb(db, act).value);
  }

  lemma UserKeepsDb(db: Db, act: UserAction)
    requires DbOk(db) && UserDb(db, act).Some?
    ensures DbOk(UserDb(db, act).value) && Rely(db, UserDb(db, act).value)
  {
    if act.BeginTransaction? || act.RollBack? || act.Wait? {
      ClockActsKeepDb(db, act);
    } else if act.NewItem? || act.EditItem? || act.DropItem? {
      ItemActsKeepDb(db, act);
    } else if act.Upload? || act.EnterManually? || act.Attach? || act.Patch? || act.Retry? || act.Delete? {
      ReceiptActsKeepDb(db, act);
    } else {
      ReferenceActsKeepDb(db, act);
    }
  }

  /** Beginning, abandoning and waiting move only the clock and the open transactions. */
  lemma ClockKeeps(db: Db, db': Db)
    requires DbOk(db) && db' == db.(clock := db'.clock, open := db'.open) && db.clock <= db'.clock
    requires forall s :: s in db'.open ==> s < db'.clock && (s in db.open || s >= db.clock)
    ensures DbOk(db') && Rely(db, db')
  {
    forall r | r in db.rows ensures RowOk(db', r, db.rows[r]) {
      assert RowOk(db, r, db.rows[r]);
      SameTablesFit(db, db', db.rows[r].owner, db.rows[r].rec.kind, db.rows[r].rec.kind, db.rows[r].items);
    }
    forall q | q in db'.cats ensures CategoryNameFree(db', q, db'.cats[q]) {
      assert CategoryNameFree(db, q, db.cats[q]);
    }
    forall q | q in db'.tags ensures TagNameFree(db', q, db'.tags[q]) {
      assert TagNameFree(db, q, db.tags[q]);
    }
  }

  /** The receipts whose scan lane a user action touches. */
  function LaneTouched(db: Db, act: UserAction): set<nat> {
    match act
    case Upload(_, _, _) => {db.nextRow}
    case EnterManually(_, _, _, _) => {db.nextRow}
    case Attach(_, rid, _) => {rid}
    case Retry(_, rid, _) => {rid}
    case _ => {}
  }

  ghost predicate RowLanesKept(db: Db, db': Db, changed: set<nat>) {
    && (forall r :: r in db'.rows && r !in changed ==>
          r in db.rows && db'.rows[r].lane == db.rows[r].lane && db'.rows[r].images == db.rows[r].images)
    && db.clock <= db'.clock && db.nextRow <= db'.nextRow
  }

  lemma ReceiptActionsKeepOtherLanes(db: Db, act: UserAction)
    requires UserDb(db, act).Some? && (act.Upload? || act.EnterManually? || act.Attach? || act.Patch? || act.Retry?)
    ensures RowLanesKept(db, UserDb(db, act).value, LaneTouched(db, act))
  {
  }

  lemma ItemActionsKeepLanes(db: Db, act: UserAction)
    requires UserDb(db, act).Some? && (act.NewItem? || act.EditItem? || act.DropItem? || act.Delete?)
    ensures RowLanesKept(db, UserDb(db, act).value, {})
  {
  }

  lemma ReferenceActionsKeepLanes(db: Db, act: UserAction)
    requires UserDb(db, act).Some?
    requires || act.NewCategory? || act.EditCategory? || act.DropCategory? || act.NewTag? || act.DropTag?
             || act.NewMethod? || act.DropMethod?
    ensures RowLanesKept(db, UserDb(db, act).value, {})
  {
  }

  lemma UserKeepsOtherLanes(db: Db, act: UserAction)
    requires UserDb(db, act).Some?
    ensures RowLanesKept(db, UserDb(db, act).value, LaneTouched(db, act))
  {
    if act.Upload? || act.EnterManually? || act.Attach? || act.Patch? || act.Retry? {
      ReceiptActionsKeepOtherLanes(db, act);
    } else if act.NewItem? || act.EditItem? || act.DropItem? || act.Delete? {
      ItemActionsKeepLanes(db, act);
    } else if !act.BeginTransaction? && !act.RollBack? && !act.Wait? {
      ReferenceActionsKeepLanes(db, act);
    }
  }

  lemma AttachShape(db: Db, user: nat, rid: nat, images: seq<string>)
    requires AddImages(db, user, rid, images).Some?
    ensures rid in db.rows
    ensures AddImages(db, user, rid, images).value.rows[rid].lane == db.rows[rid].lane.(state := Uploaded)
  {
  }

  lemma RetryShape(db: Db, user: nat, rid: nat, stamp: nat)
    requires RetryScan(db, user, rid, stamp).Some?
    ensures rid in db.rows && db.rows[rid].lane.state == ScanFailed
    ensures RetryScan(db, user, rid, stamp).value.rows[rid].lane == Lane(Uploaded, 0, 0, db.rows[rid].lane.startedAt)
  {
  }

  lemma ManualShape(db: Db, user: nat, stamp: nat, today: Day, body: ManualBody)
    requires CreateManual(db, user, stamp, today, body).Some?
    ensures var db' := CreateManual(db, user, stamp, today, body).value;
      && db.nextRow in db'.rows && db'.nextRow == db.nextRow + 1
      && db'.rows[db.nextRow].lane == Lane(Idle, 0, 0, None) && db'.rows[db.nextRow].images == []
  {
  }

  /** The receipt whose lane the action touches follows its new history. */
  lemma TouchedTracks(c: Config, w: World, act: UserAction, r: nat)
    requires LogSound(c, w) && UserDb(w.db, act).Some? && r in LaneTouched(w.db, act)
    ensures var db', log' := UserDb(w.db, act).value, UserLog(w, act);
      && r in db'.rows && r in log' && r < db'.nextRow
      && Tracks(c, db'.rows[r], log'[r]) && LastToken(log'[r]) <= if r in w.log then LastToken(w.log[r]) else -1
  {
    match act {
      case Attach(user, rid, images) =>
        assert Tracks(c, w.db.rows[rid], w.log[rid]);
        AttachShape(w.db, user, rid, images);
        Append(c, w.log[rid], Added(Live(w.log[rid])));
      case Retry(user, rid, stamp) =>
        assert Tracks(c, w.db.rows[rid], w.log[rid]);
        RetryShape(w.db, user, rid, stamp);
        Append(c, w.log[rid], Retried);
      case Upload(_, _, _) =>
        CreatedTracks(c, UserDb(w.db, act).value.rows[r], true);
      case EnterManually(user, stamp, today, body) =>
        ManualShape(w.db, user, stamp, today, body);
        CreatedTracks(c, UserDb(w.db, act).value.rows[r], false);
      case _ =>
    }
  }

  lemma UserLogShape(w: World, act: UserAction)
    ensures forall r :: r in w.log && r !in LaneTouched(w.db, act) ==> r in UserLog(w, act) && UserLog(w, act)[r] == w.log[r]
    ensures forall r :: r in UserLog(w, act) && r !in LaneTouched(w.db, act) ==> r in w.log
  {
  }

  lemma UserKeepsLogs(c: Config, w: World, act: UserAction)
    requires Inv(c, w) && UserDb(w.db, act).Some?
    ensures LogSound(c, w.(db := UserDb(w.db, act).value, log := UserLog(w, act)))
  {
    var w' := w.(db := UserDb(w.db, act).value, log := UserLog(w, act));
    var touched := LaneTouched(w.db, act);
    UserKeepsOtherLanes(w.db, act);
    UserLogShape(w, act);
    forall r | r in touched
      ensures r in w'.db.rows && r in w'.log && r < w'.db.nextRow && Tracks(c, w'.db.rows[r], w'.log[r])
      ensures LastToken(w'.log[r]) < w'.db.clock
    {
      TouchedTracks(c, w, act, r);
    }
    LogsSurvive(c, w, w', touched);
  }

  lemma CreatedTracks(c: Config, row: Row, queued: bool)
    requires row.lane == Lane(if queued then Uploaded else Idle, 0, 0, None)
    requires !queued ==> row.images == []
    ensures Tracks(c, row, [Created(queued)]) && LastToken([Created(queued)]) == -1
  {
    assert Front([Created(queued)]) == [];
  }

  lemma UserKeepsNotices(c: Config, w: World, act: UserAction)
    requires Inv(c, w) && UserDb(w.db, act).Some?
    ensures NoticesSound(w.(db := UserDb(w.db, act).value, log := UserLog(w, act)))
  {
    var w' := w.(db := UserDb(w.db, act).value, log := UserLog(w, act));
    assert w.db.nextRow !in w.log;
    forall r | r in w'.log && r in w.log
      ensures w'.log[r] == w.log[r] || exists e :: w'.log[r] == w.log[r] + [e] && !GivesUp(e)
    {
      if w'.log[r] != w.log[r] {
        var e := if act.Attach? then Added(Live(w.log[r])) else Retried;
        assert w'.log[r] == w.log[r] + [e] && !GivesUp(e);
      }
    }
    NoticesSurvive(c, w, w');
  }

  lemma UserKeeps(c: Config, w: World, act: UserAction)
    requires Inv(c, w) && Enabled(c, w, User(act))
    ensures Inv(c, Next(c, w, User(act))) && Rely(w.db, Next(c, w, User(act)).db)
  {
    UserKeepsDb(w.db, act);
    UserKeepsLogs(c, w, act);
    UserKeepsNotices(c, w, act);
    TasksSurvive(c, w, Next(c, w, User(act)));
  }

  // ---- steps of a task that leave the tables alone ----

  /** Only the tasks change, and the changed one is sound. */
  lemma TaskStepKeeps(c: Config, w: World, w': World)
    requires Inv(c, w) && w' == w.(tasks := w'.tasks)
    requires forall k :: k in w'.tasks ==> (k in w.tasks && w'.tasks[k] == w.tasks[k]) || TaskSound(c, w.db, k, w'.tasks[k])
    ensures Inv(c, w') && Rely(w.db, w'.db)
  {
    RelyReflexive(w.db);
    TasksSurvive(c, w, w');
  }

  lemma ReadRowKeeps(c: Config, w: World, k: Claim)
    requires Inv(c, w) && k in w.tasks && w.tasks[k].Claimed?
    ensures Inv(c, DoReadRow(w, k)) && Rely(w.db, DoReadRow(w, k).db)
  {
    assert TaskSound(c, w.db, k, w.tasks[k]);
    TaskStepKeeps(c, w, DoReadRow(w, k));
  }

  lemma ReadImagesKeeps(c: Config, w: World, k: Claim)
    requires Inv(c, w) && k in w.tasks && w.tasks[k].Snapped?
    ensures Inv(c, DoReadImages(w, k)) && Rely(w.db, DoReadImages(w, k).db)
  {
    assert TaskSound(c, w.db, k, w.tasks[k]);
    TaskStepKeeps(c, w, DoReadImages(w, k));
  }

  lemma ProvideKeeps(c: Config, w: World, k: Claim, result: ScanResult)
    requires Inv(c, w) && k in w.tasks && w.tasks[k].Fetched?
    ensures Inv(c, DoProvide(w, k, result)) && Rely(w.db, DoProvide(w, k, result).db)
  {
    assert TaskSound(c, w.db, k, w.tasks[k]);
    TaskStepKeeps(c, w, DoProvide(w, k, result));
  }

  lemma BreakKeeps(c: Config, w: World, k: Claim, scanError: bool)
    requires Inv(c, w) && CanBreak(w, k, scanError)
    ensures Inv(c, GoTo(w, k, Failing(scanError, false))) && Rely(w.db, GoTo(w, k, Failing(scanError, false)).db)
  {
    assert TaskSound(c, w.db, k, w.tasks[k]);
    TaskStepKeeps(c, w, GoTo(w, k, Failing(scanError, false)));
  }

  lemma LoadListsKeeps(c: Config, w: World, k: Claim)
    requires Inv(c, w) && k in w.tasks && w.tasks[k].Scanned?
    ensures Inv(c, DoLoadLists(w, k)) && Rely(w.db, DoLoadLists(w, k).db)
  {
    assert TaskSound(c, w.db, k, w.tasks[k]);
    TaskStepKeeps(c, w, DoLoadLists(w, k));
  }

  lemma CompareKeeps(c: Config, w: World, k: Claim)
    requires Inv(c, w) && k in w.tasks && w.tasks[k].Ready?
    ensures Inv(c, DoCompare(c, w, k)) && Rely(w.db, DoCompare(c, w, k).db)
  {
    assert TaskSound(c, w.db, k, w.tasks[k]);
    if ClaimHolds(w.db, k) {
      assert RowOk(w.db, k.rid, w.db.rows[k.rid]);
    }
    TaskStepKeeps(c, w, DoCompare(c, w, k));
  }

  lemma BeginWriteKeeps(c: Config, w: World, k: Claim)
    requires Inv(c, w) && k in w.tasks && w.tasks[k].Compared?
    ensures Inv(c, DoBeginWrite(w, k)) && Rely(w.db, DoBeginWrite(w, k).db)
  {
    var w' := DoBeginWrite(w, k);
    var t := w.tasks[k];
    ClockKeeps(w.db, w'.db);
    TaskSurvives(c, w.db, w'.db, k, t);
    if ClaimHolds(w.db, k) {
      assert RowOk(w.db, k.rid, w.db.rows[k.rid]);
    }
    assert StampSound(w'.db, k, t.before, w.db.clock);
    TasksSurvive(c, w, w');
    LogsSurvive(c, w, w', {});
    NoticesSurvive(c, w, w');
  }

  lemma SendKeeps(c: Config, w: World, k: Claim)
    requires Inv(c, w) && k in w.tasks && w.tasks[k].Writing?
    ensures Inv(c, DoSend(w, k)) && Rely(w.db, DoSend(w, k).db)
  {
    assert TaskSound(c, w.db, k, w.tasks[k]);
    TaskStepKeeps(c, w, DoSend(w, k));
  }

  // ---- the write ----

  /** The guard on the kind is never in the way: a result that reaches an unreviewed row was checked
      against the scannable kinds, because a row reviewed when the scan started still is. */
  lemma WriteKindUsable(c: Config, w: World, k: Claim)
    requires Inv(c, w) && k in w.tasks && w.tasks[k].Locking?
    ensures KindUsable(w.db, k, w.tasks[k].job.result)
  {
    assert TaskSound(c, w.db, k, w.tasks[k]);
  }

  ghost predicate CommitsWrite(w: World, k: Claim) {
    && k in w.tasks && w.tasks[k].Locking?
    && ClaimHolds(w.db, k)
    && SameVersion(w.tasks[k].before, LockedSnapshot(w.db.rows[k.rid], w.tasks[k].counted))
    && KindUsable(w.db, k, w.tasks[k].job.result)
    && WriteResult(w.db, k, w.tasks[k].now, w.tasks[k].job.result, w.tasks[k].job.taxonomy, w.tasks[k].allMatch, w.tasks[k].counted).Some?
  }

  lemma TaskWritable(c: Config, w: World, k: Claim)
    requires Inv(c, w) && CommitsWrite(w, k)
    ensures Writable(w.db, k, w.tasks[k].now, w.tasks[k].job.result)
    ensures w.db.rows[k.rid].images == w.tasks[k].job.images
  {
    assert TaskSound(c, w.db, k, w.tasks[k]);
  }

  lemma WrittenRowShape(db: Db, k: Claim, now: nat, result: ScanResult, taxonomy: Taxonomy, allMatch: bool, counted: nat)
    requires k.rid in db.rows && (db.rows[k.rid].reviewedAt.None? ==> Extractable(result.kind))
    requires WriteResult(db, k, now, result, taxonomy, allMatch, counted).Some?
    ensures var db' := WriteResult(db, k, now, result, taxonomy, allMatch, counted).value;
      && db'.rows == db.rows[k.rid := db'.rows[k.rid]]
      && db'.clock == db.clock && db'.nextRow == db.nextRow
      && db'.rows[k.rid].lane == AtRest(db.rows[k.rid].lane)
      && db'.rows[k.rid].images == db.rows[k.rid].images
  {
  }

  lemma AppliedTracks(c: Config, row: Row, row': Row, log: seq<Event>, token: nat)
    requires Tracks(c, row, log) && row.lane.state == Scanning && row.lane.startedAt == Some(token)
    requires row'.lane == AtRest(row.lane) && row'.images == row.images
    ensures Tracks(c, row', log + [Applied(token, row.images)])
    ensures LastToken(log + [Applied(token, row.images)]) == LastToken(log)
  {
    Append(c, log, Applied(token, row.images));
  }

  function Committed(w: World, k: Claim): Db
    requires k in w.tasks && w.tasks[k].Locking? && k.rid in w.db.rows && KindUsable(w.db, k, w.tasks[k].job.result)
  {
    var t := w.tasks[k];
    var written := WriteResult(w.db, k, t.now, t.job.result, t.job.taxonomy, t.allMatch, t.counted);
    if written.Some? then written.value else w.db
  }

  lemma CommitShape(w: World, k: Claim)
    requires CommitsWrite(w, k)
    ensures DoWrite(w, k) ==
      Finish(w, k).(db := Committed(w, k), log := Note(w.log, k.rid, Applied(k.token, w.tasks[k].job.images)))
  {
  }

  lemma CommitKeepsDb(c: Config, w: World, k: Claim)
    requires Inv(c, w) && CommitsWrite(w, k)
    ensures DbOk(Committed(w, k)) && Rely(w.db, Committed(w, k))
  {
    var t := w.tasks[k];
    TaskWritable(c, w, k);
    WriteResultKeeps(w.db, k, t.now, t.job.result, t.job.taxonomy, t.allMatch, t.counted);
  }

  lemma CommittedRowShape(w: World, k: Claim)
    requires CommitsWrite(w, k)
    ensures var db' := Committed(w, k);
      && db'.rows == w.db.rows[k.rid := db'.rows[k.rid]]
      && db'.clock == w.db.clock && db'.nextRow == w.db.nextRow
      && db'.rows[k.rid].lane == AtRest(w.db.rows[k.rid].lane)
      && db'.rows[k.rid].images == w.db.rows[k.rid].images
  {
    var t := w.tasks[k];
    WrittenRowShape(w.db, k, t.now, t.job.result, t.job.taxonomy, t.allMatch, t.counted);
  }

  lemma AppliedKeepsLogs(c: Config, w: World, w': World, k: Claim)
    requires LogSound(c, w) && ClaimHolds(w.db, k) && k.rid in w'.db.rows
    requires w'.db.rows == w.db.rows[k.rid := w'.db.rows[k.rid]]
    requires w'.db.clock == w.db.clock && w'.db.nextRow == w.db.nextRow
    requires w'.db.rows[k.rid].lane == AtRest(w.db.rows[k.rid].lane)
    requires w'.db.rows[k.rid].images == w.db.rows[k.rid].images
    requires w'.log == Note(w.log, k.rid, Applied(k.token, w.db.rows[k.rid].images))
    ensures LogSound(c, w')
  {
    AppliedTracks(c, w.db.rows[k.rid], w'.db.rows[k.rid], w.log[k.rid], k.token);
    LogsSurvive(c, w, w', {k.rid});
  }

  lemma CommitKeepsLogs(c: Config, w: World, k: Claim, w': World)
    requires Inv(c, w) && CommitsWrite(w, k)
    requires w' == Finish(w, k).(db := Committed(w, k), log := Note(w.log, k.rid, Applied(k.token, w.tasks[k].job.images)))
    ensures LogSound(c, w')
  {
    TaskWritable(c, w, k);
    CommittedRowShape(w, k);
    AppliedKeepsLogs(c, w, w', k);
  }

  lemma CommitKeepsNotices(c: Config, w: World, k: Claim, w': World)
    requires Inv(c, w) && k in w.tasks && w.tasks[k].Locking?
    requires w' == Finish(w, k).(db := w'.db, log := Note(w.log, k.rid, Applied(k.token, w.tasks[k].job.images)))
    ensures NoticesSound(w')
  {
    assert k.rid in w.log ==> w'.log[k.rid] == w.log[k.rid] + [Applied(k.token, w.tasks[k].job.images)];
    NoticesSurvive(c, w, w');
  }

  lemma CommitKeeps(c: Config, w: World, k: Claim)
    requires Inv(c, w) && CommitsWrite(w, k)
    ensures Inv(c, DoWrite(w, k)) && Rely(w.db, DoWrite(w, k).db)
  {
    CommitShape(w, k);
    CommitKeepsDb(c, w, k);
    CommitKeepsLogs(c, w, k, DoWrite(w, k));
    CommitKeepsNotices(c, w, k, DoWrite(w, k));
    TasksSurvive(c, w, DoWrite(w, k));
  }

  /** Every other way out of the write leaves the tables and the histories as they are. */
  lemma NoCommitShape(w: World, k: Claim)
    requires k in w.tasks && w.tasks[k].Locking? && KindUsable(w.db, k, w.tasks[k].job.result) && !CommitsWrite(w, k)
    ensures || DoWrite(w, k) == Finish(w, k)
            || DoWrite(w, k) == GoTo(w, k, Failing(false, false))
            || (w.tasks[k].attempt == 0 && DoWrite(w, k) == GoTo(w, k, Ready(w.tasks[k].job, 1)))
  {
  }

  lemma NoCommitKeeps(c: Config, w: World, k: Claim, w': World)
    requires Inv(c, w) && k in w.tasks && w.tasks[k].Locking?
    requires || w' == Finish(w, k)
             || w' == GoTo(w, k, Failing(false, false))
             || (w.tasks[k].attempt == 0 && w' == GoTo(w, k, Ready(w.tasks[k].job, 1)))
    ensures Inv(c, w') && Rely(w.db, w'.db)
  {
    assert TaskSound(c, w.db, k, w.tasks[k]);
    TaskStepKeeps(c, w, w');
  }

  lemma WriteKeeps(c: Config, w: World, k: Claim)
    requires Inv(c, w) && k in w.tasks && w.tasks[k].Locking? && KindUsable(w.db, k, w.tasks[k].job.result)
    ensures Inv(c, DoWrite(w, k)) && Rely(w.db, DoWrite(w, k).db)
  {
    if CommitsWrite(w, k) {
      CommitKeeps(c, w, k);
    } else {
      NoCommitShape(w, k);
      NoCommitKeeps(c, w, k, DoWrite(w, k));
    }
  }

  // ---- failures and reclaims ----

  lemma FailedTracks(c: Config, row: Row, log: seq<Event>, token: nat, scanError: bool, terminal: bool)
    requires Tracks(c, row, log) && row.lane.state == Scanning && row.lane.startedAt == Some(token)
    requires terminal ==> scanError
    ensures var row' := FailRow(c, row, scanError, terminal);
      var e := Failed(token, scanError, terminal, row'.lane.state == ScanFailed);
      Tracks(c, row', log + [e]) && LastToken(log + [e]) == LastToken(log)
  {
    var row' := FailRow(c, row, scanError, terminal);
    Append(c, log, Failed(token, scanError, terminal, row'.lane.state == ScanFailed));
  }

  lemma ReclaimedTracks(c: Config, row: Row, log: seq<Event>)
    requires Tracks(c, row, log) && row.lane.state == Scanning && row.lane.startedAt.Some?
    ensures var e := Reclaimed(row.lane.startedAt.value, row.lane.reclaims + 1 >= c.maxReclaims);
      Tracks(c, ReclaimRow(c, row), log + [e]) && LastToken(log + [e]) == LastToken(log)
  {
    Append(c, log, Reclaimed(row.lane.startedAt.value, row.lane.reclaims + 1 >= c.maxReclaims));
  }

  /** Receipt r's history grew by an event that ends its claim, and a give-up owes a notice. */
  ghost predicate EndedWith(w: World, w': World, r: nat, e: Event)
    requires r in w.log && r in w'.log
  {
    && w'.log[r] == w.log[r] + [e] && Ends(e).Some? && Ends(e) == Live(w.log[r])
    && (GivesUp(e) <==> Notice(r, Ends(e).value) in w'.owed - w.owed)
  }

  /** Ending claims by giving up owes exactly one new notice for each. */
  lemma NoticesOwed(c: Config, w: World, w': World)
    requires Inv(c, w) && w'.sent == w.sent && w'.lost == w.lost && w.owed <= w'.owed
    requires w'.log.Keys == w.log.Keys
    requires forall r :: r in w.log ==> w'.log[r] == w.log[r] || exists e :: EndedWith(w, w', r, e)
    requires forall n :: n in w'.owed - w.owed ==>
      (n.rid in w.log && w'.log[n.rid] != w.log[n.rid] && Live(w.log[n.rid]) == Some(n.token))
    ensures NoticesSound(w')
  {
    forall n: Notice | n.rid in w.log
      ensures GaveUpOn(w'.log[n.rid], n.token) <==> GaveUpOn(w.log[n.rid], n.token) || n in w'.owed - w.owed
      ensures n in w'.owed - w.owed ==> !GaveUpOn(w.log[n.rid], n.token)
    {
      var log, log' := w.log[n.rid], w'.log[n.rid];
      LiveNotGivenUp(c, log, n.token);
      if log' != log {
        var e :| EndedWith(w, w', n.rid, e);
        assert Front(log') == log && Last(log') == e;
        assert GivesUp(e) && e.token == n.token ==> n == Notice(n.rid, Ends(e).value);
      }
    }
  }

  lemma RecordHeldShape(c: Config, w: World, k: Claim)
    requires k in w.tasks && w.tasks[k].Failing? && ClaimHolds(w.db, k)
    ensures var t, row := w.tasks[k], FailRow(c, w.db.rows[k.rid], w.tasks[k].scanError, w.tasks[k].terminal);
      var gaveUp := row.lane.state == ScanFailed;
      DoRecord(c, w, k) == Finish(w, k).(
        db := w.db.(rows := w.db.rows[k.rid := row]),
        log := Note(w.log, k.rid, Failed(k.token, t.scanError, t.terminal, gaveUp)),
        owed := if gaveUp then w.owed + {Notice(k.rid, k.token)} else w.owed)
  {
  }

  /** The failure of claim k on its row, as an event. */
  function FailureOf(c: Config, w: World, k: Claim): Event
    requires k in w.tasks && w.tasks[k].Failing? && k.rid in w.db.rows
  {
    var t := w.tasks[k];
    Failed(k.token, t.scanError, t.terminal, FailRow(c, w.db.rows[k.rid], t.scanError, t.terminal).lane.state == ScanFailed)
  }

  lemma RecordHeldKeepsLogs(c: Config, w: World, k: Claim, w': World)
    requires Inv(c, w) && k in w.tasks && w.tasks[k].Failing? && ClaimHolds(w.db, k)
    requires w'.db == w.db.(rows := w.db.rows[k.rid := FailRow(c, w.db.rows[k.rid], w.tasks[k].scanError, w.tasks[k].terminal)])
    requires w'.log == Note(w.log, k.rid, FailureOf(c, w, k))
    ensures LogSound(c, w')
  {
    var t, row, log := w.tasks[k], w.db.rows[k.rid], w.log[k.rid];
    assert TaskSound(c, w.db, k, t);
    FailedTracks(c, row, log, k.token, t.scanError, t.terminal);
    LogsSurvive(c, w, w', {k.rid});
  }

  lemma RecordHeldKeepsNotices(c: Config, w: World, k: Claim, w': World)
    requires Inv(c, w) && k in w.tasks && w.tasks[k].Failing? && ClaimHolds(w.db, k)
    requires w'.log == Note(w.log, k.rid, FailureOf(c, w, k)) && w'.sent == w.sent && w'.lost == w.lost
    requires w'.owed == if GivesUp(FailureOf(c, w, k)) then w.owed + {Notice(k.rid, k.token)} else w.owed
    ensures NoticesSound(w')
  {
    var log, e := w.log[k.rid], FailureOf(c, w, k);
    LiveNotGivenUp(c, log, k.token);
    assert w'.log[k.rid] == log + [e];
    assert EndedWith(w, w', k.rid, e);
    NoticesOwed(c, w, w');
  }

  lemma RecordHeldKeeps(c: Config, w: World, k: Claim)
    requires Inv(c, w) && k in w.tasks && w.tasks[k].Failing? && ClaimHolds(w.db, k)
    ensures Inv(c, DoRecord(c, w, k)) && Rely(w.db, DoRecord(c, w, k).db)
  {
    RecordFailureKeeps(c, w.db, k, w.tasks[k].scanError, w.tasks[k].terminal);
    RecordHeldShape(c, w, k);
    RecordHeldKeepsLogs(c, w, k, DoRecord(c, w, k));
    RecordHeldKeepsNotices(c, w, k, DoRecord(c, w, k));
    TasksSurvive(c, w, DoRecord(c, w, k));
  }

  lemma RecordKeeps(c: Config, w: World, k: Claim)
    requires Inv(c, w) && k in w.tasks && w.tasks[k].Failing?
    ensures Inv(c, DoRecord(c, w, k)) && Rely(w.db, DoRecord(c, w, k).db)
  {
    if ClaimHolds(w.db, k) {
      RecordHeldKeeps(c, w, k);
    } else {
      TaskStepKeeps(c, w, DoRecord(c, w, k));
    }
  }

  lemma ReclaimKeepsLogs(c: Config, w: World, now: nat)
    requires Inv(c, w)
    ensures LogSound(c, DoReclaim(c, w, now))
  {
    var w' := DoReclaim(c, w, now);
    var stuck := set r | r in w.db.rows && Stuck(c, w.db.rows[r], now);
    forall r | r in stuck ensures r in w'.log && Tracks(c, w'.db.rows[r], w'.log[r]) && LastToken(w'.log[r]) < w'.db.clock {
      ReclaimedTracks(c, w.db.rows[r], w.log[r]);
    }
    LogsSurvive(c, w, w', stuck);
  }

  lemma StuckIsLive(c: Config, w: World, now: nat, r: nat)
    requires Inv(c, w) && r in w.db.rows && Stuck(c, w.db.rows[r], now)
    ensures r in w.log && Live(w.log[r]) == w.db.rows[r].lane.startedAt
    ensures Notice(r, w.db.rows[r].lane.startedAt.value) !in w.owed
  {
    assert Tracks(c, w.db.rows[r], w.log[r]);
    LiveNotGivenUp(c, w.log[r], w.db.rows[r].lane.startedAt.value);
  }

  lemma ReclaimEnds(c: Config, w: World, now: nat, r: nat)
    requires Inv(c, w) && r in w.db.rows && Stuck(c, w.db.rows[r], now)
    ensures r in w.log
    ensures EndedWith(w, DoReclaim(c, w, now), r,
                      Reclaimed(w.db.rows[r].lane.startedAt.value, w.db.rows[r].lane.reclaims + 1 >= c.maxReclaims))
  {
    StuckIsLive(c, w, now, r);
  }

  lemma ReclaimKeepsNotices(c: Config, w: World, now: nat)
    requires Inv(c, w)
    ensures NoticesSound(DoReclaim(c, w, now))
  {
    var w' := DoReclaim(c, w, now);
    forall r | r in w.log && w'.log[r] != w.log[r] ensures exists e :: EndedWith(w, w', r, e) {
      ReclaimEnds(c, w, now, r);
    }
    forall n | n in w'.owed - w.owed
      ensures n.rid in w.log && w'.log[n.rid] != w.log[n.rid] && Live(w.log[n.rid]) == Some(n.token)
    {
      assert n in ReclaimNotices(c, w, now);
      StuckIsLive(c, w, now, n.rid);
      ReclaimEnds(c, w, now, n.rid);
    }
    NoticesOwed(c, w, w');
  }

  lemma ReclaimKeeps(c: Config, w: World, now: nat)
    requires Inv(c, w)
    ensures Inv(c, DoReclaim(c, w, now)) && Rely(w.db, DoReclaim(c, w, now).db)
  {
    ReclaimStuckKeeps(c, w.db, now);
    ReclaimKeepsLogs(c, w, now);
    ReclaimKeepsNotices(c, w, now);
    TasksSurvive(c, w, DoReclaim(c, w, now));
  }

  // ---- claims ----

  lemma IssuedTracks(c: Config, row: Row, log: seq<Event>, token: nat)
    requires Tracks(c, row, log) && row.lane.state == Uploaded && LastToken(log) < token
    ensures Tracks(c, ClaimRow(row, token), log + [Issued(token)])
    ensures LastToken(log + [Issued(token)]) == token
  {
    Append(c, log, Issued(token));
  }

  lemma TakeKeepsLogs(c: Config, w: World, index: nat, locked: set<nat>, tokens: map<nat, nat>, clock: nat)
    requires Inv(c, w) && CanTake(w, index, locked, tokens, clock)
    ensures LogSound(c, DoTake(w, index, tokens, clock))
  {
    var w' := DoTake(w, index, tokens, clock);
    forall r | r in tokens.Keys
      ensures r in w'.db.rows && r in w'.log && Tracks(c, w'.db.rows[r], w'.log[r]) && LastToken(w'.log[r]) < w'.db.clock
    {
      assert Claimable(w.db, locked, r);
      IssuedTracks(c, w.db.rows[r], w.log[r], tokens[r]);
    }
    LogsSurvive(c, w, w', tokens.Keys);
  }

  lemma TakeKeepsNotices(c: Config, w: World, index: nat, tokens: map<nat, nat>, clock: nat)
    requires Inv(c, w) && index < |w.limits|
    ensures NoticesSound(DoTake(w, index, tokens, clock))
  {
    var w' := DoTake(w, index, tokens, clock);
    forall r | r in w.log && w'.log[r] != w.log[r]
      ensures exists e :: w'.log[r] == w.log[r] + [e] && !GivesUp(e)
    {
      assert w'.log[r] == w.log[r] + [Issued(tokens[r])];
    }
    NoticesSurvive(c, w, w');
  }

  lemma NewClaimsSound(c: Config, w: World, index: nat, locked: set<nat>, tokens: map<nat, nat>, clock: nat, k: Claim)
    requires Inv(c, w) && CanTake(w, index, locked, tokens, clock) && k in NewClaims(w.db, tokens)
    ensures TaskSound(c, TakeRows(w.db, tokens, clock), k, Claimed)
  {
  }

  lemma TakeKeeps(c: Config, w: World, index: nat, locked: set<nat>, tokens: map<nat, nat>, clock: nat)
    requires Inv(c, w) && CanTake(w, index, locked, tokens, clock)
    ensures Inv(c, DoTake(w, index, tokens, clock)) && Rely(w.db, DoTake(w, index, tokens, clock).db)
  {
    var w' := DoTake(w, index, tokens, clock);
    TakeRowsKeeps(w.db, tokens, clock);
    TakeKeepsLogs(c, w, index, locked, tokens, clock);
    TakeKeepsNotices(c, w, index, tokens, clock);
    forall k | k in w'.tasks && !(k in w.tasks && w'.tasks[k] == w.tasks[k]) ensures TaskSound(c, w'.db, k, w'.tasks[k]) {
      NewClaimsSound(c, w, index, locked, tokens, clock, k);
    }
    TasksSurvive(c, w, w');
  }

  // ---- all steps ----

  lemma StepKeeps(c: Config, w: World, a: Action)
    requires Inv(c, w) && Enabled(c, w, a)
    ensures Inv(c, Next(c, w, a)) && Rely(w.db, Next(c, w, a).db)
  {
    match a {
      case User(act) => UserKeeps(c, w, act);
      case Reclaim(now) => ReclaimKeeps(c, w, now);
      case CountSlots => RelyReflexive(w.db);
      case DropCount(_) => RelyReflexive(w.db);
      case Take(index, locked, tokens, clock) => TakeKeeps(c, w, index, locked, tokens, clock);
      case ReadRow(k) => ReadRowKeeps(c, w, k);
      case ReadImages(k) => ReadImagesKeeps(c, w, k);
      case Provide(k, result) => ProvideKeeps(c, w, k, result);
      case Break(k, scanError) => BreakKeeps(c, w, k, scanError);
      case LoadLists(k) => LoadListsKeeps(c, w, k);
      case Compare(k) => CompareKeeps(c, w, k);
      case BeginWrite(k) => BeginWriteKeeps(c, w, k);
      case Send(k) => SendKeeps(c, w, k);
      case Write(k) => WriteKeeps(c, w, k);
      case Record(k) => RecordKeeps(c, w, k);
      case Crash(k) => TaskStepKeeps(c, w, Finish(w, k));
      case Notify(notice) => RelyReflexive(w.db);
      case LoseNotice(notice) => RelyReflexive(w.db);
    }
  }

  lemma StartSound(c: Config)
    ensures Inv(c, START)
  {
  }

  lemma {:induction false} RunSound(c: Config, worlds: seq<World>, actions: seq<Action>, i: nat)
    requires IsRun(c, worlds, actions) && i < |worlds|
    ensures Inv(c, worlds[i])
  {
    if i == 0 {
      StartSound(c);
    } else {
      RunSound(c, worlds, actions, i - 1);
      StepKeeps(c, worlds[i - 1], actions[i - 1]);
    }
  }
}
