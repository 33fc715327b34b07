/** The scan queue as a transition system. Any number of workers and users share the tables; every
    SQL statement or transaction is one step, and a worker may stop for good between any two. */
module ScanProtocol {
  import opened Basics
  import opened Kinds
  import opened LedgerInput
  import opened ScanTypes
  import opened Tables
  import opened ClaimLog

  /** What a worker carries into applyResult: the images it read, the validated result, and the
      user's lists as they were when it loaded them. */
  datatype Job = Job(images: seq<string>, result: ScanResult, taxonomy: Taxonomy)

  /** Where the processing of a claim has got to. */
  datatype Task =
    | Claimed
    | Snapped(known: Option<Kind>)
    | Fetched(known: Option<Kind>, images: seq<string>)
    | Scanned(images: seq<string>, result: ScanResult)
    | Ready(job: Job, attempt: nat)
    | Compared(job: Job, attempt: nat, before: Snapshot, allMatch: bool)
    | Writing(job: Job, attempt: nat, before: Snapshot, allMatch: bool, now: nat)
    | Locking(job: Job, attempt: nat, before: Snapshot, allMatch: bool, now: nat, counted: nat)
    | Failing(scanError: bool, terminal: bool)

  /** The scan_failed notice due when the claim `token` on receipt `rid` ended in giving up. */
  datatype Notice = Notice(rid: nat, token: nat)

  /** `limits` are the claim statements that have counted and not yet taken rows. A notice is `owed`
      until it is attempted (`sent`) or given up on without an attempt (`lost`). */
  datatype World = World(
    db: Db,
    log: map<nat, seq<Event>>,
    tasks: map<Claim, Task>,
    limits: seq<nat>,
    owed: set<Notice>,
    sent: seq<Notice>,
    lost: set<Notice>)

  const START: World := World(EMPTY_DB, map[], map[], [], {}, [], {})

  datatype UserAction =
    | BeginTransaction
    | RollBack(stamp: nat)
    | Wait
    | Upload(user: nat, stamp: nat, images: seq<string>)
    | EnterManually(user: nat, stamp: nat, today: Day, body: ManualBody)
    | Attach(user: nat, rid: nat, images: seq<string>)
    | Patch(user: nat, rid: nat, stamp: nat, patch: ReceiptPatch)
    | Retry(user: nat, rid: nat, stamp: nat)
    | Delete(user: nat, rid: nat)
    | NewItem(user: nat, rid: nat, input: ItemInput)
    | EditItem(user: nat, rid: nat, item: nat, itemPatch: ItemPatch)
    | DropItem(user: nat, rid: nat, item: nat)
    | NewCategory(category: Category)
    | EditCategory(user: nat, id: nat, name: Field<string>, isIncome: Field<bool>)
    | DropCategory(user: nat, id: nat)
    | NewTag(tag: Tag)
    | DropTag(user: nat, id: nat)
    | NewMethod(user: nat)
    | DropMethod(user: nat, id: nat)

  datatype Action =
    | User(act: UserAction)
    | Reclaim(now: nat)
    | CountSlots
    | DropCount(index: nat)
    | Take(index: nat, locked: set<nat>, tokens: map<nat, nat>, clock: nat)
    | ReadRow(k: Claim)
    | ReadImages(k: Claim)
    | Provide(k: Claim, result: ScanResult)
    | Break(k: Claim, scanError: bool)
    | LoadLists(k: Claim)
    | Compare(k: Claim)
    | BeginWrite(k: Claim)
    | Send(k: Claim)
    | Write(k: Claim)
    | Record(k: Claim)
    | Crash(k: Claim)
    | Notify(notice: Notice)
    | LoseNotice(notice: Notice)

  // ---- user steps ----

  /** The transaction's effect on the tables; None when it is refused. */
  function UserDb(db: Db, act: UserAction): Option<Db> {
    match act
    case BeginTransaction => Some(Begin(db))
    case RollBack(stamp) => Some(Rollback(db, stamp))
    case Wait => Some(db.(clock := db.clock + 1))
    case Upload(user, stamp, images) => if stamp in db.open then Some(UploadReceipt(db, user, stamp, images)) else None
    case EnterManually(user, stamp, today, body) =>
      if stamp in db.open then CreateManual(db, user, stamp, today, body) else None
    case Attach(user, rid, images) => AddImages(db, user, rid, images)
    case Patch(user, rid, stamp, patch) => if stamp in db.open then UpdateReceipt(db, user, rid, stamp, patch) else None
    case Retry(user, rid, stamp) => if stamp in db.open then RetryScan(db, user, rid, stamp) else None
    case Delete(user, rid) => DeleteReceipt(db, user, rid)
    case NewItem(user, rid, input) => CreateItem(db, user, rid, input)
    case EditItem(user, rid, item, patch) => UpdateItem(db, user, rid, item, patch)
    case DropItem(user, rid, item) => RemoveItem(db, user, rid, item)
    case NewCategory(category) => CreateCategory(db, category)
    case EditCategory(user, id, name, isIncome) => UpdateCategory(db, user, id, name, isIncome)
    case DropCategory(user, id) => RemoveCategory(db, user, id)
    case NewTag(tag) => CreateTag(db, tag)
    case DropTag(user, id) => RemoveTag(db, user, id)
    case NewMethod(user) => Some(CreateMethod(db, user))
    case DropMethod(user, id) => RemoveMethod(db, user, id)
  }

  function Note(log: map<nat, seq<Event>>, r: nat, e: Event): map<nat, seq<Event>> {
    if r in log then log[r := log[r] + [e]] else log
  }

  function UserLog(w: World, act: UserAction): map<nat, seq<Event>> {
    match act
    case Upload(_, _, _) => w.log[w.db.nextRow := [Created(true)]]
    case EnterManually(_, _, _, _) => w.log[w.db.nextRow := [Created(false)]]
    case Attach(_, rid, _) => if rid in w.log then Note(w.log, rid, Added(Live(w.log[rid]))) else w.log
    case Retry(_, rid, _) => Note(w.log, rid, Retried)
    case _ => w.log
  }

  // ---- worker steps ----

  function ReclaimedLog(c: Config, w: World, now: nat): map<nat, seq<Event>> {
    map r | r in w.log ::
      if r in w.db.rows && Stuck(c, w.db.rows[r], now)
      then w.log[r] + [Reclaimed(w.db.rows[r].lane.startedAt.value, w.db.rows[r].lane.reclaims + 1 >= c.maxReclaims)]
      else w.log[r]
  }

  function ReclaimNotices(c: Config, w: World, now: nat): set<Notice> {
    set r | r in w.db.rows && Stuck(c, w.db.rows[r], now) && w.db.rows[r].lane.reclaims + 1 >= c.maxReclaims ::
      Notice(r, w.db.rows[r].lane.startedAt.value)
  }

  function DoReclaim(c: Config, w: World, now: nat): World {
    w.(db := ReclaimStuck(c, w.db, now), log := ReclaimedLog(c, w, now), owed := w.owed + ReclaimNotices(c, w, now))
  }

  function Without<T>(s: seq<T>, i: nat): seq<T>
    requires i < |s|
  {
    s[..i] + s[i + 1..]
  }

  ghost predicate CanTake(w: World, index: nat, locked: set<nat>, tokens: map<nat, nat>, clock: nat) {
    && index < |w.limits|
    && OldestClaimable(w.db, w.limits[index], locked, tokens.Keys)
    && w.db.clock <= clock
    && forall r :: r in tokens ==> w.db.clock <= tokens[r] < clock
  }

  function NewClaims(db: Db, tokens: map<nat, nat>): set<Claim> {
    set r | r in tokens && r in db.rows :: Claim(r, db.rows[r].owner, tokens[r])
  }

  function TakenLog(log: map<nat, seq<Event>>, tokens: map<nat, nat>): map<nat, seq<Event>> {
    map r | r in log :: if r in tokens then log[r] + [Issued(tokens[r])] else log[r]
  }

  function DoTake(w: World, index: nat, tokens: map<nat, nat>, clock: nat): World
    requires index < |w.limits|
  {
    var issued := NewClaims(w.db, tokens);
    w.(db := TakeRows(w.db, tokens, clock), log := TakenLog(w.log, tokens), limits := Without(w.limits, index),
       tasks := map k | k in w.tasks.Keys + issued :: if k in issued then Claimed else w.tasks[k])
  }

  function GoTo(w: World, k: Claim, task: Task): World {
    w.(tasks := w.tasks[k := task])
  }

  function Finish(w: World, k: Claim): World {
    w.(tasks := w.tasks - {k})
  }

  function DoReadRow(w: World, k: Claim): World {
    var before := ReadSnapshot(w.db, k);
    if before.None? then Finish(w, k)
    else GoTo(w, k, Snapped(if before.value.reviewed then Some(before.value.kind) else None))
  }

  /** The images are read whether or not the claim still holds; a deleted receipt has none. */
  function DoReadImages(w: World, k: Claim): World
    requires k in w.tasks && w.tasks[k].Snapped?
  {
    var images := if k.rid in w.db.rows then w.db.rows[k.rid].images else [];
    if images == [] then GoTo(w, k, Failing(true, true)) else GoTo(w, k, Fetched(w.tasks[k].known, images))
  }

  function DoProvide(w: World, k: Claim, result: ScanResult): World
    requires k in w.tasks && w.tasks[k].Fetched?
  {
    var valid := ValidateResult(result, w.tasks[k].known.Some?);
    if valid.None? then GoTo(w, k, Failing(true, false)) else GoTo(w, k, Scanned(w.tasks[k].images, valid.value))
  }

  /** Any other exception while processing: from the provider it may be a ScanError, elsewhere not. */
  predicate CanBreak(w: World, k: Claim, scanError: bool) {
    k in w.tasks && !w.tasks[k].Failing? && (scanError ==> w.tasks[k].Fetched?)
  }

  function DoLoadLists(w: World, k: Claim): World
    requires k in w.tasks && w.tasks[k].Scanned?
  {
    GoTo(w, k, Ready(Job(w.tasks[k].images, w.tasks[k].result, LoadTaxonomy(w.db, k.user)), 0))
  }

  function DoCompare(c: Config, w: World, k: Claim): World
    requires k in w.tasks && w.tasks[k].Ready?
  {
    var t := w.tasks[k];
    var before := ReadSnapshot(w.db, k);
    if before.None? then Finish(w, k)
    else GoTo(w, k, Compared(t.job, t.attempt, before.value, SnapshotMatches(c, before.value, t.job.result)))
  }

  function DoBeginWrite(w: World, k: Claim): World
    requires k in w.tasks && w.tasks[k].Compared?
  {
    var t := w.tasks[k];
    GoTo(w, k, Writing(t.job, t.attempt, t.before, t.allMatch, w.db.clock)).(db := w.db.(clock := w.db.clock + 1))
  }

  predicate KindUsable(db: Db, k: Claim, result: ScanResult) {
    k.rid in db.rows && db.rows[k.rid].reviewedAt.None? ==> Extractable(result.kind)
  }

  /** The locking read is sent: it counts the items now, and may then have to wait for the row. */
  function DoSend(w: World, k: Claim): World
    requires k in w.tasks && w.tasks[k].Writing?
  {
    var t := w.tasks[k];
    if !ClaimHolds(w.db, k) then Finish(w, k)
    else GoTo(w, k, Locking(t.job, t.attempt, t.before, t.allMatch, t.now, |w.db.rows[k.rid].items|))
  }

  /** The write transaction, from the row's lock to commit or rollback. */
  function DoWrite(w: World, k: Claim): World
    requires k in w.tasks && w.tasks[k].Locking? && KindUsable(w.db, k, w.tasks[k].job.result)
  {
    var t := w.tasks[k];
    var locked := ReadLocked(w.db, k, t.counted);
    if locked.None? then Finish(w, k)
    else if !SameVersion(t.before, locked.value) then
      if t.attempt + 1 < 2 then GoTo(w, k, Ready(t.job, t.attempt + 1)) else GoTo(w, k, Failing(false, false))
    else
      var written := WriteResult(w.db, k, t.now, t.job.result, t.job.taxonomy, t.allMatch, t.counted);
      if written.None? then GoTo(w, k, Failing(false, false))
      else Finish(w, k).(db := written.value, log := Note(w.log, k.rid, Applied(k.token, t.job.images)))
  }

  function DoRecord(c: Config, w: World, k: Claim): World
    requires k in w.tasks && w.tasks[k].Failing?
  {
    var t := w.tasks[k];
    if !ClaimHolds(w.db, k) then Finish(w, k)
    else
      var db' := RecordFailure(c, w.db, k, t.scanError, t.terminal);
      var gaveUp := db'.rows[k.rid].lane.state == ScanFailed;
      Finish(w, k).(db := db', log := Note(w.log, k.rid, Failed(k.token, t.scanError, t.terminal, gaveUp)),
                    owed := if gaveUp then w.owed + {Notice(k.rid, k.token)} else w.owed)
  }

  // ---- the step relation ----

  ghost predicate Enabled(c: Config, w: World, a: Action) {
    match a
    case User(act) => UserDb(w.db, act).Some?
    case Reclaim(now) => now <= w.db.clock
    case CountSlots => true
    case DropCount(index) => index < |w.limits|
    case Take(index, locked, tokens, clock) => CanTake(w, index, locked, tokens, clock)
    case ReadRow(k) => k in w.tasks && w.tasks[k].Claimed?
    case ReadImages(k) => k in w.tasks && w.tasks[k].Snapped?
    case Provide(k, _) => k in w.tasks && w.tasks[k].Fetched?
    case Break(k, scanError) => CanBreak(w, k, scanError)
    case LoadLists(k) => k in w.tasks && w.tasks[k].Scanned?
    case Compare(k) => k in w.tasks && w.tasks[k].Ready?
    case BeginWrite(k) => k in w.tasks && w.tasks[k].Compared?
    case Send(k) => k in w.tasks && w.tasks[k].Writing?
    case Write(k) => k in w.tasks && w.tasks[k].Locking? && KindUsable(w.db, k, w.tasks[k].job.result)
    case Record(k) => k in w.tasks && w.tasks[k].Failing?
    case Crash(k) => k in w.tasks
    case Notify(notice) => notice in w.owed
    case LoseNotice(notice) => notice in w.owed
  }

  ghost function Next(c: Config, w: World, a: Action): World
    requires Enabled(c, w, a)
  {
    match a
    case User(act) => w.(db := UserDb(w.db, act).value, log := UserLog(w, act))
    case Reclaim(now) => DoReclaim(c, w, now)
    case CountSlots => w.(limits := w.limits + [ClaimLimit(c, w.db)])
    case DropCount(index) => w.(limits := Without(w.limits, index))
    case Take(index, locked, tokens, clock) => DoTake(w, index, tokens, clock)
    case ReadRow(k) => DoReadRow(w, k)
    case ReadImages(k) => DoReadImages(w, k)
    case Provide(k, result) => DoProvide(w, k, result)
    case Break(k, scanError) => GoTo(w, k, Failing(scanError, false))
    case LoadLists(k) => DoLoadLists(w, k)
    case Compare(k) => DoCompare(c, w, k)
    case BeginWrite(k) => DoBeginWrite(w, k)
    case Send(k) => DoSend(w, k)
    case Write(k) => DoWrite(w, k)
    case Record(k) => DoRecord(c, w, k)
    case Crash(k) => Finish(w, k)
    case Notify(notice) => w.(owed := w.owed - {notice}, sent := w.sent + [notice])
    case LoseNotice(notice) => w.(owed := w.owed - {notice}, lost := w.lost + {notice})
  }

  /** A run: worlds[0] is the start, and each action leads from one world to the next. */
  ghost predicate IsRun(c: Config, worlds: seq<World>, actions: seq<Action>) {
    && |worlds| == |actions| + 1
    && worlds[0] == START
    && forall i :: 0 <= i < |actions| ==>
         Enabled(c, worlds[i], actions[i]) && worlds[i + 1] == Next(c, worlds[i], actions[i])
  }
}
