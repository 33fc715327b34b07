/** What holds of the scan queue over whole runs. */
module ScanTheorems {
  import opened Basics
  import opened ScanTypes
  import opened Tables
  import opened LedgerInvariant
  import opened ClaimLog
  import opened ScanProtocol
  import opened ScanInvariant

  // ---- what one step can do to one receipt ----

  /** A worker step leaves a receipt alone, changes its scan columns in one of three ways, or commits
      a scan result to it. */
  ghost predicate WorkerEffect(c: Config, w: World, a: Action, r: nat, row: Row, row': Row) {
    || row' == row
    || (a.Reclaim? && Stuck(c, row, a.now) && row' == ReclaimRow(c, row))
    || (a.Take? && r in a.tokens && row.lane.state == Uploaded && row' == ClaimRow(row, a.tokens[r]))
    || (a.Record? && a.k.rid == r && ClaimHolds(w.db, a.k) && a.k in w.tasks && w.tasks[a.k].Failing?
        && row' == FailRow(c, row, w.tasks[a.k].scanError, w.tasks[a.k].terminal))
    || (a.Write? && a.k.rid == r && CommitsWrite(w, a.k) && row' == Committed(w, a.k).rows[r])
  }

  /** Which rows there are, and what happened to row r, after a worker step. */
  ghost predicate GoodWorkerStep(c: Config, w: World, a: Action, w': World, r: nat) {
    && w'.db.rows.Keys == w.db.rows.Keys
    && (r in w.db.rows ==> WorkerEffect(c, w, a, r, w.db.rows[r], w'.db.rows[r]))
  }

  lemma WriteStep(c: Config, w: World, k: Claim, r: nat)
    requires k in w.tasks && w.tasks[k].Locking? && KindUsable(w.db, k, w.tasks[k].job.result)
    ensures GoodWorkerStep(c, w, Write(k), DoWrite(w, k), r)
  {
    if CommitsWrite(w, k) {
      CommitShape(w, k);
      CommittedRowShape(w, k);
    } else {
      NoCommitShape(w, k);
    }
  }

  lemma RecordStep(c: Config, w: World, k: Claim, r: nat)
    requires k in w.tasks && w.tasks[k].Failing?
    ensures GoodWorkerStep(c, w, Record(k), DoRecord(c, w, k), r)
  {
    if ClaimHolds(w.db, k) { RecordHeldShape(c, w, k); }
  }

  lemma TakeStep(c: Config, w: World, a: Action, r: nat)
    requires a.Take? && CanTake(w, a.index, a.locked, a.tokens, a.clock)
    ensures GoodWorkerStep(c, w, a, DoTake(w, a.index, a.tokens, a.clock), r)
  {
    if r in a.tokens { assert Claimable(w.db, a.locked, r); }
  }

  lemma ReclaimStep(c: Config, w: World, now: nat, r: nat)
    ensures GoodWorkerStep(c, w, Reclaim(now), DoReclaim(c, w, now), r)
  {
  }

  /** Workers never create or delete a receipt, and touch one only as WorkerEffect says. */
  lemma WorkerStep(c: Config, w: World, a: Action, r: nat)
    requires Enabled(c, w, a) && !a.User?
    ensures GoodWorkerStep(c, w, a, Next(c, w, a), r)
  {
    match a {
      case Write(k) => WriteStep(c, w, k, r);
      case Record(k) => RecordStep(c, w, k, r);
      case Take(_, _, _, _) => TakeStep(c, w, a, r);
      case Reclaim(now) => ReclaimStep(c, w, now, r);
      case _ =>
    }
  }

  // ---- freshness ----

  /** At step j a scan was written to r that had read exactly `images`. */
  ghost predicate WroteFrom(worlds: seq<World>, actions: seq<Action>, j: nat, r: nat, images: seq<string>)
    requires |worlds| == |actions| + 1
  {
    && j < |actions| && actions[j].Write? && actions[j].k.rid == r
    && CommitsWrite(worlds[j], actions[j].k)
    && worlds[j].tasks[actions[j].k].job.images == images
    && worlds[j].db.rows[r].images == images
  }

  lemma UserIdleStep(db: Db, act: UserAction, r: nat)
    requires UserDb(db, act).Some?
    requires r in UserDb(db, act).value.rows && UserDb(db, act).value.rows[r].lane.state == Idle
    ensures UserDb(db, act).value.rows[r].images == []
         || (r in db.rows && db.rows[r].lane.state == Idle && db.rows[r].images == UserDb(db, act).value.rows[r].images)
  {
    UserKeepsOtherLanes(db, act);
    if act.EnterManually? {
      ManualShape(db, act.user, act.stamp, act.today, act.body);
    } else if act.Attach? {
      AttachShape(db, act.user, act.rid, act.images);
    } else if act.Retry? {
      RetryShape(db, act.user, act.rid, act.stamp);
    }
  }

  lemma WorkerIdleStep(c: Config, w: World, a: Action, r: nat, row: Row, row': Row)
    requires Inv(c, w) && r in w.db.rows && row == w.db.rows[r]
    requires WorkerEffect(c, w, a, r, row, row') && row'.lane.state == Idle
    ensures row.images == row'.images
    ensures || row.lane.state == Idle
            || (a.Write? && a.k.rid == r && CommitsWrite(w, a.k) && w.tasks[a.k].job.images == row.images)
  {
    if a.Write? && CommitsWrite(w, a.k) {
      TaskWritable(c, w, a.k);
      CommittedRowShape(w, a.k);
    }
  }

  /** A step that leaves a receipt at rest with images found it so, or wrote it from those images. */
  lemma IdleStep(c: Config, w: World, a: Action, r: nat)
    requires Inv(c, w) && Enabled(c, w, a)
    requires r in Next(c, w, a).db.rows && Next(c, w, a).db.rows[r].lane.state == Idle
    requires Next(c, w, a).db.rows[r].images != []
    ensures r in w.db.rows && w.db.rows[r].images == Next(c, w, a).db.rows[r].images
    ensures || w.db.rows[r].lane.state == Idle
            || (a.Write? && a.k.rid == r && CommitsWrite(w, a.k) && w.tasks[a.k].job.images == w.db.rows[r].images)
  {
    if a.User? {
      UserIdleStep(w.db, a.act, r);
    } else {
      WorkerStep(c, w, a, r);
      WorkerIdleStep(c, w, a, r, w.db.rows[r], Next(c, w, a).db.rows[r]);
    }
  }

  /** The step commits a scan to r. */
  ghost predicate CommitsTo(w: World, a: Action, r: nat) {
    a.Write? && a.k.rid == r && CommitsWrite(w, a.k)
  }

  /** The last scan written to r before step i was written at step j, from these images. */
  ghost predicate LastWroteFrom(worlds: seq<World>, actions: seq<Action>, j: nat, i: nat, r: nat, images: seq<string>)
    requires |worlds| == |actions| + 1 && i <= |actions|
  {
    j < i && WroteFrom(worlds, actions, j, r, images) && forall m :: j < m < i ==> !CommitsTo(worlds[m], actions[m], r)
  }

  /** The receipt is there, at rest, with these images. */
  predicate RestsWith(w: World, r: nat, images: seq<string>) {
    r in w.db.rows && w.db.rows[r].lane.state == Idle && w.db.rows[r].images == images
  }

  /** The step kept it at rest, committing nothing to it, or wrote it from these images. */
  lemma RestStep(c: Config, worlds: seq<World>, actions: seq<Action>, n: nat, r: nat, images: seq<string>)
    requires IsRun(c, worlds, actions) && n < |actions| && images != [] && RestsWith(worlds[n + 1], r, images)
    ensures || (RestsWith(worlds[n], r, images) && !CommitsTo(worlds[n], actions[n], r))
            || WroteFrom(worlds, actions, n, r, images)
  {
    RunSound(c, worlds, actions, n);
    IdleStep(c, worlds[n], actions[n], r);
  }

  /** In every run, whatever is interleaved: a receipt at rest that has images holds exactly the images
      read by the last scan that was written to it. */
  lemma {:induction false} IdleReceiptsAreFresh(c: Config, worlds: seq<World>, actions: seq<Action>, i: nat, r: nat, images: seq<string>)
    requires IsRun(c, worlds, actions) && i < |worlds| && RestsWith(worlds[i], r, images) && images != []
    ensures exists j: nat :: LastWroteFrom(worlds, actions, j, i, r, images)
  {
    if i > 0 {
      RestStep(c, worlds, actions, i - 1, r, images);
      if WroteFrom(worlds, actions, i - 1, r, images) {
        assert LastWroteFrom(worlds, actions, i - 1, i, r, images);
      } else {
        IdleReceiptsAreFresh(c, worlds, actions, i - 1, r, images);
        var j: nat :| LastWroteFrom(worlds, actions, j, i - 1, r, images);
        assert LastWroteFrom(worlds, actions, j, i, r, images);
      }
    }
  }

  /** In every run, each scan that is written read exactly the images the receipt has at that moment. */
  lemma WritesAreFresh(c: Config, worlds: seq<World>, actions: seq<Action>, i: nat, r: nat)
    requires IsRun(c, worlds, actions) && i < |actions| && CommitsTo(worlds[i], actions[i], r)
    ensures WroteFrom(worlds, actions, i, r, worlds[i].db.rows[r].images)
  {
    RunSound(c, worlds, actions, i);
    TaskWritable(c, worlds[i], actions[i].k);
  }

  // ---- the optimistic write refines an atomic one ----

  /** Decide and write in one go from the row as it is: extraction if it was never reviewed, otherwise
      verify with the comparison made on this very row. Only the item count is a given. */
  function AtomicWrite(c: Config, db: Db, k: Claim, now: nat, result: ScanResult, taxonomy: Taxonomy, counted: nat): Option<Db>
    requires ClaimHolds(db, k) && KindUsable(db, k, result)
  {
    var row := db.rows[k.rid];
    WriteResult(db, k, now, result, taxonomy, row.reviewedAt.None? || RowMatches(c, row, result), counted)
  }

  /** In every run, a write step either leaves the tables alone or does what the atomic write would do
      to them at that moment, however the row was edited or reviewed since the comparison. */
  lemma WriteIsAtomic(c: Config, worlds: seq<World>, actions: seq<Action>, i: nat)
    requires IsRun(c, worlds, actions) && i < |actions| && actions[i].Write?
    ensures var w, k := worlds[i], actions[i].k;
      if CommitsWrite(w, k)
      then Some(worlds[i + 1].db) == AtomicWrite(c, w.db, k, w.tasks[k].now, w.tasks[k].job.result, w.tasks[k].job.taxonomy, w.tasks[k].counted)
      else worlds[i + 1].db == w.db
  {
    var w, k := worlds[i], actions[i].k;
    RunSound(c, worlds, actions, i);
    assert TaskSound(c, w.db, k, w.tasks[k]);
    if CommitsWrite(w, k) {
      CommitShape(w, k);
      CommittedAgrees(c, w, k);
    } else {
      NoCommitShape(w, k);
    }
  }

  lemma CommittedAgrees(c: Config, w: World, k: Claim)
    requires Inv(c, w) && CommitsWrite(w, k)
    ensures Some(Committed(w, k)) == AtomicWrite(c, w.db, k, w.tasks[k].now, w.tasks[k].job.result, w.tasks[k].job.taxonomy, w.tasks[k].counted)
  {
    var t, row := w.tasks[k], w.db.rows[k.rid];
    assert TaskSound(c, w.db, k, t);
    assert t.allMatch == (row.reviewedAt.None? || RowMatches(c, row, t.job.result));
  }

  /** The kind a write needs is always there: rulesFor never meets an unknown or directionless kind. */
  lemma WriteIsNeverStuck(c: Config, worlds: seq<World>, actions: seq<Action>, i: nat, k: Claim)
    requires IsRun(c, worlds, actions) && i < |worlds| && k in worlds[i].tasks && worlds[i].tasks[k].Locking?
    ensures Enabled(c, worlds[i], Write(k))
  {
    RunSound(c, worlds, actions, i);
    WriteKindUsable(c, worlds[i], k);
  }

  // ---- claims ----

  lemma {:induction false} RelyAlongRun(c: Config, worlds: seq<World>, actions: seq<Action>, i: nat, j: nat)
    requires IsRun(c, worlds, actions) && i <= j < |worlds|
    ensures Rely(worlds[i].db, worlds[j].db)
    decreases j - i
  {
    RunSound(c, worlds, actions, i);
    if i == j {
      RelyReflexive(worlds[i].db);
    } else {
      RelyAlongRun(c, worlds, actions, i, j - 1);
      RunSound(c, worlds, actions, j - 1);
      StepKeeps(c, worlds[j - 1], actions[j - 1]);
      RelyTransitive(worlds[i].db, worlds[j - 1].db, worlds[j].db);
    }
  }

  /** The claim a worker step works for. */
  predicate ActsFor(a: Action, k: Claim) {
    match a
    case ReadRow(q) => q == k
    case ReadImages(q) => q == k
    case Provide(q, _) => q == k
    case Break(q, _) => q == k
    case LoadLists(q) => q == k
    case Compare(q) => q == k
    case BeginWrite(q) => q == k
    case Send(q) => q == k
    case Write(q) => q == k
    case Record(q) => q == k
    case Crash(q) => q == k
    case _ => false
  }

  lemma StaleStaysStale(db: Db, db': Db, k: Claim)
    requires Rely(db, db') && k.rid < db.nextRow && k.token < db.clock && !ClaimHolds(db, k)
    ensures !ClaimHolds(db', k)
  {
    if k.rid in db'.rows {
      assert RowRely(db, db.rows[k.rid], db'.rows[k.rid]);
    }
  }

  /** Once a claim no longer holds it never does again, and nothing its worker still does, however
      late, changes any row. */
  lemma StaleClaimIsInert(c: Config, worlds: seq<World>, actions: seq<Action>, i: nat, j: nat, k: Claim)
    requires IsRun(c, worlds, actions) && i <= j < |actions|
    requires k in worlds[i].tasks && !ClaimHolds(worlds[i].db, k)
    ensures !ClaimHolds(worlds[j].db, k)
    ensures ActsFor(actions[j], k) ==> worlds[j + 1].db.rows == worlds[j].db.rows
  {
    RunSound(c, worlds, actions, i);
    assert TaskSound(c, worlds[i].db, k, worlds[i].tasks[k]);
    RelyAlongRun(c, worlds, actions, i, j);
    StaleStaysStale(worlds[i].db, worlds[j].db, k);
  }

  /** In every run and for every receipt ever created: the claims issued are those applied, failed,
      reclaimed or voided by new images, plus the one outstanding, which is there exactly while the
      receipt is scanning and is then its scan_started_at. */
  lemma ClaimConservation(c: Config, worlds: seq<World>, actions: seq<Action>, i: nat, r: nat)
    requires IsRun(c, worlds, actions) && i < |worlds| && r in worlds[i].log
    ensures var log := worlds[i].log[r];
      Count(log, IssuedClaim) == Count(log, AppliedResult) + Count(log, RecordedFailure) + Count(log, ReclaimedClaim)
                                 + Count(log, VoidedClaim) + (if Live(log).Some? then 1 else 0)
    ensures r in worlds[i].db.rows ==>
      (worlds[i].db.rows[r].lane.state == Scanning <==> Live(worlds[i].log[r]).Some?)
      && (worlds[i].db.rows[r].lane.state == Scanning ==> worlds[i].db.rows[r].lane.startedAt == Live(worlds[i].log[r]))
  {
    RunSound(c, worlds, actions, i);
    ClaimsAreConserved(c, worlds[i].log[r]);
    if r in worlds[i].db.rows {
      assert Tracks(c, worlds[i].db.rows[r], worlds[i].log[r]);
    }
  }

  /** The two budgets count what they are meant to, and scan_failed is reached exactly by an event
      that gave up. */
  lemma BudgetsAreAccounted(c: Config, worlds: seq<World>, actions: seq<Action>, i: nat, r: nat)
    requires IsRun(c, worlds, actions) && i < |worlds| && r in worlds[i].db.rows
    ensures r in worlds[i].log && worlds[i].log[r] != []
    ensures var lane, log := worlds[i].db.rows[r].lane, worlds[i].log[r];
      && lane.attempts == ScanErrors(log)
      && lane.reclaims == InfraErrors(log)
      && (lane.state == ScanFailed <==> GivesUp(Last(log)))
  {
    RunSound(c, worlds, actions, i);
    assert Tracks(c, worlds[i].db.rows[r], worlds[i].log[r]);
  }

  /** Every give-up owes exactly one notice, which is then attempted at most once or never; no notice is
      ever attempted for anything else. */
  lemma NoticesMatchGiveUps(c: Config, worlds: seq<World>, actions: seq<Action>, i: nat, n: Notice)
    requires IsRun(c, worlds, actions) && i < |worlds|
    ensures n in worlds[i].sent ==> n.rid in worlds[i].log && GaveUpOn(worlds[i].log[n.rid], n.token)
    ensures n.rid in worlds[i].log && GaveUpOn(worlds[i].log[n.rid], n.token) ==>
      n in worlds[i].owed || n in worlds[i].sent || n in worlds[i].lost
    ensures Distinct(worlds[i].sent) && !(n in worlds[i].owed && n in worlds[i].sent)
  {
    RunSound(c, worlds, actions, i);
  }

  // ---- termination ----

  /** What is left of the two budgets, never less than one each. */
  function Budget(c: Config, lane: Lane): int {
    Max(c.maxScanAttempts - lane.attempts, 1) + Max(c.maxReclaims - lane.reclaims, 1)
  }

  /** An upper bound on the claims still to come while the user leaves the receipt alone. */
  function ClaimsLeft(c: Config, lane: Lane): int {
    match lane.state
    case Uploaded => Budget(c, lane) - 1
    case Scanning => Budget(c, lane) - 2
    case _ => 0
  }

  /** The user acts that put a receipt back in the queue, or take it away. */
  predicate Disturbs(a: Action, r: nat) {
    a.User? && ((a.act.Attach? && a.act.rid == r) || (a.act.Retry? && a.act.rid == r) || (a.act.Delete? && a.act.rid == r))
  }

  function Cost(a: Action, r: nat): nat {
    if a.Take? && r in a.tokens then 1 else 0
  }

  /** How often steps i to j claim r. */
  function ClaimsTaken(actions: seq<Action>, i: nat, j: nat, r: nat): nat
    requires i <= j <= |actions|
    decreases j - i
  {
    if i == j then 0 else Cost(actions[i], r) + ClaimsTaken(actions, i + 1, j, r)
  }

  lemma ClaimsLeftNatural(c: Config, lane: Lane)
    ensures ClaimsLeft(c, lane) >= 0
  {
  }

  lemma UndisturbedRowStays(db: Db, act: UserAction, r: nat)
    requires DbOk(db) && UserDb(db, act).Some? && r in db.rows && !Disturbs(User(act), r)
    ensures r in UserDb(db, act).value.rows && UserDb(db, act).value.rows[r].lane == db.rows[r].lane
  {
    UndisturbedRowKept(db, act, r);
    UserKeepsOtherLanes(db, act);
    assert r !in LaneTouched(db, act);
  }

  lemma UndisturbedRowKept(db: Db, act: UserAction, r: nat)
    requires UserDb(db, act).Some? && r in db.rows && !Disturbs(User(act), r)
    ensures r in UserDb(db, act).value.rows
  {
  }

  lemma EffectLane(c: Config, w: World, a: Action, r: nat, row: Row, row': Row)
    requires WorkerEffect(c, w, a, r, row, row') && (a.Take? && r in a.tokens ==> row != row')
    requires r in w.db.rows && w.db.rows[r] == row
    ensures ClaimsLeft(c, row'.lane) + Cost(a, r) <= ClaimsLeft(c, row.lane)
    ensures row.lane.state == Scanning && row'.lane.state == Uploaded ==> Budget(c, row'.lane) < Budget(c, row.lane)
  {
    if a.Write? && CommitsWrite(w, a.k) { CommittedRowShape(w, a.k); }
  }

  /** Each worker step that re-queues a receipt spends budget; each claim is paid for. */
  lemma UndisturbedStep(c: Config, w: World, a: Action, r: nat)
    requires Inv(c, w) && Enabled(c, w, a) && r in w.db.rows && !Disturbs(a, r)
    ensures var w' := Next(c, w, a);
      && r in w'.db.rows
      && ClaimsLeft(c, w'.db.rows[r].lane) + Cost(a, r) <= ClaimsLeft(c, w.db.rows[r].lane)
      && (w.db.rows[r].lane.state == Scanning && w'.db.rows[r].lane.state == Uploaded ==>
            Budget(c, w'.db.rows[r].lane) < Budget(c, w.db.rows[r].lane))
  {
    if a.User? {
      UndisturbedRowStays(w.db, a.act, r);
    } else {
      WorkerStep(c, w, a, r);
      if a.Take? && r in a.tokens {
        assert Claimable(w.db, a.locked, r);
      }
      EffectLane(c, w, a, r, w.db.rows[r], Next(c, w, a).db.rows[r]);
    }
  }

  /** In a run, a step that leaves r undisturbed keeps it and is paid for. */
  ghost predicate PaidStep(c: Config, db: Db, db': Db, a: Action, r: nat) {
    r in db.rows && r in db'.rows && ClaimsLeft(c, db'.rows[r].lane) + Cost(a, r) <= ClaimsLeft(c, db.rows[r].lane)
  }

  lemma PaidInRun(c: Config, worlds: seq<World>, actions: seq<Action>, n: nat, r: nat)
    requires IsRun(c, worlds, actions) && n < |actions| && !Disturbs(actions[n], r) && r in worlds[n].db.rows
    ensures PaidStep(c, worlds[n].db, worlds[n + 1].db, actions[n], r)
  {
    RunSound(c, worlds, actions, n);
    UndisturbedStep(c, worlds[n], actions[n], r);
  }

  /** While the user leaves a receipt alone, it is claimed no more often than its budgets allow,
      whatever the workers do and however many there are. */
  lemma {:induction false} ClaimsAreBounded(c: Config, worlds: seq<World>, actions: seq<Action>, i: nat, j: nat, r: nat)
    requires IsRun(c, worlds, actions) && i <= j < |worlds| && r in worlds[i].db.rows
    requires forall n :: i <= n < j ==> !Disturbs(actions[n], r)
    ensures r in worlds[j].db.rows
    ensures ClaimsTaken(actions, i, j, r) + ClaimsLeft(c, worlds[j].db.rows[r].lane) <= ClaimsLeft(c, worlds[i].db.rows[r].lane)
    ensures ClaimsLeft(c, worlds[j].db.rows[r].lane) >= 0
    decreases j - i
  {
    if i == j {
      ClaimsLeftNatural(c, worlds[j].db.rows[r].lane);
    } else {
      PaidInRun(c, worlds, actions, i, r);
      ClaimsAreBounded(c, worlds, actions, i + 1, j, r);
    }
  }

  /** No receipt can stay in `scanning` for ever: it always has a start time, and the first reclaim
      after the timeout takes it out. */
  lemma ScanningIsReclaimable(c: Config, worlds: seq<World>, actions: seq<Action>, i: nat, r: nat, now: nat)
    requires IsRun(c, worlds, actions) && i < |actions| && actions[i] == Reclaim(now)
    requires r in worlds[i].db.rows && worlds[i].db.rows[r].lane.state == Scanning
    ensures worlds[i].db.rows[r].lane.startedAt.Some?
    ensures r in worlds[i + 1].db.rows
    ensures worlds[i + 1].db.rows[r].lane.state != Scanning <==>
            worlds[i].db.rows[r].lane.startedAt.value + c.reclaimAfter < now
  {
    RunSound(c, worlds, actions, i);
    assert RowOk(worlds[i].db, r, worlds[i].db.rows[r]);
  }

  // ---- the soft concurrency cap ----

  function Sum(s: seq<nat>): nat {
    if s == [] then 0 else s[0] + Sum(s[1..])
  }

  lemma {:induction false} SumAppend(s: seq<nat>, n: nat)
    ensures Sum(s + [n]) == Sum(s) + n
  {
    if s == [] {
      assert Sum([n]) == n + Sum([n][1..]);
    } else {
      assert (s + [n])[1..] == s[1..] + [n];
      SumAppend(s[1..], n);
    }
  }

  lemma {:induction false} SumWithout(s: seq<nat>, i: nat)
    requires i < |s|
    ensures Sum(Without(s, i)) == Sum(s) - s[i]
  {
    if i == 0 {
      assert Without(s, i) == s[1..];
    } else {
      assert Without(s, i)[1..] == Without(s[1..], i - 1);
      SumWithout(s[1..], i - 1);
    }
  }

  lemma {:induction false} SumAtMost(s: seq<nat>, m: nat)
    requires forall i :: 0 <= i < |s| ==> s[i] <= m
    ensures Sum(s) <= |s| * m
  {
    if s != [] {
      SumAtMost(s[1..], m);
      assert |s| * m == m + (|s| - 1) * m;
    }
  }

  /** Rows in `scanning`, plus what the open claim statements may still take, fit n times the cap. */
  ghost predicate WithinCap(c: Config, w: World, n: nat) {
    && (forall i :: 0 <= i < |w.limits| ==> w.limits[i] <= Max(c.concurrency, 0))
    && CountScanning(w.db) + Sum(w.limits) <= n * Max(c.concurrency, 0)
  }

  lemma FewerScanning(db: Db, db': Db)
    requires ScanningSet(db') <= ScanningSet(db)
    ensures CountScanning(db') <= CountScanning(db)
  {
    SubsetSize(ScanningSet(db'), ScanningSet(db));
  }

  lemma {:induction false} SubsetSize(a: set<nat>, b: set<nat>)
    requires a <= b
    ensures |a| <= |b|
  {
    if a != {} {
      var x :| x in a;
      SubsetSize(a - {x}, b - {x});
    }
  }

  lemma {:induction false} UnionSize(a: set<nat>, b: set<nat>)
    ensures |a + b| <= |a| + |b|
  {
    if a == {} {
      assert a + b == b;
    } else {
      var x :| x in a;
      UnionSize(a - {x}, b);
      if x in b {
        assert a + b == (a - {x}) + b;
      } else {
        assert a + b == ((a - {x}) + b) + {x};
      }
    }
  }

  lemma TakeScanning(w: World, index: nat, locked: set<nat>, tokens: map<nat, nat>, clock: nat)
    requires CanTake(w, index, locked, tokens, clock)
    ensures CountScanning(TakeRows(w.db, tokens, clock)) <= CountScanning(w.db) + w.limits[index]
  {
    var before, after := ScanningSet(w.db), ScanningSet(TakeRows(w.db, tokens, clock));
    assert after <= before + tokens.Keys;
    SubsetSize(after, before + tokens.Keys);
    UnionSize(before, tokens.Keys);
    assert |tokens.Keys| <= w.limits[index];
  }

  lemma UserScanning(db: Db, act: UserAction)
    requires UserDb(db, act).Some?
    ensures ScanningSet(UserDb(db, act).value) <= ScanningSet(db)
  {
    var db' := UserDb(db, act).value;
    UserKeepsOtherLanes(db, act);
    forall r | r in ScanningSet(db') ensures r in ScanningSet(db) {
      if act.EnterManually? {
        ManualShape(db, act.user, act.stamp, act.today, act.body);
      } else if act.Attach? {
        AttachShape(db, act.user, act.rid, act.images);
      } else if act.Retry? {
        RetryShape(db, act.user, act.rid, act.stamp);
      }
    }
  }

  lemma EffectScanning(c: Config, w: World, a: Action, r: nat, row: Row, row': Row)
    requires WorkerEffect(c, w, a, r, row, row') && !a.Take? && row'.lane.state == Scanning
    requires r in w.db.rows && w.db.rows[r] == row
    ensures row.lane.state == Scanning
  {
    if a.Write? && CommitsWrite(w, a.k) { CommittedRowShape(w, a.k); }
  }

  lemma QuietStepScanning(c: Config, w: World, a: Action)
    requires Enabled(c, w, a) && !a.Take?
    ensures CountScanning(Next(c, w, a).db) <= CountScanning(w.db)
  {
    var w' := Next(c, w, a);
    if a.User? {
      UserScanning(w.db, a.act);
    } else {
      forall r | r in ScanningSet(w'.db) ensures r in ScanningSet(w.db) {
        WorkerStep(c, w, a, r);
        EffectScanning(c, w, a, r, w.db.rows[r], w'.db.rows[r]);
      }
    }
    FewerScanning(w.db, w'.db);
  }

  lemma QuietStepLimits(c: Config, w: World, a: Action)
    requires Enabled(c, w, a) && !a.Take? && !a.CountSlots? && !a.DropCount?
    ensures Next(c, w, a).limits == w.limits
  {
  }

  lemma TakeCap(c: Config, w: World, a: Action, n: nat)
    requires a.Take? && CanTake(w, a.index, a.locked, a.tokens, a.clock) && WithinCap(c, w, n)
    ensures WithinCap(c, DoTake(w, a.index, a.tokens, a.clock), n)
  {
    TakeScanning(w, a.index, a.locked, a.tokens, a.clock);
    SumWithout(w.limits, a.index);
  }

  lemma CountCap(c: Config, w: World, n: nat)
    requires WithinCap(c, w, n) && |w.limits| + 1 <= n
    ensures WithinCap(c, w.(limits := w.limits + [ClaimLimit(c, w.db)]), n)
  {
    var m := Max(c.concurrency, 0);
    SumAppend(w.limits, ClaimLimit(c, w.db));
    SumAtMost(w.limits, m);
    MulLe(|w.limits|, n - 1, m);
  }

  lemma CapStep(c: Config, w: World, a: Action, n: nat)
    requires Enabled(c, w, a) && WithinCap(c, w, n) && |Next(c, w, a).limits| <= n
    ensures WithinCap(c, Next(c, w, a), n)
  {
    if a.Take? {
      TakeCap(c, w, a, n);
    } else if a.CountSlots? {
      CountCap(c, w, n);
    } else if a.DropCount? {
      SumWithout(w.limits, a.index);
    } else {
      QuietStepScanning(c, w, a);
      QuietStepLimits(c, w, a);
    }
  }

  lemma MulLe(a: int, b: int, m: nat)
    requires a <= b
    ensures a * m <= b * m && (b + 1) * m == b * m + m
  {
  }

  /** If at most n claim statements ever race, the receipts being scanned never exceed n times the
      configured concurrency: with one the cap is exact, with two it can be overshot by one tick. */
  lemma {:induction false} ConcurrencyCap(c: Config, worlds: seq<World>, actions: seq<Action>, i: nat, n: nat)
    requires IsRun(c, worlds, actions) && i < |worlds|
    requires forall j :: 0 <= j < |worlds| ==> |worlds[j].limits| <= n
    ensures CountScanning(worlds[i].db) <= n * Max(c.concurrency, 0)
    ensures WithinCap(c, worlds[i], n)
  {
    if i == 0 {
      assert ScanningSet(START.db) == {};
      MulNat(n, Max(c.concurrency, 0));
    } else {
      ConcurrencyCap(c, worlds, actions, i - 1, n);
      assert |worlds[i].limits| <= n;
      CapStep(c, worlds[i - 1], actions[i - 1], n);
    }
  }

  lemma MulNat(a: nat, b: nat)
    ensures 0 <= a * b
  {
  }
}
