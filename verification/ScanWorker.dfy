/** The scan worker as code: every method's effect on the shared tables, however anybody else's
    transactions fall between its statements. */
module ScanWorker {
  import opened Basics
  import opened Kinds
  import opened ScanTypes
  import opened Tables
  import opened LedgerInvariant
  import opened ScanProtocol
  import opened ScanInvariant
  import opened ScanTheorems
  import opened ScanStepMeaning
  import opened Database
  import opened ScanWrites

  // ---- what happens to the tables while a worker runs ----

  /** Someone else's transactions, at the worker's turn-th wait, a clock reading of its own, or a change
      it commits. */
  datatype Step = Others(turn: nat, act: Db -> Db) | Tick | Own(after: Db)

  function Apply(db: Db, s: Step): Db {
    match s
    case Others(_, act) => act(db)
    case Tick => db.(clock := db.clock + 1)
    case Own(after) => after
  }

  function Replay(db: Db, steps: seq<Step>): Db {
    if steps == [] then db else Apply(Replay(db, steps[..|steps| - 1]), steps[|steps| - 1])
  }

  ghost predicate PoliteOn(act: Db -> Db, db: Db) {
    DbOk(db) ==> DbOk(act(db)) && Rely(db, act(db))
  }

  /** Others keep the tables valid and give a scan the guarantee every transaction gives. */
  ghost predicate Polite(act: Db -> Db) {
    forall db :: PoliteOn(act, db)
  }

  /** No change of its own after the first n steps. */
  predicate QuietFrom(steps: seq<Step>, n: nat) {
    n <= |steps| && forall i :: n <= i < |steps| ==> !steps[i].Own?
  }

  /** What is logged as somebody else's is theirs: what they do at that wait, each wait logged once and
      in order. */
  ghost predicate InTurn(steps: seq<Step>, others: nat -> (Db -> Db), turn: nat) {
    && (forall i :: 0 <= i < |steps| && steps[i].Others? ==> steps[i].turn < turn && steps[i].act == others(steps[i].turn))
    && (forall i, j :: 0 <= i < j < |steps| && steps[i].Others? && steps[j].Others? ==> steps[i].turn < steps[j].turn)
  }

  lemma InTurnAppend(steps: seq<Step>, others: nat -> (Db -> Db), turn: nat, s: Step)
    requires InTurn(steps, others, turn)
    requires s.Others? ==> s == Others(turn, others(turn))
    ensures InTurn(steps + [s], others, if s.Others? then turn + 1 else turn)
  {
  }

  lemma ReplayAppend(db: Db, steps: seq<Step>, s: Step)
    ensures Replay(db, steps + [s]) == Apply(Replay(db, steps), s)
  {
    assert (steps + [s])[..|steps|] == steps;
  }

  /** Somebody else's turn, logged. */
  lemma OthersTurn(origin: Db, steps: seq<Step>, others: nat -> (Db -> Db), turn: nat)
    requires InTurn(steps, others, turn) && DbOk(Replay(origin, steps)) && Polite(others(turn))
    ensures var after := others(turn)(Replay(origin, steps));
      && after == Replay(origin, steps + [Others(turn, others(turn))]) && DbOk(after) && Rely(Replay(origin, steps), after)
    ensures InTurn(steps + [Others(turn, others(turn))], others, turn + 1)
  {
    assert PoliteOn(others(turn), Replay(origin, steps));
    InTurnAppend(steps, others, turn, Others(turn, others(turn)));
    ReplayAppend(origin, steps, Others(turn, others(turn)));
  }

  // ---- soundness of a claim's working state, one statement at a time ----

  lemma ComparedSound(c: Config, db: Db, k: Claim, job: Job, attempt: nat)
    requires DbOk(db) && TaskSound(c, db, k, Ready(job, attempt)) && ClaimHolds(db, k)
    ensures var before := SnapshotOf(db.rows[k.rid]);
      TaskSound(c, db, k, Compared(job, attempt, before, SnapshotMatches(c, before, job.result)))
  {
    assert RowOk(db, k.rid, db.rows[k.rid]);
  }

  lemma TickKeeps(db: Db)
    requires DbOk(db)
    ensures DbOk(Apply(db, Tick)) && Rely(db, Apply(db, Tick))
  {
    ClockKeeps(db, Apply(db, Tick));
  }

  lemma WritingSound(c: Config, db: Db, k: Claim, job: Job, attempt: nat, before: Snapshot, allMatch: bool)
    requires DbOk(db) && TaskSound(c, db, k, Compared(job, attempt, before, allMatch))
    ensures TaskSound(c, Apply(db, Tick), k, Writing(job, attempt, before, allMatch, db.clock))
  {
    TickKeeps(db);
    TaskSurvives(c, db, Apply(db, Tick), k, Compared(job, attempt, before, allMatch));
    if ClaimHolds(db, k) {
      assert RowOk(db, k.rid, db.rows[k.rid]);
    }
  }

  lemma SentSound(c: Config, db: Db, k: Claim, job: Job, attempt: nat, before: Snapshot, allMatch: bool, now: nat)
    requires TaskSound(c, db, k, Writing(job, attempt, before, allMatch, now)) && ClaimHolds(db, k)
    ensures TaskSound(c, db, k, Locking(job, attempt, before, allMatch, now, |db.rows[k.rid].items|))
  {
  }

  /** Under the lock and unchanged, the decision made without it is the one the row asks for. */
  lemma LockedAgrees(c: Config, db: Db, k: Claim, t: Task)
    requires DbOk(db) && t.Locking? && TaskSound(c, db, k, t) && ClaimHolds(db, k)
    requires SameVersion(t.before, LockedSnapshot(db.rows[k.rid], t.counted))
    ensures Writable(db, k, t.now, t.job.result) && KindUsable(db, k, t.job.result)
    ensures db.rows[k.rid].images == t.job.images
    ensures AtomicWrite(c, db, k, t.now, t.job.result, t.job.taxonomy, t.counted)
         == WriteResult(db, k, t.now, t.job.result, t.job.taxonomy, t.allMatch, t.counted)
  {
    var row := db.rows[k.rid];
    assert t.allMatch == (row.reviewedAt.None? || RowMatches(c, row, t.job.result));
  }

  /** The write happened in one go on the row as it was, from exactly the images it had, at a time of
      its own; only the items were counted beforehand. */
  ghost predicate WroteAtomically(c: Config, at: Db, after: Db, k: Claim, job: Job, counted: nat) {
    && ClaimHolds(at, k) && KindUsable(at, k, job.result) && at.rows[k.rid].images == job.images
    && exists now :: Writable(at, k, now, job.result)
                     && AtomicWrite(c, at, k, now, job.result, job.taxonomy, counted) == Some(after)
  }

  /** The same write was refused: a category or tag it names is no longer allowed. */
  ghost predicate WriteRefused(c: Config, at: Db, k: Claim, job: Job, counted: nat) {
    && ClaimHolds(at, k) && KindUsable(at, k, job.result)
    && exists now :: AtomicWrite(c, at, k, now, job.result, job.taxonomy, counted) == None
  }

  /** The claim holds, and its receipt has this many items. */
  predicate Counts(db: Db, k: Claim, counted: nat) {
    ClaimHolds(db, k) && |db.rows[k.rid].items| == counted
  }

  /** The claim held throughout, but the receipt was edited, reviewed or given items. */
  ghost predicate Overtaken(a: Db, b: Db, k: Claim) {
    ClaimHolds(a, k) && ClaimHolds(b, k) && !SameVersion(SnapshotOf(a.rows[k.rid]), SnapshotOf(b.rows[k.rid]))
  }

  /** Between two moments from the n-th to the m-th step the claim held and the receipt changed. */
  ghost predicate OvertakenIn(origin: Db, steps: seq<Step>, n: nat, m: nat, k: Claim)
    requires m <= |steps|
  {
    exists i: nat, j: nat :: n <= i < j <= m && Overtaken(Replay(origin, steps[..i]), Replay(origin, steps[..j]), k)
  }

  /** Twice, one after the other. */
  ghost predicate OvertakenTwice(origin: Db, steps: seq<Step>, n: nat, k: Claim) {
    exists m: nat :: n <= m <= |steps| && OvertakenIn(origin, steps, n, m, k) && OvertakenIn(origin, steps, m, |steps|, k)
  }

  lemma OvertakenNow(origin: Db, steps: seq<Step>, n: nat, i: nat, k: Claim)
    requires n <= i < |steps| && Overtaken(Replay(origin, steps[..i]), Replay(origin, steps), k)
    ensures OvertakenIn(origin, steps, n, |steps|, k)
  {
    assert steps[..|steps|] == steps;
  }

  /** A version that does not match under the lock changed since it was read: the row until now, or the
      number of its items until they were counted. */
  lemma OvertakenRound(origin: Db, steps: seq<Step>, n: nat, read: nat, sent: nat, k: Claim, before: Snapshot, counted: nat)
    requires n <= read < sent < |steps| && ClaimHolds(After(origin, steps, read), k)
    requires before == SnapshotOf(After(origin, steps, read).rows[k.rid]) && Counts(After(origin, steps, sent), k, counted)
    requires ClaimHolds(Replay(origin, steps), k)
    requires !SameVersion(before, LockedSnapshot(Replay(origin, steps).rows[k.rid], counted))
    ensures OvertakenIn(origin, steps, n, |steps|, k)
  {
    if before.itemCount != counted {
      assert Overtaken(After(origin, steps, read), After(origin, steps, sent), k);
    } else {
      OvertakenNow(origin, steps, n, read, k);
    }
  }

  lemma OvertakenStays(origin: Db, steps: seq<Step>, more: seq<Step>, n: nat, m: nat, k: Claim)
    requires m <= |steps| && steps <= more && OvertakenIn(origin, steps, n, m, k)
    ensures OvertakenIn(origin, more, n, m, k)
  {
    var i: nat, j: nat :| n <= i < j <= m && Overtaken(Replay(origin, steps[..i]), Replay(origin, steps[..j]), k);
    assert more[..i] == steps[..i] && more[..j] == steps[..j];
  }

  lemma OvertakenTwiceStays(origin: Db, steps: seq<Step>, more: seq<Step>, n: nat, k: Claim)
    requires steps <= more && OvertakenTwice(origin, steps, n, k)
    ensures OvertakenTwice(origin, more, n, k)
  {
    var m: nat :| n <= m <= |steps| && OvertakenIn(origin, steps, n, m, k) && OvertakenIn(origin, steps, m, |steps|, k);
    OvertakenStays(origin, steps, more, n, m, k);
    OvertakenStays(origin, steps, more, m, |steps|, k);
    OvertakenLater(origin, more, m, |steps|, k);
  }

  lemma OvertakenLater(origin: Db, steps: seq<Step>, n: nat, m: nat, k: Claim)
    requires m <= |steps| && OvertakenIn(origin, steps, n, m, k)
    ensures OvertakenIn(origin, steps, n, |steps|, k)
  {
  }

  // ---- what others do is polite ----

  /** Every user transaction, committed or refused, is such an act. */
  lemma UsersArePolite(act: UserAction)
    ensures Polite(db => if UserDb(db, act).Some? then UserDb(db, act).value else db)
  {
    var f := db => if UserDb(db, act).Some? then UserDb(db, act).value else db;
    forall db ensures PoliteOn(f, db) {
      if DbOk(db) {
        if UserDb(db, act).Some? { UserKeepsDb(db, act); } else { RelyReflexive(db); }
      }
    }
  }

  /** So are the reclaims, failures and results of every other worker. */
  lemma WorkersArePolite(c: Config, now: nat, k: Claim, scanError: bool, terminal: bool)
    ensures Polite(db => ReclaimStuck(c, db, now)) && Polite(db => RecordFailure(c, db, k, scanError, terminal))
  {
    var reclaim, fail := db => ReclaimStuck(c, db, now), db => RecordFailure(c, db, k, scanError, terminal);
    forall db ensures PoliteOn(reclaim, db) {
      if DbOk(db) { ReclaimStuckKeeps(c, db, now); }
    }
    forall db ensures PoliteOn(fail, db) {
      if DbOk(db) { RecordFailureKeeps(c, db, k, scanError, terminal); }
    }
  }

  lemma WritesArePolite(c: Config, at: Db, after: Db, k: Claim, job: Job, counted: nat)
    requires WroteAtomically(c, at, after, k, job, counted)
    ensures DbOk(after) && Rely(at, after)
  {
    var now :| Writable(at, k, now, job.result) && AtomicWrite(c, at, k, now, job.result, job.taxonomy, counted) == Some(after);
    var row := at.rows[k.rid];
    WriteResultKeeps(at, k, now, job.result, job.taxonomy, row.reviewedAt.None? || RowMatches(c, row, job.result), counted);
  }

  /** So are their claims. */
  lemma ClaimsArePolite(tokens: map<nat, nat>, clock: nat)
    ensures Polite((db: Db) => if db.clock <= clock && (forall r :: r in tokens ==> db.clock <= tokens[r] < clock)
                         then TakeRows(db, tokens, clock) else db)
  {
    var f := (db: Db) => if db.clock <= clock && (forall r :: r in tokens ==> db.clock <= tokens[r] < clock)
                   then TakeRows(db, tokens, clock) else db;
    forall db ensures PoliteOn(f, db) {
      if DbOk(db) {
        if db.clock <= clock && forall r :: r in tokens ==> db.clock <= tokens[r] < clock {
          TakeRowsKeeps(db, tokens, clock);
        } else {
          RelyReflexive(db);
        }
      }
    }
  }

  // ---- how the processing of a claim ends ----

  datatype Applied = Written | Stale | ItemRefused | KeptChanging

  /** What the provider did with the images. */
  datatype Provided = Gave(result: ScanResult) | RaisedScanError | RaisedOther

  /** How a scan can fail: nothing to scan, the provider's fault, or the infrastructure's. */
  datatype Failure = NoImages | ScanFault | Infrastructure

  datatype Verdict = Fail(failure: Failure) | Proceed(images: seq<string>, result: ScanResult)

  /** The tables after the first i steps. */
  function After(origin: Db, steps: seq<Step>, i: nat): Db
    requires i <= |steps|
  {
    Replay(origin, steps[..i])
  }

  lemma AfterStays(origin: Db, steps: seq<Step>, more: seq<Step>, i: nat)
    requires i <= |steps| && steps <= more
    ensures After(origin, more, i) == After(origin, steps, i)
  {
    assert more[..i] == steps[..i];
  }

  lemma AfterAll(origin: Db, steps: seq<Step>)
    ensures After(origin, steps, |steps|) == Replay(origin, steps)
  {
    assert steps[..|steps|] == steps;
  }

  function ImagesOf(db: Db, rid: nat): seq<string> {
    if rid in db.rows then db.rows[rid].images else []
  }

  /** The kind the provider is told: that of a row reviewed when the claim was first read. */
  function KnownOf(db: Db, k: Claim): Option<Kind>
    requires ClaimHolds(db, k)
  {
    if db.rows[k.rid].reviewedAt.Some? then Some(db.rows[k.rid].rec.kind) else None
  }

  /** What the images then stored, the fetch and the provider make of the scan. */
  function VerdictOn(db: Db, k: Claim, known: Option<Kind>, fetchFails: bool, provided: Provided): Verdict {
    var images := ImagesOf(db, k.rid);
    if images == [] then Fail(NoImages)
    else if fetchFails || provided == RaisedOther then Fail(Infrastructure)
    else if provided == RaisedScanError || ValidateResult(provided.result, known.Some?).None? then Fail(ScanFault)
    else Proceed(images, ValidateResult(provided.result, known.Some?).value)
  }

  /** The provider is told the kind of a reviewed receipt, and no other. */
  lemma KnownMeaning(db: Db, k: Claim)
    requires ClaimHolds(db, k)
    ensures KnownOf(db, k) ==
            match db.rows[k.rid].reviewedAt
            case Some(_) => Some(db.rows[k.rid].rec.kind)
            case None => None
  {
  }

  /** Which failure it is, and when there is none, in the circumstances themselves. */
  lemma VerdictMeaning(db: Db, k: Claim, known: Option<Kind>, fetchFails: bool, provided: Provided)
    ensures var hasImages := k.rid in db.rows && db.rows[k.rid].images != [];
      var verdict := VerdictOn(db, k, known, fetchFails, provided);
      && (verdict == Fail(NoImages) <==> !hasImages)
      && (verdict == Fail(Infrastructure) <==> hasImages && (fetchFails || provided.RaisedOther?))
      && (verdict == Fail(ScanFault) <==>
            hasImages && !fetchFails
            && (provided.RaisedScanError? || (provided.Gave? && ValidateResult(provided.result, known.Some?) == None)))
      && (verdict.Proceed? <==>
            hasImages && !fetchFails && provided.Gave? && ValidateResult(provided.result, known.Some?).Some?)
      && (verdict.Proceed? ==>
            verdict.images == db.rows[k.rid].images && ValidateResult(provided.result, known.Some?) == Some(verdict.result))
  {
  }

  /** What was written is the scan, field by field, on the row as it was. */
  lemma WroteMeaning(c: Config, at: Db, after: Db, k: Claim, job: Job, counted: nat)
    requires WroteAtomically(c, at, after, k, job, counted)
    ensures k.rid in after.rows
    ensures exists now ::
      if at.rows[k.rid].reviewedAt.None? then Extracted(at.rows[k.rid], after.rows[k.rid], job.result, now, at.nextItem)
      else Verified(at.rows[k.rid], after.rows[k.rid], job.result, now, Agrees(c, at.rows[k.rid], job.result), counted, at.nextItem)
  {
    var now :| Writable(at, k, now, job.result) && AtomicWrite(c, at, k, now, job.result, job.taxonomy, counted) == Some(after);
    var row := at.rows[k.rid];
    var allMatch := row.reviewedAt.None? || RowMatches(c, row, job.result);
    if row.reviewedAt.None? {
      ExtractionMeaning(at, k, now, job.result, job.taxonomy, allMatch, counted);
    } else {
      AgreesMeaning(c, row, job.result);
      VerificationMeaning(at, k, now, job.result, job.taxonomy, allMatch, counted);
    }
  }

  /** At some moment after the first i steps the claim no longer held. */
  ghost predicate StaleSince(origin: Db, steps: seq<Step>, i: nat, k: Claim) {
    exists j: nat :: i < j <= |steps| && !ClaimHolds(After(origin, steps, j), k)
  }

  /** After the first i steps the items were counted, and then the write of this job was refused. */
  ghost predicate RefusedSince(c: Config, origin: Db, steps: seq<Step>, i: nat, k: Claim, job: Job) {
    exists j: nat, sent: nat, counted ::
      i < sent < j <= |steps| && Counts(After(origin, steps, sent), k, counted)
      && WriteRefused(c, After(origin, steps, j), k, job, counted)
  }

  /** A job made after the first i steps is written, or finds its claim stale, or fails because the write
      was refused or the receipt changed under it twice. */
  ghost predicate Resolves(c: Config, origin: Db, steps: seq<Step>, i: nat, k: Claim, job: Job,
                           failure: Option<Failure>, wrote: Option<Job>)
  {
    || (failure == None && wrote == Some(job))
    || (failure == None && wrote == None && StaleSince(origin, steps, i, k))
    || (failure == Some(Infrastructure) && wrote == None
        && (RefusedSince(c, origin, steps, i, k, job) || OvertakenTwice(origin, steps, i, k)))
  }

  lemma RefusedWiden(c: Config, origin: Db, steps: seq<Step>, n: nat, m: nat, k: Claim, job: Job)
    requires n <= m && RefusedSince(c, origin, steps, m, k, job)
    ensures RefusedSince(c, origin, steps, n, k, job)
  {
    var j: nat, sent: nat, counted :|
      m < sent < j <= |steps| && Counts(After(origin, steps, sent), k, counted)
      && WriteRefused(c, After(origin, steps, j), k, job, counted);
    assert n < sent < j <= |steps|;
  }

  /** How a claim taken up after the first n steps ends: with nothing if the first reading finds it
      stale; otherwise with the failure, or the job, that the second reading's images, the fetch, the
      provider and, for the lists, the fourth reading call for. */
  ghost predicate Ends(c: Config, origin: Db, steps: seq<Step>, n: nat, k: Claim, fetchFails: bool, provided: Provided,
                       failure: Option<Failure>, wrote: Option<Job>)
  {
    && n + 1 <= |steps|
    && var first := After(origin, steps, n + 1);
       if !ClaimHolds(first, k) then failure == None && wrote == None
       else
         && n + 2 <= |steps|
         && match VerdictOn(After(origin, steps, n + 2), k, KnownOf(first, k), fetchFails, provided)
            case Fail(f) => failure == Some(f) && wrote == None
            case Proceed(images, result) =>
              && n + 4 <= |steps|
              && var lists := LoadTaxonomy(After(origin, steps, n + 4), k.user);
                 Resolves(c, origin, steps, n + 4, k, Job(images, result, lists), failure, wrote)
  }

  /** The ending, put together from a first reading that held and the verdict on the second. */
  lemma EndsIn(c: Config, origin: Db, first: seq<Step>, steps: seq<Step>, k: Claim, fetchFails: bool, provided: Provided,
               verdict: Verdict, failure: Option<Failure>, wrote: Option<Job>)
    requires |first| >= 1 && first < steps && ClaimHolds(Replay(origin, first), k)
    requires verdict == VerdictOn(After(origin, steps, |first| + 1), k, KnownOf(Replay(origin, first), k), fetchFails, provided)
    requires verdict.Fail? ==> failure == Some(verdict.failure) && wrote == None
    requires verdict.Proceed? ==>
      && |first| + 3 <= |steps|
      && var lists := LoadTaxonomy(After(origin, steps, |first| + 3), k.user);
         Resolves(c, origin, steps, |first| + 3, k, Job(verdict.images, verdict.result, lists), failure, wrote)
    ensures Ends(c, origin, steps, |first| - 1, k, fetchFails, provided, failure, wrote)
  {
    AfterAll(origin, first);
    AfterStays(origin, first, steps, |first|);
  }

  lemma ResolvesStays(c: Config, origin: Db, steps: seq<Step>, more: seq<Step>, i: nat, k: Claim, job: Job,
                      failure: Option<Failure>, wrote: Option<Job>)
    requires steps <= more && Resolves(c, origin, steps, i, k, job, failure, wrote)
    ensures Resolves(c, origin, more, i, k, job, failure, wrote)
  {
    if failure == None && wrote == None {
      var j: nat :| i < j <= |steps| && !ClaimHolds(After(origin, steps, j), k);
      AfterStays(origin, steps, more, j);
    } else if failure == Some(Infrastructure) {
      if RefusedSince(c, origin, steps, i, k, job) {
        var j: nat, sent: nat, counted :|
          i < sent < j <= |steps| && Counts(After(origin, steps, sent), k, counted)
          && WriteRefused(c, After(origin, steps, j), k, job, counted);
        AfterStays(origin, steps, more, j);
        AfterStays(origin, steps, more, sent);
      } else {
        OvertakenTwiceStays(origin, steps, more, i, k);
      }
    }
  }

  /** How it ended is not changed by what happens later. */
  lemma EndsStays(c: Config, origin: Db, steps: seq<Step>, more: seq<Step>, n: nat, k: Claim, fetchFails: bool, provided: Provided,
                  failure: Option<Failure>, wrote: Option<Job>)
    requires steps <= more && Ends(c, origin, steps, n, k, fetchFails, provided, failure, wrote)
    ensures Ends(c, origin, more, n, k, fetchFails, provided, failure, wrote)
  {
    AfterStays(origin, steps, more, n + 1);
    var first := After(origin, steps, n + 1);
    if ClaimHolds(first, k) {
      AfterStays(origin, steps, more, n + 2);
      var verdict := VerdictOn(After(origin, steps, n + 2), k, KnownOf(first, k), fetchFails, provided);
      if verdict.Proceed? {
        AfterStays(origin, steps, more, n + 4);
        var job := Job(verdict.images, verdict.result, LoadTaxonomy(After(origin, steps, n + 4), k.user));
        ResolvesStays(c, origin, steps, more, n + 4, k, job, failure, wrote);
      }
    }
  }

  lemma ScannedSound(c: Config, db: Db, k: Claim, known: Option<Kind>, images: seq<string>, result: ScanResult)
    requires TaskSound(c, db, k, Fetched(known, images)) && ValidateResult(result, known.Some?).Some?
    ensures TaskSound(c, db, k, Scanned(images, ValidateResult(result, known.Some?).value))
  {
  }

  class Worker {
    const c: Config
    const pg: Postgres
    /** What the rest of the world does at each point where this worker waits. */
    const others: nat -> (Db -> Db)
    var turn: nat
    /** Notices attempted, in order. */
    var notices: seq<Notice>
    ghost const origin: Db
    ghost var steps: seq<Step>

    ghost predicate Valid()
      reads this, pg
    {
      && pg.db == Replay(origin, steps) && DbOk(pg.db)
      && InTurn(steps, others, turn)
      && forall n: nat :: Polite(others(n))
    }

    constructor (c: Config, pg: Postgres, others: nat -> (Db -> Db))
      requires DbOk(pg.db) && forall n: nat :: Polite(others(n))
      ensures Valid() && this.c == c && this.pg == pg && steps == [] && notices == []
    {
      this.c := c;
      this.pg := pg;
      this.others := others;
      turn := 0;
      notices := [];
      origin := pg.db;
      steps := [];
    }

    /** A co_await: others run. */
    method Await()
      requires Valid()
      modifies this`turn, this`steps, pg
      ensures Valid() && Rely(old(pg.db), pg.db)
      ensures steps == old(steps) + [Others(old(turn), others(old(turn)))] && turn == old(turn) + 1
    {
      OthersTurn(origin, steps, others, turn);
      steps := steps + [Others(turn, others(turn))];
      pg.db := others(turn)(pg.db);
      turn := turn + 1;
    }

    /** Commits a change of its own. */
    method Commit(after: Db)
      requires Valid() && DbOk(after)
      modifies this`steps, pg
      ensures Valid() && pg.db == after && steps == old(steps) + [Own(after)]
    {
      InTurnAppend(steps, others, turn, Own(after));
      ReplayAppend(origin, steps, Own(after));
      steps := steps + [Own(after)];
      pg.db := after;
    }

    /** Others run while a claim is at task t; what is known of it survives them. */
    method AwaitAt(ghost n: nat, k: Claim, ghost t: Task)
      requires Valid() && QuietFrom(steps, n) && TaskSound(c, pg.db, k, t)
      modifies this`turn, this`steps, pg
      ensures Valid() && old(steps) < steps && |steps| == |old(steps)| + 1
      ensures QuietFrom(steps, n) && TaskSound(c, pg.db, k, t)
    {
      ghost var was := pg.db;
      Await();
      TaskSurvives(c, was, pg.db, k, t);
    }

    /** Begins a transaction: its now() is a reading of its own. */
    method BeginWrite(ghost n: nat, k: Claim, ghost job: Job, ghost attempt: nat, ghost before: Snapshot, ghost allMatch: bool)
      returns (now: nat)
      requires Valid() && QuietFrom(steps, n) && TaskSound(c, pg.db, k, Compared(job, attempt, before, allMatch))
      modifies this`steps, pg
      ensures Valid() && old(steps) < steps && QuietFrom(steps, n)
      ensures TaskSound(c, pg.db, k, Writing(job, attempt, before, allMatch, now))
    {
      WritingSound(c, pg.db, k, job, attempt, before, allMatch);
      TickKeeps(pg.db);
      InTurnAppend(steps, others, turn, Tick);
      ReplayAppend(origin, steps, Tick);
      steps := steps + [Tick];
      now := pg.db.clock;
      pg.db := pg.db.(clock := now + 1);
    }

    /** Either write on the locked row, or nothing. */
    method WriteOne(k: Claim, now: nat, job: Job, locked: Snapshot, allMatch: bool) returns (ok: bool)
      requires k.rid in pg.db.rows && locked == LockedSnapshot(pg.db.rows[k.rid], locked.itemCount)
      requires KindUsable(pg.db, k, job.result)
      modifies pg
      ensures ok == WriteResult(old(pg.db), k, now, job.result, job.taxonomy, allMatch, locked.itemCount).Some?
      ensures pg.db == ItemService.Outcome(old(pg.db), WriteResult(old(pg.db), k, now, job.result, job.taxonomy, allMatch, locked.itemCount))
    {
      var saved := pg.db;
      if locked.reviewed {
        ok := WriteVerify(pg, k, now, job.result, job.taxonomy, locked, allMatch);
      } else {
        ok := WriteExtraction(pg, k, now, job.result, job.taxonomy, locked, allMatch);
      }
      if !ok {
        pg.db := saved;
      }
    }

    /** Logs a change just committed. */
    method Log(ghost before: Db)
      requires before == Replay(origin, steps) && DbOk(pg.db) && InTurn(steps, others, turn)
      requires forall n: nat :: Polite(others(n))
      modifies this`steps
      ensures Valid() && steps == old(steps) + [Own(pg.db)]
    {
      InTurnAppend(steps, others, turn, Own(pg.db));
      ReplayAppend(origin, steps, Own(pg.db));
      steps := steps + [Own(pg.db)];
    }

    /** The write transaction from the row's lock on: commits, or leaves the tables alone. */
    method WriteLocked(k: Claim, now: nat, job: Job, ghost attempt: nat, before: Snapshot, allMatch: bool, counted: nat)
      returns (outcome: Option<Applied>)
      requires Valid() && TaskSound(c, pg.db, k, Locking(job, attempt, before, allMatch, now, counted))
      modifies this`steps, pg
      ensures Valid()
      ensures outcome == Some(Written) ==>
        steps == old(steps) + [Own(pg.db)] && WroteAtomically(c, old(pg.db), pg.db, k, job, counted)
      ensures outcome != Some(Written) ==> steps == old(steps) && pg.db == old(pg.db)
      ensures outcome == Some(Stale) ==> !ClaimHolds(pg.db, k)
      ensures outcome == Some(ItemRefused) ==> WriteRefused(c, pg.db, k, job, counted)
      ensures outcome == None ==> ClaimHolds(pg.db, k) && !SameVersion(before, LockedSnapshot(pg.db.rows[k.rid], counted))
      ensures outcome != Some(KeptChanging)
    {
      var locked := ReadLocked(pg.db, k, counted);
      if locked.None? {
        return Some(Stale);
      }
      if !SameVersion(before, locked.value) {
        return None;
      }
      ghost var saved := pg.db;
      LockedAgrees(c, saved, k, Locking(job, attempt, before, allMatch, now, counted));
      var ok := WriteOne(k, now, job, locked.value, allMatch);
      if !ok {
        assert AtomicWrite(c, saved, k, now, job.result, job.taxonomy, counted) == None;
        return Some(ItemRefused);
      }
      WriteResultKeeps(saved, k, now, job.result, job.taxonomy, allMatch, counted);
      assert AtomicWrite(c, saved, k, now, job.result, job.taxonomy, counted) == Some(pg.db);
      Log(saved);
      outcome := Some(Written);
    }

    /** Reads the row, after the first `read` steps, and compares, without a lock; None if the claim is stale. */
    method Compare(ghost n: nat, k: Claim, job: Job, ghost attempt: nat)
      returns (compared: Option<(Snapshot, bool)>, ghost read: nat)
      requires Valid() && QuietFrom(steps, n) && TaskSound(c, pg.db, k, Ready(job, attempt))
      modifies this`turn, this`steps, pg
      ensures Valid() && old(steps) < steps && QuietFrom(steps, n) && read == |steps| && After(origin, steps, read) == pg.db
      ensures compared.None? <==> !ClaimHolds(pg.db, k)
      ensures compared.Some? ==>
        && compared.value.0 == SnapshotOf(pg.db.rows[k.rid])
        && TaskSound(c, pg.db, k, Compared(job, attempt, compared.value.0, compared.value.1))
    {
      AwaitAt(n, k, Ready(job, attempt));
      read := |steps|;
      assert steps[..read] == steps;
      var before := ReadSnapshot(pg.db, k);
      if before.None? {
        return None, read;
      }
      ComparedSound(c, pg.db, k, job, attempt);
      var allMatch := CompareWith(c, before.value, job.result);
      compared := Some((before.value, allMatch));
    }

    /** Begins the write transaction, sends the locking read, which counts the items after the first
        `sent` steps, and waits for the row's lock; None if the claim is stale. */
    method Lock(ghost n: nat, k: Claim, ghost job: Job, ghost attempt: nat, ghost before: Snapshot, ghost allMatch: bool)
      returns (locked: Option<(nat, nat)>, ghost sent: nat)
      requires Valid() && QuietFrom(steps, n) && TaskSound(c, pg.db, k, Compared(job, attempt, before, allMatch))
      modifies this`turn, this`steps, pg
      ensures Valid() && old(steps) < steps && QuietFrom(steps, n)
      ensures locked.None? ==> !ClaimHolds(pg.db, k)
      ensures locked.Some? ==>
        && TaskSound(c, pg.db, k, Locking(job, attempt, before, allMatch, locked.value.0, locked.value.1))
        && |old(steps)| < sent < |steps| && Counts(After(origin, steps, sent), k, locked.value.1)
    {
      AwaitAt(n, k, Compared(job, attempt, before, allMatch));
      var now := BeginWrite(n, k, job, attempt, before, allMatch);
      AwaitAt(n, k, Writing(job, attempt, before, allMatch, now));
      sent := |steps|;
      if !ClaimHolds(pg.db, k) {
        return None, sent;
      }
      var counted := CountAndWait(n, k, job, attempt, before, allMatch, now);
      locked := Some((now, counted));
    }

    /** The locking read: counts the items at once, and waits for the row. */
    method CountAndWait(ghost n: nat, k: Claim, ghost job: Job, ghost attempt: nat, ghost before: Snapshot, ghost allMatch: bool,
                        ghost now: nat)
      returns (counted: nat)
      requires Valid() && QuietFrom(steps, n) && TaskSound(c, pg.db, k, Writing(job, attempt, before, allMatch, now))
      requires ClaimHolds(pg.db, k)
      modifies this`turn, this`steps, pg
      ensures Valid() && old(steps) < steps && QuietFrom(steps, n)
      ensures TaskSound(c, pg.db, k, Locking(job, attempt, before, allMatch, now, counted))
      ensures Counts(After(origin, steps, |old(steps)|), k, counted)
    {
      counted := |pg.db.rows[k.rid].items|;
      SentSound(c, pg.db, k, job, attempt, before, allMatch, now);
      ghost var seen := steps;
      AfterAll(origin, seen);
      AwaitAt(n, k, Locking(job, attempt, before, allMatch, now, counted));
      AfterStays(origin, seen, steps, |seen|);
    }

    /** A round of the optimistic write up to the lock: the snapshot was taken after the first `read`
        steps and the items counted again after the first `sent`. */
    ghost predicate Prepared(n: nat, k: Claim, job: Job, attempt: nat, before: Snapshot, allMatch: bool, now: nat, counted: nat,
                             read: nat, sent: nat)
      reads this, pg
    {
      && TaskSound(c, pg.db, k, Locking(job, attempt, before, allMatch, now, counted))
      && n < read < sent < |steps| && ClaimHolds(After(origin, steps, read), k)
      && before == SnapshotOf(After(origin, steps, read).rows[k.rid])
      && Counts(After(origin, steps, sent), k, counted)
    }

    /** Up to the lock; None if the claim is stale. */
    method Prepare(ghost n: nat, k: Claim, job: Job, ghost attempt: nat)
      returns (prepared: Option<(Snapshot, bool, nat, nat)>, ghost read: nat, ghost sent: nat)
      requires Valid() && QuietFrom(steps, n) && TaskSound(c, pg.db, k, Ready(job, attempt))
      modifies this`turn, this`steps, pg
      ensures Valid() && old(steps) < steps && QuietFrom(steps, n)
      ensures prepared.None? ==> !ClaimHolds(pg.db, k)
      ensures prepared.Some? ==> Prepared(|old(steps)|, k, job, attempt, prepared.value.0, prepared.value.1,
                                          prepared.value.2, prepared.value.3, read, sent)
    {
      var compared;
      compared, read := Compare(n, k, job, attempt);
      if compared.None? {
        return None, read, read;
      }
      ghost var seen := steps;
      var locked;
      locked, sent := Lock(n, k, job, attempt, compared.value.0, compared.value.1);
      if locked.None? {
        return None, read, sent;
      }
      AfterStays(origin, seen, steps, read);
      prepared := Some((compared.value.0, compared.value.1, locked.value.0, locked.value.1));
    }

    /** From the first n steps on, no change of its own but the last, which wrote this job with the items
        counted in between. */
    ghost predicate WroteLast(n: nat, k: Claim, job: Job)
      reads this, pg
    {
      && |steps| > n && QuietFrom(steps[..|steps| - 1], n) && steps[|steps| - 1] == Own(pg.db)
      && exists sent: nat, counted ::
           n < sent < |steps| && Counts(After(origin, steps, sent), k, counted)
           && WroteAtomically(c, After(origin, steps, |steps| - 1), pg.db, k, job, counted)
    }

    /** One round of the optimistic write; None means the row changed in between. */
    method TryWrite(ghost n: nat, k: Claim, job: Job, ghost attempt: nat) returns (outcome: Option<Applied>)
      requires Valid() && QuietFrom(steps, n) && TaskSound(c, pg.db, k, Ready(job, attempt))
      modifies this`turn, this`steps, pg
      ensures Valid() && old(steps) < steps
      ensures outcome != Some(Written) ==> QuietFrom(steps, n)
      ensures outcome == Some(Written) ==> WroteLast(n, k, job)
      ensures outcome == Some(Stale) ==> !ClaimHolds(pg.db, k)
      ensures outcome == Some(ItemRefused) ==> RefusedSince(c, origin, steps, |old(steps)|, k, job)
      ensures outcome == None ==> TaskSound(c, pg.db, k, Ready(job, attempt)) && OvertakenIn(origin, steps, |old(steps)|, |steps|, k)
      ensures outcome != Some(KeptChanging)
    {
      var prepared, read, sent := Prepare(n, k, job, attempt);
      if prepared.None? {
        return Some(Stale);
      }
      var (before, allMatch, now, counted) := prepared.value;
      ghost var quiet := steps;
      outcome := WriteLocked(k, now, job, attempt, before, allMatch, counted);
      AfterStays(origin, quiet, steps, sent);
      AfterAll(origin, quiet);
      if outcome == Some(Written) {
        assert steps[..|steps| - 1] == quiet;
      } else if outcome == None {
        OvertakenRound(origin, steps, |old(steps)|, read, sent, k, before, counted);
      }
    }

    /** applyResult with the lists loaded: two rounds, then an exception. */
    method WriteTwice(ghost n: nat, k: Claim, job: Job) returns (outcome: Applied)
      requires Valid() && QuietFrom(steps, n) && TaskSound(c, pg.db, k, Ready(job, 0))
      modifies this`turn, this`steps, pg
      ensures Valid() && old(steps) < steps
      ensures outcome != Written ==> QuietFrom(steps, n)
      ensures outcome == Written ==> WroteLast(n, k, job)
      ensures outcome == Stale ==> !ClaimHolds(pg.db, k)
      ensures outcome == ItemRefused ==> RefusedSince(c, origin, steps, |old(steps)|, k, job)
      ensures outcome == KeptChanging ==> OvertakenTwice(origin, steps, |old(steps)|, k)
    {
      var attempt := 0;
      ghost var seen := steps;
      while attempt < 2
        invariant 0 <= attempt <= 2
        invariant Valid() && QuietFrom(steps, n) && seen <= steps && (attempt > 0 ==> seen < steps)
        invariant attempt < 2 ==> TaskSound(c, pg.db, k, Ready(job, attempt))
        invariant attempt == 1 ==> OvertakenIn(origin, steps, |seen|, |steps|, k)
        invariant attempt == 2 ==> OvertakenTwice(origin, steps, |seen|, k)
      {
        ghost var sofar := steps;
        var round := TryWrite(n, k, job, attempt);
        if round.Some? {
          if round == Some(ItemRefused) { RefusedWiden(c, origin, steps, |seen|, |sofar|, k, job); }
          return round.value;
        }
        if attempt == 1 { OvertakenStays(origin, sofar, steps, |seen|, |sofar|, k); }
        attempt := attempt + 1;
      }
      outcome := KeptChanging;
    }

    /** Loads the user's lists. */
    method LoadLists(ghost n: nat, k: Claim, images: seq<string>, result: ScanResult) returns (job: Job)
      requires Valid() && QuietFrom(steps, n) && TaskSound(c, pg.db, k, Scanned(images, result))
      modifies this`turn, this`steps, pg
      ensures Valid() && old(steps) < steps && |steps| == |old(steps)| + 1 && QuietFrom(steps, n)
      ensures TaskSound(c, pg.db, k, Ready(job, 0))
      ensures job == Job(images, result, LoadTaxonomy(pg.db, k.user))
    {
      AwaitAt(n, k, Scanned(images, result));
      job := Job(images, result, LoadTaxonomy(pg.db, k.user));
    }

    /** applyResult: the lists are read once, one step on, and the job is resolved after that. */
    method ApplyResult(ghost n: nat, k: Claim, images: seq<string>, result: ScanResult)
      returns (outcome: Applied, ghost job: Job)
      requires Valid() && QuietFrom(steps, n) && TaskSound(c, pg.db, k, Scanned(images, result))
      modifies this`turn, this`steps, pg
      ensures Valid() && old(steps) < steps && |steps| > |old(steps)| + 1
      ensures job == Job(images, result, LoadTaxonomy(After(origin, steps, |old(steps)| + 1), k.user))
      ensures outcome != Written ==> QuietFrom(steps, n)
      ensures outcome == Written ==> WroteLast(n, k, job)
      ensures outcome == Stale ==> !ClaimHolds(pg.db, k)
      ensures outcome == ItemRefused ==> RefusedSince(c, origin, steps, |old(steps)| + 1, k, job)
      ensures outcome == KeptChanging ==> OvertakenTwice(origin, steps, |old(steps)| + 1, k)
    {
      var work := LoadLists(n, k, images, result);
      job := work;
      ghost var seen := steps;
      AfterAll(origin, seen);
      outcome := WriteTwice(n, k, work);
      AfterStays(origin, seen, steps, |seen|);
    }

    // ---- processing a claim ----

    /** The scan itself, up to the validated result; what it throws is a value here. `known` is the kind
        the provider is told, if the row was reviewed. */
    method Scan(ghost n: nat, k: Claim, known: Option<Kind>, fetchFails: bool, provided: Provided) returns (verdict: Verdict)
      requires Valid() && QuietFrom(steps, n) && TaskSound(c, pg.db, k, Snapped(known))
      modifies this`turn, this`steps, pg
      ensures Valid() && old(steps) < steps && QuietFrom(steps, n)
      ensures verdict == VerdictOn(After(origin, steps, |old(steps)| + 1), k, known, fetchFails, provided)
      ensures verdict.Proceed? ==>
        |steps| == |old(steps)| + 2 && TaskSound(c, pg.db, k, Scanned(verdict.images, verdict.result))
    {
      AwaitAt(n, k, Snapped(known));
      ghost var seen := steps;
      AfterAll(origin, seen);
      var images := if k.rid in pg.db.rows then pg.db.rows[k.rid].images else [];
      if images == [] {
        return Fail(NoImages);
      }
      assert TaskSound(c, pg.db, k, Fetched(known, images));
      AwaitAt(n, k, Fetched(known, images));
      AfterStays(origin, seen, steps, |seen|);
      if fetchFails || provided == RaisedOther {
        return Fail(Infrastructure);
      }
      if provided == RaisedScanError {
        return Fail(ScanFault);
      }
      var valid := ValidateResult(provided.result, known.Some?);
      if valid.None? {
        return Fail(ScanFault);
      }
      ScannedSound(c, pg.db, k, known, images, provided.result);
      verdict := Proceed(images, valid.value);
    }

    /** recordFailure: the guarded UPDATE, and a notice if it gave the receipt up. */
    method RecordFailure(k: Claim, scanError: bool, terminal: bool)
      requires Valid()
      modifies this`steps, this`notices, pg
      ensures Valid()
      ensures pg.db == Tables.RecordFailure(c, old(pg.db), k, scanError, terminal)
      ensures !ClaimHolds(old(pg.db), k) ==> steps == old(steps) && notices == old(notices)
      ensures ClaimHolds(old(pg.db), k) ==>
        && steps == old(steps) + [Own(pg.db)] && k.rid in pg.db.rows
        && notices == old(notices) + if pg.db.rows[k.rid].lane.state == ScanFailed then [Notice(k.rid, k.token)] else []
    {
      RecordFailureKeeps(c, pg.db, k, scanError, terminal);
      if !ClaimHolds(pg.db, k) {
        return;
      }
      var failed := Spend(pg.db.rows[k.rid], scanError, terminal);
      Commit(pg.db.(rows := pg.db.rows[k.rid := failed]));
      if failed.lane.state == ScanFailed {
        notices := notices + [Notice(k.rid, k.token)];
      }
    }

    /** One unit of the matching budget. */
    method Spend(row: Row, scanError: bool, terminal: bool) returns (failed: Row)
      ensures failed == FailRow(c, row, scanError, terminal)
    {
      var cap := if terminal then 0 else if scanError then c.maxScanAttempts else c.maxReclaims;
      var lane := row.lane.(startedAt := None);
      if scanError {
        lane := lane.(attempts := lane.attempts + 1, state := if lane.attempts + 1 >= cap then ScanFailed else Uploaded);
      } else {
        lane := lane.(reclaims := lane.reclaims + 1, state := if lane.reclaims + 1 >= cap then ScanFailed else Uploaded);
      }
      failed := row.(lane := lane);
    }

    /** From the first n steps on, no change of its own but the last, which recorded this failure. */
    ghost predicate RecordedLast(n: nat, k: Claim, failure: Failure)
      reads this, pg
    {
      && |steps| > n && QuietFrom(steps[..|steps| - 1], n) && steps[|steps| - 1] == Own(pg.db)
      && ClaimHolds(After(origin, steps, |steps| - 1), k)
      && pg.db == Tables.RecordFailure(c, After(origin, steps, |steps| - 1), k, failure != Infrastructure, failure == NoImages)
    }

    /** What the failure cost: no images, the receipt; the provider's fault, an attempt; the
        infrastructure's, a reclaim. */
    lemma RecordedMeaning(n: nat, k: Claim, failure: Failure)
      requires RecordedLast(n, k, failure)
      ensures k.rid in pg.db.rows && k.rid in After(origin, steps, |steps| - 1).rows
      ensures var lane, lane' := After(origin, steps, |steps| - 1).rows[k.rid].lane, pg.db.rows[k.rid].lane;
        && lane'.startedAt == None && lane'.state in {Uploaded, ScanFailed}
        && match failure
           case NoImages => lane'.state == ScanFailed && lane'.attempts == lane.attempts + 1 && lane'.reclaims == lane.reclaims
           case ScanFault =>
             && lane'.attempts == lane.attempts + 1 && lane'.reclaims == lane.reclaims
             && (lane'.state == ScanFailed <==> lane'.attempts >= c.maxScanAttempts)
           case Infrastructure =>
             && lane'.attempts == lane.attempts && lane'.reclaims == lane.reclaims + 1
             && (lane'.state == ScanFailed <==> lane'.reclaims >= c.maxReclaims)
    {
      FailureMeaning(c, After(origin, steps, |steps| - 1), k, failure != Infrastructure, failure == NoImages);
    }

    /** The failure goes on the receipt's budget if the claim still holds, unless recording it fails too. */
    ghost predicate Settled(n: nat, k: Claim, failure: Failure, recordFails: bool, before: seq<Notice>)
      reads this, pg
    {
      if RecordedLast(n, k, failure) then
        && !recordFails && k.rid in pg.db.rows
        && notices == before + if pg.db.rows[k.rid].lane.state == ScanFailed then [Notice(k.rid, k.token)] else []
      else
        QuietFrom(steps, n) && notices == before && (recordFails || !ClaimHolds(pg.db, k))
    }

    /** The end of process. */
    method Settle(ghost n: nat, k: Claim, failure: Failure, recordFails: bool)
      requires Valid() && QuietFrom(steps, n)
      modifies this`turn, this`steps, this`notices, pg
      ensures Valid() && old(steps) < steps && Settled(n, k, failure, recordFails, old(notices))
    {
      Await();
      if recordFails {
        return;
      }
      ghost var quiet := steps;
      RecordFailure(k, failure != Infrastructure, failure == NoImages);
      if steps != quiet { assert steps[..|steps| - 1] == quiet; }
    }

    /** The rest of the try block, once the claim has been read and held. */
    method ScanAndApply(ghost n: nat, k: Claim, known: Option<Kind>, fetchFails: bool, provided: Provided)
      returns (failure: Option<Failure>, ghost wrote: Option<Job>)
      requires Valid() && QuietFrom(steps, n) && |steps| == n + 1 && TaskSound(c, pg.db, k, Snapped(known))
      requires ClaimHolds(pg.db, k) && known == KnownOf(pg.db, k)
      modifies this`turn, this`steps, pg
      ensures Valid() && old(steps) < steps
      ensures Ends(c, origin, steps, n, k, fetchFails, provided, failure, wrote)
      ensures wrote.None? ==> QuietFrom(steps, n)
      ensures wrote.Some? ==> WroteLast(n, k, wrote.value)
      ensures failure == None && wrote == None ==> !ClaimHolds(pg.db, k)
    {
      ghost var first := steps;
      var verdict := Scan(n, k, known, fetchFails, provided);
      if verdict.Fail? {
        EndsIn(c, origin, first, steps, k, fetchFails, provided, verdict, Some(verdict.failure), None);
        return Some(verdict.failure), None;
      }
      ghost var second := steps;
      failure, wrote := Resolve(n, k, verdict.images, verdict.result);
      AfterStays(origin, second, steps, n + 2);
      EndsIn(c, origin, first, steps, k, fetchFails, provided, verdict, failure, wrote);
    }

    /** applyResult, and what its exceptions mean to process. */
    method Resolve(ghost n: nat, k: Claim, images: seq<string>, result: ScanResult)
      returns (failure: Option<Failure>, ghost wrote: Option<Job>)
      requires Valid() && QuietFrom(steps, n) && TaskSound(c, pg.db, k, Scanned(images, result))
      modifies this`turn, this`steps, pg
      ensures Valid() && old(steps) < steps && |steps| > |old(steps)| + 1
      ensures var lists := LoadTaxonomy(After(origin, steps, |old(steps)| + 1), k.user);
        Resolves(c, origin, steps, |old(steps)| + 1, k, Job(images, result, lists), failure, wrote)
      ensures wrote.None? ==> QuietFrom(steps, n)
      ensures wrote.Some? ==> WroteLast(n, k, wrote.value)
      ensures failure == None && wrote == None ==> !ClaimHolds(pg.db, k)
    {
      var outcome, job := ApplyResult(n, k, images, result);
      AfterAll(origin, steps);
      failure := if outcome == ItemRefused || outcome == KeptChanging then Some(Infrastructure) else None;
      wrote := if outcome == Written then Some(job) else None;
    }

    /** process: the claim ends as its readings, the fetch and the provider call for, and it changes the
        tables at most once and last: it writes the job from exactly the images the receipt then has, or
        it records the failure on the right budget while it still holds. */
    method Process(k: Claim, fetchFails: bool, provided: Provided, recordFails: bool)
      returns (ghost failure: Option<Failure>, ghost wrote: Option<Job>)
      requires Valid() && TaskSound(c, pg.db, k, Claimed)
      modifies this`turn, this`steps, this`notices, pg
      ensures Valid() && old(steps) < steps
      ensures Ends(c, origin, steps, |old(steps)|, k, fetchFails, provided, failure, wrote)
      ensures wrote.Some? ==> WroteLast(|old(steps)|, k, wrote.value) && notices == old(notices)
      ensures failure.Some? ==> Settled(|old(steps)|, k, failure.value, recordFails, old(notices))
      ensures failure == None && wrote == None ==>
        QuietFrom(steps, |old(steps)|) && notices == old(notices) && !ClaimHolds(pg.db, k)
    {
      ghost var n := |steps|;
      AwaitAt(n, k, Claimed);
      AfterAll(origin, steps);
      var before := ReadSnapshot(pg.db, k);
      if before.None? {
        return None, None;
      }
      var known := if before.value.reviewed then Some(before.value.kind) else None;
      assert TaskSound(c, pg.db, k, Snapped(known));
      var thrown;
      thrown, wrote := ScanAndApply(n, k, known, fetchFails, provided);
      failure := thrown;
      if thrown.Some? {
        ghost var ended := steps;
        Settle(n, k, thrown.value, recordFails);
        EndsStays(c, origin, ended, steps, n, k, fetchFails, provided, failure, wrote);
      }
    }

    // ---- reclaiming and claiming ----

    /** reclaimStuck: one statement, then a notice for each receipt it gave up, once. */
    method Reclaim(now: nat)
      requires Valid()
      modifies this`steps, this`notices, pg
      ensures Valid() && steps == old(steps) + [Own(pg.db)]
      ensures pg.db == ReclaimStuck(c, old(pg.db), now)
      ensures old(notices) <= notices && Distinct(notices[|old(notices)|..])
      ensures forall x :: x in notices[|old(notices)|..] <==>
        && x.rid in old(pg.db).rows && Stuck(c, old(pg.db).rows[x.rid], now) && pg.db.rows[x.rid].lane.state == ScanFailed
        && old(pg.db).rows[x.rid].lane.startedAt == Some(x.token)
    {
      var before := pg.db;
      ReclaimStuckKeeps(c, before, now);
      Commit(ReclaimStuck(c, before, now));
      var due := GivenUp(before, pg.db, set r | r in before.rows && Stuck(c, before.rows[r], now));
      assert (notices + due)[|notices|..] == due;
      notices := notices + due;
    }

    /** The loop over the reclaimed rows: a notice for each that is now scan_failed. */
    method GivenUp(before: Db, after: Db, stuck: set<nat>) returns (due: seq<Notice>)
      requires after.rows.Keys == before.rows.Keys
      requires forall r :: r in stuck ==> r in before.rows && before.rows[r].lane.startedAt.Some?
      ensures Distinct(due)
      ensures forall x :: x in due <==>
        x.rid in stuck && after.rows[x.rid].lane.state == ScanFailed && before.rows[x.rid].lane.startedAt == Some(x.token)
    {
      var todo := stuck;
      due := [];
      while todo != {}
        invariant todo <= stuck && Distinct(due)
        invariant forall x :: x in due <==>
          x.rid in stuck && x.rid !in todo && after.rows[x.rid].lane.state == ScanFailed
          && before.rows[x.rid].lane.startedAt == Some(x.token)
        decreases |todo|
      {
        var r :| r in todo;
        if after.rows[r].lane.state == ScanFailed {
          due := due + [Notice(r, before.rows[r].lane.startedAt.value)];
        }
        todo := todo - {r};
      }
    }

    /** claim: counts the free slots and takes the oldest queued rows nobody has locked, each with a
        token of its own. */
    method Claim(locked: set<nat>) returns (claims: seq<Tables.Claim>, ghost tokens: map<nat, nat>, ghost clock: nat)
      requires Valid()
      modifies this`steps, pg
      ensures Valid() && steps == old(steps) + [Own(pg.db)]
      ensures OldestClaimable(old(pg.db), ClaimLimit(c, old(pg.db)), locked, tokens.Keys)
      ensures old(pg.db).clock <= clock && forall r :: r in tokens ==> old(pg.db).clock <= tokens[r] < clock
      ensures pg.db == TakeRows(old(pg.db), tokens, clock)
      ensures Distinct(claims) && forall k :: k in claims <==> k in NewClaims(old(pg.db), tokens)
      ensures forall a :: a in tokens ==>
        a in old(pg.db).rows && old(pg.db).rows[a].lane.state == Uploaded && a !in locked
      ensures |tokens| <= FreeSlots(c, old(pg.db))
      ensures forall a, b :: a in tokens && b in old(pg.db).rows && old(pg.db).rows[b].lane.state == Uploaded && b !in locked && b !in tokens ==>
        || old(pg.db).rows[a].createdAt < old(pg.db).rows[b].createdAt
        || (old(pg.db).rows[a].createdAt == old(pg.db).rows[b].createdAt && a < b)
      ensures forall b :: b in old(pg.db).rows && old(pg.db).rows[b].lane.state == Uploaded && b !in locked && b !in tokens ==>
        |tokens| == FreeSlots(c, old(pg.db))
    {
      var before := pg.db;
      LimitMeaning(c, before);
      var order := OldestFirst(before, ClaimLimit(c, before), locked);
      var issued := Tokens(order, before.clock);
      tokens, clock := issued, before.clock + |order|;
      claims := Issued(before, order);
      Issue(issued, |order|);
    }

    /** The UPDATE half of the claim statement, on the rows selected, within n clock readings. */
    method Issue(tokens: map<nat, nat>, n: nat)
      requires Valid() && forall r :: r in tokens ==> pg.db.clock <= tokens[r] < pg.db.clock + n
      modifies this`steps, pg
      ensures Valid() && steps == old(steps) + [Own(pg.db)]
      ensures pg.db == TakeRows(old(pg.db), tokens, old(pg.db).clock + n)
    {
      var before, clock := pg.db, pg.db.clock + n;
      TakeRowsKeeps(before, tokens, clock);
      Commit(TakeRows(before, tokens, clock));
    }
  }

  /** The loop over the returned rows: one claim each. */
  method Issued(db: Db, order: seq<nat>) returns (claims: seq<Claim>)
    requires Distinct(order) && forall i :: 0 <= i < |order| ==> order[i] in db.rows
    ensures Distinct(claims) && forall k :: k in claims <==> k in NewClaims(db, Tokens(order, db.clock))
  {
    claims := [];
    for i := 0 to |order|
      invariant |claims| == i
      invariant forall j :: 0 <= j < i ==> claims[j] == Claim(order[j], db.rows[order[j]].owner, db.clock + j)
    {
      claims := claims + [Claim(order[i], db.rows[order[i]].owner, db.clock + i)];
    }
    ClaimsMatchTokens(db, order, claims);
  }

  /** The concurrency less the rows being scanned, if that is positive. */
  function FreeSlots(c: Config, db: Db): nat {
    var scanning := |set r | r in db.rows && db.rows[r].lane.state == Scanning|;
    if c.concurrency > scanning then c.concurrency - scanning else 0
  }

  /** ORDER BY created_at, id LIMIT ... SKIP LOCKED over the queued rows. */
  method OldestFirst(db: Db, limit: nat, locked: set<nat>) returns (order: seq<nat>)
    ensures Distinct(order) && OldestClaimable(db, limit, locked, Taken(order))
    ensures forall i :: 0 <= i < |order| ==> order[i] in db.rows && db.rows[order[i]].lane.state == Uploaded && order[i] !in locked
    ensures |order| <= limit && Taken(order) == (set r | r in order) && |Taken(order)| == |order|
    ensures forall i, b :: 0 <= i < |order| && b in db.rows && db.rows[b].lane.state == Uploaded && b !in locked && b !in order ==>
      db.rows[order[i]].createdAt < db.rows[b].createdAt || (db.rows[order[i]].createdAt == db.rows[b].createdAt && order[i] < b)
    ensures forall b :: b in db.rows && db.rows[b].lane.state == Uploaded && b !in locked && b !in order ==> |order| == limit
  {
    var rest := set r | r in db.rows && Claimable(db, locked, r);
    order := [];
    while |order| < limit && rest != {}
      invariant |order| <= limit && rest <= db.rows.Keys && Distinct(order)
      invariant forall r :: Claimable(db, locked, r) <==> r in order || r in rest
      invariant forall a, b :: a in order && b in rest ==> a != b && Claimable(db, locked, a) && Older(db, a, b)
      decreases |rest|
    {
      OldestExists(db, rest);
      var r :| r in rest && forall b :: b in rest && b != r ==> Older(db, r, b);
      order := order + [r];
      rest := rest - {r};
    }
    TakenSize(order);
    OldestInColumns(db, limit, locked, order);
  }

  /** The selection in the rows' own columns. */
  lemma OldestInColumns(db: Db, limit: nat, locked: set<nat>, order: seq<nat>)
    requires OldestClaimable(db, limit, locked, Taken(order)) && |Taken(order)| == |order|
    ensures |order| <= limit
    ensures forall i :: 0 <= i < |order| ==> order[i] in db.rows && db.rows[order[i]].lane.state == Uploaded && order[i] !in locked
    ensures forall i, b :: 0 <= i < |order| && b in db.rows && db.rows[b].lane.state == Uploaded && b !in locked && b !in order ==>
      db.rows[order[i]].createdAt < db.rows[b].createdAt || (db.rows[order[i]].createdAt == db.rows[b].createdAt && order[i] < b)
    ensures forall b :: b in db.rows && db.rows[b].lane.state == Uploaded && b !in locked && b !in order ==> |order| == limit
  {
    OldestMeaning(db, limit, locked, Taken(order));
    forall i | 0 <= i < |order| ensures order[i] in db.rows && db.rows[order[i]].lane.state == Uploaded && order[i] !in locked {
      assert order[i] in Taken(order) && Waits(db, locked, order[i]);
    }
    forall i, b | 0 <= i < |order| && b in db.rows && db.rows[b].lane.state == Uploaded && b !in locked && b !in order
      ensures db.rows[order[i]].createdAt < db.rows[b].createdAt
           || (db.rows[order[i]].createdAt == db.rows[b].createdAt && order[i] < b)
    {
      assert Waits(db, locked, b) && b !in Taken(order) && order[i] in Taken(order);
      assert CreatedBefore(db, order[i], b);
    }
    forall b | b in db.rows && db.rows[b].lane.state == Uploaded && b !in locked && b !in order ensures |order| == limit {
      assert Waits(db, locked, b) && b !in Taken(order);
    }
  }

  function Taken(order: seq<nat>): set<nat> {
    set r | r in order
  }

  lemma {:induction false} TakenSize(order: seq<nat>)
    requires Distinct(order)
    ensures |Taken(order)| == |order|
  {
    if order != [] {
      var front, last := order[..|order| - 1], order[|order| - 1];
      TakenSize(front);
      assert Taken(order) == Taken(front) + {last};
    }
  }

  /** The i-th row taken gets the i-th clock reading. */
  function Tokens(order: seq<nat>, clock: nat): (tokens: map<nat, nat>)
    requires Distinct(order)
    ensures tokens.Keys == Taken(order)
    ensures forall i :: 0 <= i < |order| ==> tokens[order[i]] == clock + i
    ensures forall r :: r in tokens ==> clock <= tokens[r] < clock + |order|
  {
    if order == [] then map[]
    else
      var n := |order| - 1;
      TakenLast(order);
      Tokens(order[..n], clock)[order[n] := clock + n]
  }

  lemma TakenLast(order: seq<nat>)
    requires order != []
    ensures Taken(order) == Taken(order[..|order| - 1]) + {order[|order| - 1]}
  {
    var n := |order| - 1;
    assert order == order[..n] + [order[n]];
  }

  lemma NewClaimMeaning(db: Db, tokens: map<nat, nat>, k: Claim)
    ensures k in NewClaims(db, tokens) <==>
            k.rid in tokens && k.rid in db.rows && k.user == db.rows[k.rid].owner && k.token == tokens[k.rid]
  {
  }

  lemma ClaimsMatchTokens(db: Db, order: seq<nat>, claims: seq<Claim>)
    requires Distinct(order) && |claims| == |order| && forall i :: 0 <= i < |order| ==> order[i] in db.rows
    requires forall i :: 0 <= i < |claims| ==> claims[i] == Claim(order[i], db.rows[order[i]].owner, db.clock + i)
    ensures Distinct(claims) && forall k :: k in claims <==> k in NewClaims(db, Tokens(order, db.clock))
  {
    var tokens := Tokens(order, db.clock);
    forall k ensures k in claims <==> k in NewClaims(db, tokens) {
      NewClaimMeaning(db, tokens, k);
      ClaimMatchesToken(db, order, claims, tokens, k);
    }
  }

  lemma ClaimMatchesToken(db: Db, order: seq<nat>, claims: seq<Claim>, tokens: map<nat, nat>, k: Claim)
    requires |claims| == |order| && forall i :: 0 <= i < |order| ==> order[i] in db.rows
    requires forall i :: 0 <= i < |claims| ==> claims[i] == Claim(order[i], db.rows[order[i]].owner, db.clock + i)
    requires tokens.Keys == Taken(order) && forall i :: 0 <= i < |order| ==> tokens[order[i]] == db.clock + i
    ensures k in claims <==>
            k.rid in tokens && k.rid in db.rows && k.user == db.rows[k.rid].owner && k.token == tokens[k.rid]
  {
    if k.rid in tokens {
      assert k.rid in Taken(order);
      var i :| 0 <= i < |order| && order[i] == k.rid;
      assert claims[i].rid == k.rid;
      assert k.user == db.rows[k.rid].owner && k.token == tokens[k.rid] ==> claims[i] == k;
    }
    if k in claims {
      var i :| 0 <= i < |claims| && claims[i] == k;
      assert order[i] in Taken(order);
    }
  }

  /** r comes before every other row of the set. */
  ghost predicate OldestOf(db: Db, rest: set<nat>, r: nat)
    requires rest <= db.rows.Keys
  {
    r in rest && forall b :: b in rest && b != r ==> Older(db, r, b)
  }

  lemma OlderIsTotal(db: Db, a: nat, b: nat)
    requires a in db.rows && b in db.rows && a != b
    ensures Older(db, a, b) || Older(db, b, a)
  {
  }

  lemma OlderIsTransitive(db: Db, a: nat, b: nat, x: nat)
    requires a in db.rows && b in db.rows && x in db.rows && Older(db, a, b) && Older(db, b, x)
    ensures Older(db, a, x)
  {
  }

  lemma OlderOf(db: Db, others: set<nat>, r: nat, x: nat)
    requires others <= db.rows.Keys && x in db.rows && x !in others && OldestOf(db, others, r)
    ensures OldestOf(db, others + {x}, if Older(db, r, x) then r else x)
  {
    OlderIsTotal(db, r, x);
    if !Older(db, r, x) {
      forall b | b in others ensures Older(db, x, b) {
        if b != r { OlderIsTransitive(db, x, r, b); }
      }
    }
  }

  lemma {:induction false} OldestExists(db: Db, rest: set<nat>)
    requires rest != {} && rest <= db.rows.Keys
    ensures exists r :: OldestOf(db, rest, r)
  {
    var x :| x in rest;
    var others := rest - {x};
    assert rest == others + {x};
    if others == {} {
      assert OldestOf(db, rest, x);
    } else {
      OldestExists(db, others);
      var r :| OldestOf(db, others, r);
      OlderOf(db, others, r, x);
    }
  }
}
