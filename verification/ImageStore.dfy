/** Receipt images live in two stores that share no transaction: rows in Postgres, bytes in an object
    store. Uploads, additions and deletions take them apart step by step, and any of them may stop for
    good between two steps. */
module ImageStore {
  import opened Basics

  datatype Image = Image(key: string, hash: string)

  datatype Receipt = Receipt(owner: nat, images: seq<Image>)

  /** `target` None is an upload, Some an addition to that receipt. */
  datatype Batch = Batch(user: nat, target: Option<nat>, hashes: seq<string>, force: bool)

  /** A writer waits for its user's lock; holds it with the rows staged so far; or has put an object
      whose row is not inserted yet. A deleter has listed keys, or removes the objects of a deleted row. */
  datatype Job =
    | Waiting(batch: Batch)
    | Holding(batch: Batch, staged: seq<Image>)
    | Storing(batch: Batch, staged: seq<Image>, key: string)
    | Listed(user: nat, rid: nat, keys: set<string>)
    | Removing(keys: set<string>)

  /** `issued` maps each key ever generated to the job it was generated for. */
  datatype World = World(
    receipts: map<nat, Receipt>,
    objects: set<string>,
    issued: map<string, nat>,
    jobs: map<nat, Job>,
    nextRow: nat,
    nextJob: nat)

  const START: World := World(map[], {}, map[], map[], 0, 0)

  datatype Action =
    | BeginUpload(user: nat, hashes: seq<string>, force: bool)
    | BeginAdd(user: nat, rid: nat, hashes: seq<string>, force: bool)
    | Acquire(t: nat)
    | PutObject(t: nat, key: string)
    | InsertRow(t: nat)
    | Commit(t: nat)
    | ListKeys(user: nat, rid: nat)
    | DeleteRow(t: nat)
    | RemoveObject(t: nat, key: string)
    | SkipObject(t: nat, key: string)
    | Stop(t: nat)

  // ---- what is stored ----

  function KeysOf(r: Receipt): set<string> {
    set i | 0 <= i < |r.images| :: r.images[i].key
  }

  function StagedKeys(staged: seq<Image>): set<string> {
    set i | 0 <= i < |staged| :: staged[i].key
  }

  predicate HasHash(r: Receipt, hash: string) {
    exists i :: 0 <= i < |r.images| && r.images[i].hash == hash
  }

  /** Some image of the user's has this hash. */
  predicate UserHas(w: World, user: nat, hash: string) {
    exists r :: r in w.receipts && w.receipts[r].owner == user && HasHash(w.receipts[r], hash)
  }

  predicate Conflicts(w: World, batch: Batch) {
    exists i :: 0 <= i < |batch.hashes| && UserHas(w, batch.user, batch.hashes[i])
  }

  predicate HoldsLock(job: Job, user: nat) {
    (job.Holding? || job.Storing?) && job.batch.user == user
  }

  ghost predicate LockFree(w: World, user: nat) {
    forall u :: u in w.jobs ==> !HoldsLock(w.jobs[u], user)
  }

  // ---- steps ----

  function GoTo(w: World, t: nat, job: Job): World {
    w.(jobs := w.jobs[t := job])
  }

  function End(w: World, t: nat): World {
    w.(jobs := w.jobs - {t})
  }

  function BeginJob(w: World, job: Job): World {
    w.(jobs := w.jobs[w.nextJob := job], nextJob := w.nextJob + 1)
  }

  function CountAt(w: World, target: Option<nat>): nat {
    if target.Some? && target.value in w.receipts then |w.receipts[target.value].images| else 0
  }

  ghost predicate Enabled(cap: nat, w: World, a: Action) {
    match a
    case BeginUpload(_, hashes, _) => |hashes| <= cap
    case BeginAdd(user, rid, _, _) => rid in w.receipts && w.receipts[rid].owner == user
    case Acquire(t) => t in w.jobs && w.jobs[t].Waiting? && LockFree(w, w.jobs[t].batch.user)
    case PutObject(t, key) =>
      t in w.jobs && w.jobs[t].Holding? && |w.jobs[t].staged| < |w.jobs[t].batch.hashes| && key !in w.issued
    case InsertRow(t) => t in w.jobs && w.jobs[t].Storing? && |w.jobs[t].staged| < |w.jobs[t].batch.hashes|
    case Commit(t) => t in w.jobs && w.jobs[t].Holding? && |w.jobs[t].staged| == |w.jobs[t].batch.hashes|
    case ListKeys(_, _) => true
    case DeleteRow(t) => t in w.jobs && w.jobs[t].Listed?
    case RemoveObject(t, key) => t in w.jobs && w.jobs[t].Removing? && key in w.jobs[t].keys
    case SkipObject(t, key) => t in w.jobs && w.jobs[t].Removing? && key in w.jobs[t].keys
    case Stop(t) => t in w.jobs
  }

  /** Under the lock: the cap (for an addition), then duplicates unless forced. */
  function DoAcquire(cap: nat, w: World, t: nat): World
    requires t in w.jobs && w.jobs[t].Waiting?
  {
    var batch := w.jobs[t].batch;
    if batch.target.Some? && CountAt(w, batch.target) + |batch.hashes| > cap then End(w, t)
    else if !batch.force && Conflicts(w, batch) then End(w, t)
    else GoTo(w, t, Holding(batch, []))
  }

  /** The row's foreign key refuses a receipt that is gone. */
  function DoInsertRow(w: World, t: nat): World
    requires t in w.jobs && w.jobs[t].Storing? && |w.jobs[t].staged| < |w.jobs[t].batch.hashes|
  {
    var job := w.jobs[t];
    if job.batch.target.Some? && job.batch.target.value !in w.receipts then End(w, t)
    else GoTo(w, t, Holding(job.batch, job.staged + [Image(job.key, job.batch.hashes[|job.staged|])]))
  }

  function DoCommit(w: World, t: nat): World
    requires t in w.jobs && w.jobs[t].Holding?
  {
    var job := w.jobs[t];
    if job.batch.target.None? then
      End(w, t).(receipts := w.receipts[w.nextRow := Receipt(job.batch.user, job.staged)], nextRow := w.nextRow + 1)
    else if job.batch.target.value !in w.receipts then End(w, t)
    else
      var r := w.receipts[job.batch.target.value];
      End(w, t).(receipts := w.receipts[job.batch.target.value := r.(images := r.images + job.staged)])
  }

  /** Did the commit take effect (rather than find its receipt gone)? */
  predicate TakesEffect(w: World, t: nat) {
    t in w.jobs && w.jobs[t].Holding?
    && (w.jobs[t].batch.target.Some? ==> w.jobs[t].batch.target.value in w.receipts)
  }

  function DoDeleteRow(w: World, t: nat): World
    requires t in w.jobs && w.jobs[t].Listed?
  {
    var job := w.jobs[t];
    if job.rid in w.receipts && w.receipts[job.rid].owner == job.user
    then GoTo(w, t, Removing(job.keys)).(receipts := w.receipts - {job.rid})
    else End(w, t)
  }

  ghost function Next(cap: nat, w: World, a: Action): World
    requires Enabled(cap, w, a)
  {
    match a
    case BeginUpload(user, hashes, force) => BeginJob(w, Waiting(Batch(user, None, hashes, force)))
    case BeginAdd(user, rid, hashes, force) => BeginJob(w, Waiting(Batch(user, Some(rid), hashes, force)))
    case Acquire(t) => DoAcquire(cap, w, t)
    case PutObject(t, key) =>
      GoTo(w, t, Storing(w.jobs[t].batch, w.jobs[t].staged, key)).(objects := w.objects + {key}, issued := w.issued[key := t])
    case InsertRow(t) => DoInsertRow(w, t)
    case Commit(t) => DoCommit(w, t)
    case ListKeys(user, rid) =>
      var keys := if rid in w.receipts && w.receipts[rid].owner == user then KeysOf(w.receipts[rid]) else {};
      BeginJob(w, Listed(user, rid, keys))
    case DeleteRow(t) => DoDeleteRow(w, t)
    case RemoveObject(t, key) =>
      GoTo(w, t, Removing(w.jobs[t].keys - {key})).(objects := w.objects - {key})
    case SkipObject(t, key) => GoTo(w, t, Removing(w.jobs[t].keys - {key}))
    case Stop(t) => End(w, t)
  }

  ghost predicate IsRun(cap: nat, worlds: seq<World>, actions: seq<Action>) {
    && |worlds| == |actions| + 1 && worlds[0] == START
    && forall i :: 0 <= i < |actions| ==>
         Enabled(cap, worlds[i], actions[i]) && worlds[i + 1] == Next(cap, worlds[i], actions[i])
  }

  // ---- the invariant ----

  /** The key was generated for a job that has ended. */
  predicate Settled(w: World, key: string) {
    key in w.issued && w.issued[key] !in w.jobs
  }

  /** The job generated these keys, and the objects are there. */
  ghost predicate OwnKeys(w: World, t: nat, keys: set<string>) {
    forall k :: k in keys ==> k in w.issued && w.issued[k] == t && k in w.objects
  }

  ghost predicate ReceiptSound(cap: nat, w: World, r: Receipt) {
    && |r.images| <= cap
    && forall k :: k in KeysOf(r) ==> Settled(w, k) && k in w.objects
  }

  ghost predicate BatchSound(cap: nat, w: World, batch: Batch) {
    if batch.target.None? then |batch.hashes| <= cap
    else
      && batch.target.value < w.nextRow
      && (batch.target.value in w.receipts ==> w.receipts[batch.target.value].owner == batch.user)
  }

  /** What the lock was taken for still holds. */
  ghost predicate CheckedSound(cap: nat, w: World, batch: Batch) {
    && BatchSound(cap, w, batch)
    && (batch.target.Some? ==> CountAt(w, batch.target) + |batch.hashes| <= cap)
    && (!batch.force ==> forall i :: 0 <= i < |batch.hashes| ==> !UserHas(w, batch.user, batch.hashes[i]))
  }

  predicate StagedSound(batch: Batch, staged: seq<Image>) {
    |staged| <= |batch.hashes| && forall i :: 0 <= i < |staged| ==> staged[i].hash == batch.hashes[i]
  }

  ghost predicate JobSound(cap: nat, w: World, t: nat, job: Job) {
    match job
    case Waiting(batch) => BatchSound(cap, w, batch)
    case Holding(batch, staged) => CheckedSound(cap, w, batch) && StagedSound(batch, staged) && OwnKeys(w, t, StagedKeys(staged))
    case Storing(batch, staged, key) =>
      CheckedSound(cap, w, batch) && StagedSound(batch, staged) && |staged| < |batch.hashes|
      && OwnKeys(w, t, StagedKeys(staged) + {key})
    case Listed(_, rid, keys) =>
      forall k :: k in keys ==> Settled(w, k) && forall r :: r in w.receipts && k in KeysOf(w.receipts[r]) ==> r == rid
    case Removing(keys) =>
      forall k :: k in keys ==> Settled(w, k) && forall r :: r in w.receipts ==> k !in KeysOf(w.receipts[r])
  }

  ghost predicate KeysUnique(w: World) {
    forall r, q :: r in w.receipts && q in w.receipts && r != q ==> KeysOf(w.receipts[r]) !! KeysOf(w.receipts[q])
  }

  ghost predicate Inv(cap: nat, w: World) {
    && (forall r :: r in w.receipts ==> r < w.nextRow && ReceiptSound(cap, w, w.receipts[r]))
    && KeysUnique(w)
    && (forall t :: t in w.jobs ==> t < w.nextJob && JobSound(cap, w, t, w.jobs[t]))
    && (forall k :: k in w.issued ==> w.issued[k] < w.nextJob)
    && (forall t, u, user :: t in w.jobs && u in w.jobs && HoldsLock(w.jobs[t], user) && HoldsLock(w.jobs[u], user) ==> t == u)
  }

  // ---- preservation ----

  /** Only job t changes, and it ends up sound. */
  lemma LocalKeeps(cap: nat, w: World, w': World, t: nat)
    requires Inv(cap, w) && w' == w.(jobs := w'.jobs, nextJob := w'.nextJob)
    requires w'.jobs == w.jobs - {t} || (t in w'.jobs && w'.jobs == w.jobs[t := w'.jobs[t]])
    requires w.nextJob <= w'.nextJob && (t in w.jobs || t == w.nextJob < w'.nextJob)
    requires t in w'.jobs ==>
      && JobSound(cap, w', t, w'.jobs[t])
      && forall u, user :: u in w.jobs && u != t && HoldsLock(w'.jobs[t], user) ==> !HoldsLock(w.jobs[u], user)
    ensures Inv(cap, w')
  {
    forall r | r in w'.receipts ensures ReceiptSound(cap, w', w'.receipts[r]) {
      assert ReceiptSound(cap, w, w.receipts[r]);
    }
    forall u | u in w'.jobs && u != t ensures JobSound(cap, w', u, w'.jobs[u]) {
      assert JobSound(cap, w, u, w.jobs[u]);
    }
  }

  lemma BeginKeeps(cap: nat, w: World, a: Action)
    requires Inv(cap, w) && Enabled(cap, w, a) && (a.BeginUpload? || a.BeginAdd? || a.ListKeys?)
    ensures Inv(cap, Next(cap, w, a))
  {
    var w' := Next(cap, w, a);
    if a.ListKeys? {
      if a.rid in w.receipts { assert ReceiptSound(cap, w, w.receipts[a.rid]); }
    }
    LocalKeeps(cap, w, w', w.nextJob);
  }

  lemma AcquireKeeps(cap: nat, w: World, t: nat)
    requires Inv(cap, w) && Enabled(cap, w, Acquire(t))
    ensures Inv(cap, Next(cap, w, Acquire(t)))
  {
    var w' := DoAcquire(cap, w, t);
    var batch := w.jobs[t].batch;
    assert JobSound(cap, w, t, w.jobs[t]);
    if t in w'.jobs && !batch.force {
      forall i | 0 <= i < |batch.hashes| ensures !UserHas(w', batch.user, batch.hashes[i]) {
        assert !Conflicts(w, batch);
        SameReceiptsHave(w, w', batch.user, batch.hashes[i]);
      }
    }
    assert StagedKeys([]) == {};
    LocalKeeps(cap, w, w', t);
  }

  lemma SameReceiptsHave(w: World, w': World, user: nat, hash: string)
    requires w'.receipts == w.receipts
    ensures UserHas(w', user, hash) <==> UserHas(w, user, hash)
  {
  }

  lemma StagedAppend(staged: seq<Image>, image: Image)
    ensures StagedKeys(staged + [image]) == StagedKeys(staged) + {image.key}
  {
    var all := staged + [image];
    forall i | 0 <= i < |staged| ensures staged[i].key in StagedKeys(all) {
      assert all[i] == staged[i];
    }
    assert all[|staged|] == image;
  }

  lemma InsertRowKeeps(cap: nat, w: World, t: nat)
    requires Inv(cap, w) && Enabled(cap, w, InsertRow(t))
    ensures Inv(cap, Next(cap, w, InsertRow(t)))
  {
    var w' := DoInsertRow(w, t);
    var job := w.jobs[t];
    assert JobSound(cap, w, t, job);
    StagedAppend(job.staged, Image(job.key, job.batch.hashes[|job.staged|]));
    forall i | 0 <= i < |job.batch.hashes| ensures UserHas(w', job.batch.user, job.batch.hashes[i])
                                               <==> UserHas(w, job.batch.user, job.batch.hashes[i])
    {
      SameReceiptsHave(w, w', job.batch.user, job.batch.hashes[i]);
    }
    forall u, user | u in w.jobs && u != t && HoldsLock(job, user) ensures !HoldsLock(w.jobs[u], user) {}
    LocalKeeps(cap, w, w', t);
  }

  lemma SkipKeeps(cap: nat, w: World, t: nat, key: string)
    requires Inv(cap, w) && Enabled(cap, w, SkipObject(t, key))
    ensures Inv(cap, Next(cap, w, SkipObject(t, key)))
  {
    assert JobSound(cap, w, t, w.jobs[t]);
    LocalKeeps(cap, w, Next(cap, w, SkipObject(t, key)), t);
  }

  /** Deleting takes images away: what a writer checked under its lock stays true. */
  lemma FewerReceiptsHave(w: World, w': World, user: nat, hash: string)
    requires forall r :: r in w'.receipts ==> r in w.receipts && w'.receipts[r] == w.receipts[r]
    ensures UserHas(w', user, hash) ==> UserHas(w, user, hash)
  {
  }

  /** Receipts only go away, generated keys keep their jobs, and this job's objects stay. */
  ghost predicate Shrinks(w: World, w': World, u: nat) {
    && (forall r :: r in w'.receipts ==> r in w.receipts && w'.receipts[r] == w.receipts[r])
    && w'.nextRow == w.nextRow
    && (forall k :: k in w.issued ==> k in w'.issued && w'.issued[k] == w.issued[k])
    && (forall k :: Settled(w, k) ==> Settled(w', k))
    && (forall k :: k in w.issued && w.issued[k] == u && k in w.objects ==> k in w'.objects)
  }

  lemma CheckedStays(cap: nat, w: World, w': World, u: nat, batch: Batch)
    requires Shrinks(w, w', u) && CheckedSound(cap, w, batch)
    ensures CheckedSound(cap, w', batch)
  {
    forall i | 0 <= i < |batch.hashes| && !batch.force ensures !UserHas(w', batch.user, batch.hashes[i]) {
      FewerReceiptsHave(w, w', batch.user, batch.hashes[i]);
    }
  }

  lemma BystanderStays(cap: nat, w: World, w': World, u: nat, job: Job)
    requires Shrinks(w, w', u) && JobSound(cap, w, u, job)
    ensures JobSound(cap, w', u, job)
  {
    match job {
      case Waiting(_) =>
      case Holding(batch, _) => CheckedStays(cap, w, w', u, batch);
      case Storing(batch, _, _) => CheckedStays(cap, w, w', u, batch);
      case Listed(_, rid, keys) =>
      case Removing(keys) =>
    }
  }

  lemma PutObjectKeeps(cap: nat, w: World, t: nat, key: string)
    requires Inv(cap, w) && Enabled(cap, w, PutObject(t, key))
    ensures Inv(cap, Next(cap, w, PutObject(t, key)))
  {
    var w', job := Next(cap, w, PutObject(t, key)), w.jobs[t];
    assert JobSound(cap, w, t, job);
    forall r | r in w'.receipts ensures ReceiptSound(cap, w', w'.receipts[r]) {
      assert ReceiptSound(cap, w, w.receipts[r]);
    }
    forall u | u in w.jobs ensures Shrinks(w, w', u) {}
    CheckedStays(cap, w, w', t, job.batch);
    forall u | u in w'.jobs && u != t ensures JobSound(cap, w', u, w'.jobs[u]) {
      BystanderStays(cap, w, w', u, w.jobs[u]);
    }
    SameLocks(w, w', t);
  }

  /** A job that moves from Holding to Storing holds the same lock. */
  lemma SameLocks(w: World, w': World, t: nat)
    requires t in w.jobs && w.jobs[t].Holding? && t in w'.jobs && w'.jobs[t].Storing?
    requires w'.jobs == w.jobs[t := w'.jobs[t]] && w'.jobs[t].batch == w.jobs[t].batch
    ensures forall u, user :: u in w'.jobs && HoldsLock(w'.jobs[u], user) ==> u in w.jobs && HoldsLock(w.jobs[u], user)
  {
  }

  lemma RemoveObjectKeeps(cap: nat, w: World, t: nat, key: string)
    requires Inv(cap, w) && Enabled(cap, w, RemoveObject(t, key))
    ensures Inv(cap, Next(cap, w, RemoveObject(t, key)))
  {
    var w' := Next(cap, w, RemoveObject(t, key));
    assert JobSound(cap, w, t, w.jobs[t]);
    forall r | r in w'.receipts ensures ReceiptSound(cap, w', w'.receipts[r]) {
      assert ReceiptSound(cap, w, w.receipts[r]);
    }
    forall u | u in w'.jobs ensures JobSound(cap, w', u, w'.jobs[u]) {
      assert JobSound(cap, w, u, w.jobs[u]);
    }
  }

  /** Whatever is left of the tables after deleting, sound jobs stay sound. */
  lemma ShrinkKeeps(cap: nat, w: World, w': World, t: nat)
    requires Inv(cap, w) && t in w.jobs && w.jobs[t].Listed?
    requires w' == w.(receipts := w'.receipts, jobs := w'.jobs)
    requires forall u :: u in w.jobs ==> Shrinks(w, w', u)
    requires t in w'.jobs && w'.jobs == w.jobs[t := w'.jobs[t]] && w'.jobs[t].Removing? && JobSound(cap, w', t, w'.jobs[t])
    ensures Inv(cap, w')
  {
    forall r | r in w'.receipts ensures ReceiptSound(cap, w', w'.receipts[r]) {
      assert Shrinks(w, w', t) && ReceiptSound(cap, w, w.receipts[r]);
    }
    forall r, q | r in w'.receipts && q in w'.receipts && r != q ensures KeysOf(w'.receipts[r]) !! KeysOf(w'.receipts[q]) {
      assert Shrinks(w, w', t);
    }
    forall u | u in w'.jobs && u != t ensures JobSound(cap, w', u, w'.jobs[u]) {
      BystanderStays(cap, w, w', u, w.jobs[u]);
    }
  }

  lemma DeletedKeysAreFree(cap: nat, w: World, t: nat)
    requires Inv(cap, w) && Enabled(cap, w, DeleteRow(t)) && DoDeleteRow(w, t).receipts != w.receipts
    ensures JobSound(cap, DoDeleteRow(w, t), t, Removing(w.jobs[t].keys))
  {
    assert JobSound(cap, w, t, w.jobs[t]);
  }

  lemma DeleteRowKeeps(cap: nat, w: World, t: nat)
    requires Inv(cap, w) && Enabled(cap, w, DeleteRow(t))
    ensures Inv(cap, Next(cap, w, DeleteRow(t)))
  {
    var w' := DoDeleteRow(w, t);
    assert JobSound(cap, w, t, w.jobs[t]);
    if w'.receipts == w.receipts {
      LocalKeeps(cap, w, w', t);
    } else {
      DeletedKeysAreFree(cap, w, t);
      forall u | u in w.jobs ensures Shrinks(w, w', u) {}
      ShrinkKeeps(cap, w, w', t);
    }
  }

  /** A commit adds to one receipt of its own user; what other users have is untouched. */
  lemma OthersUntouched(w: World, w': World, t: nat, user: nat, hash: string)
    requires t in w.jobs && w.jobs[t].Holding? && w' == DoCommit(w, t) && w.jobs[t].batch.user != user
    requires w.jobs[t].batch.target.Some? && w.jobs[t].batch.target.value in w.receipts ==>
      w.receipts[w.jobs[t].batch.target.value].owner == w.jobs[t].batch.user
    requires w.nextRow !in w.receipts
    ensures UserHas(w', user, hash) ==> UserHas(w, user, hash)
  {
  }

  lemma AppendedKeys(r: Receipt, staged: seq<Image>)
    ensures KeysOf(r.(images := r.images + staged)) == KeysOf(r) + StagedKeys(staged)
  {
    var all := r.images + staged;
    forall i | 0 <= i < |r.images| ensures r.images[i].key in KeysOf(r.(images := all)) {
      assert all[i] == r.images[i];
    }
    forall i | 0 <= i < |staged| ensures staged[i].key in KeysOf(r.(images := all)) {
      assert all[|r.images| + i] == staged[i];
    }
  }

  /** After a commit: the changed receipt has its old keys and the staged ones; all else is as before. */
  lemma CommitShape(w: World, t: nat)
    requires t in w.jobs && w.jobs[t].Holding? && w.nextRow !in w.receipts && TakesEffect(w, t)
    ensures var job, w' := w.jobs[t], DoCommit(w, t);
      var rid := if job.batch.target.None? then w.nextRow else job.batch.target.value;
      && rid in w'.receipts && w'.receipts == w.receipts[rid := w'.receipts[rid]]
      && w' == w.(receipts := w'.receipts, jobs := w.jobs - {t}, nextRow := w'.nextRow)
      && w'.nextRow == (if job.batch.target.None? then w.nextRow + 1 else w.nextRow)
      && KeysOf(w'.receipts[rid]) == (if rid in w.receipts then KeysOf(w.receipts[rid]) else {}) + StagedKeys(job.staged)
      && |w'.receipts[rid].images| == CountAt(w, job.batch.target) + |job.staged|
      && (rid in w.receipts ==> w'.receipts[rid].owner == w.receipts[rid].owner)
      && (rid !in w.receipts ==> w'.receipts[rid].owner == job.batch.user)
  {
    var job := w.jobs[t];
    AppendedKeys(Receipt(job.batch.user, []), job.staged);
    assert [] + job.staged == job.staged;
    if job.batch.target.Some? { AppendedKeys(w.receipts[job.batch.target.value], job.staged); }
  }

  lemma CommitKeepsReceipts(cap: nat, w: World, t: nat)
    requires Inv(cap, w) && Enabled(cap, w, Commit(t)) && TakesEffect(w, t)
    ensures var w' := DoCommit(w, t);
      && (forall r :: r in w'.receipts ==> r < w'.nextRow && ReceiptSound(cap, w', w'.receipts[r]))
      && KeysUnique(w')
  {
    var w', job := DoCommit(w, t), w.jobs[t];
    assert JobSound(cap, w, t, job);
    CommitShape(w, t);
    forall r | r in w'.receipts ensures ReceiptSound(cap, w', w'.receipts[r]) {
      if r in w.receipts { assert ReceiptSound(cap, w, w.receipts[r]); }
    }
    forall r, q | r in w'.receipts && q in w'.receipts && r != q
      ensures KeysOf(w'.receipts[r]) !! KeysOf(w'.receipts[q])
    {
      if r in w.receipts { assert ReceiptSound(cap, w, w.receipts[r]); }
      if q in w.receipts { assert ReceiptSound(cap, w, w.receipts[q]); }
    }
  }

  lemma CommitKeepsJob(cap: nat, w: World, t: nat, u: nat)
    requires Inv(cap, w) && Enabled(cap, w, Commit(t)) && TakesEffect(w, t) && u in w.jobs && u != t
    ensures JobSound(cap, DoCommit(w, t), u, w.jobs[u])
  {
    var w', job, other := DoCommit(w, t), w.jobs[t], w.jobs[u];
    assert JobSound(cap, w, t, job) && JobSound(cap, w, u, other);
    CommitShape(w, t);
    if other.Holding? || other.Storing? {
      assert HoldsLock(job, job.batch.user) && HoldsLock(other, other.batch.user);
      assert job.batch.user != other.batch.user;
      forall i | 0 <= i < |other.batch.hashes| && UserHas(w', other.batch.user, other.batch.hashes[i])
        ensures UserHas(w, other.batch.user, other.batch.hashes[i])
      {
        OthersUntouched(w, w', t, other.batch.user, other.batch.hashes[i]);
      }
    }
  }

  lemma CommitKeeps(cap: nat, w: World, t: nat)
    requires Inv(cap, w) && Enabled(cap, w, Commit(t))
    ensures Inv(cap, Next(cap, w, Commit(t)))
  {
    var w' := DoCommit(w, t);
    if TakesEffect(w, t) {
      CommitKeepsReceipts(cap, w, t);
      CommitShape(w, t);
      forall u | u in w'.jobs ensures JobSound(cap, w', u, w'.jobs[u]) {
        CommitKeepsJob(cap, w, t, u);
      }
    } else {
      LocalKeeps(cap, w, w', t);
    }
  }

  lemma StepKeeps(cap: nat, w: World, a: Action)
    requires Inv(cap, w) && Enabled(cap, w, a)
    ensures Inv(cap, Next(cap, w, a))
  {
    match a {
      case Acquire(t) => AcquireKeeps(cap, w, t);
      case PutObject(t, key) => PutObjectKeeps(cap, w, t, key);
      case InsertRow(t) => InsertRowKeeps(cap, w, t);
      case Commit(t) => CommitKeeps(cap, w, t);
      case DeleteRow(t) => DeleteRowKeeps(cap, w, t);
      case RemoveObject(t, key) => RemoveObjectKeeps(cap, w, t, key);
      case SkipObject(t, key) => SkipKeeps(cap, w, t, key);
      case Stop(t) => LocalKeeps(cap, w, End(w, t), t);
      case _ => BeginKeeps(cap, w, a);
    }
  }

  lemma {:induction false} RunSound(cap: nat, worlds: seq<World>, actions: seq<Action>, i: nat)
    requires IsRun(cap, worlds, actions) && i < |worlds|
    ensures Inv(cap, worlds[i])
  {
    if i > 0 {
      RunSound(cap, worlds, actions, i - 1);
      StepKeeps(cap, worlds[i - 1], actions[i - 1]);
    }
  }

  // ---- theorems ----

  /** At every moment of every run, also when any job stops between any two of its steps: each image
      row names an object that is in the store, no object is shared between receipts, and no receipt
      is over the cap. Only objects without a row can be left over. */
  lemma ImagesAlwaysExist(cap: nat, worlds: seq<World>, actions: seq<Action>, i: nat, r: nat, n: nat)
    requires IsRun(cap, worlds, actions) && i < |worlds|
    requires r in worlds[i].receipts && n < |worlds[i].receipts[r].images|
    ensures worlds[i].receipts[r].images[n].key in worlds[i].objects
    ensures forall q :: q in worlds[i].receipts && worlds[i].receipts[r].images[n].key in KeysOf(worlds[i].receipts[q]) ==> q == r
    ensures |worlds[i].receipts[r].images| <= cap
  {
    RunSound(cap, worlds, actions, i);
    assert ReceiptSound(cap, worlds[i], worlds[i].receipts[r]);
    assert worlds[i].receipts[r].images[n].key in KeysOf(worlds[i].receipts[r]);
  }

  /** A batch that was not forced commits only images whose hashes its user does not have at that
      moment, however its check and its commit were interleaved with other writers. */
  lemma CommitsOnlyNewHashes(cap: nat, worlds: seq<World>, actions: seq<Action>, i: nat, t: nat, n: nat)
    requires IsRun(cap, worlds, actions) && i < |actions| && actions[i] == Commit(t)
    requires t in worlds[i].jobs && worlds[i].jobs[t].Holding?
    requires !worlds[i].jobs[t].batch.force && n < |worlds[i].jobs[t].batch.hashes|
    ensures !UserHas(worlds[i], worlds[i].jobs[t].batch.user, worlds[i].jobs[t].batch.hashes[n])
    ensures TakesEffect(worlds[i], t) ==>
      UserHas(worlds[i + 1], worlds[i].jobs[t].batch.user, worlds[i].jobs[t].batch.hashes[n])
  {
    RunSound(cap, worlds, actions, i);
    var w, w', job := worlds[i], worlds[i + 1], worlds[i].jobs[t];
    assert JobSound(cap, w, t, job);
    if TakesEffect(w, t) {
      var rid := if job.batch.target.None? then w.nextRow else job.batch.target.value;
      var before := CountAt(w, job.batch.target);
      assert w'.receipts[rid].images[before + n] == job.staged[n];
      assert HasHash(w'.receipts[rid], job.batch.hashes[n]);
    }
  }

  /** The step deletes a receipt of this user's that has an image with this hash. */
  predicate DeletesHash(w: World, a: Action, user: nat, hash: string) {
    && a.DeleteRow? && a.t in w.jobs && w.jobs[a.t].Listed? && w.jobs[a.t].user == user
    && w.jobs[a.t].rid in w.receipts && w.receipts[w.jobs[a.t].rid].owner == user
    && HasHash(w.receipts[w.jobs[a.t].rid], hash)
  }

  lemma HashPersists(cap: nat, w: World, a: Action, user: nat, hash: string)
    requires Inv(cap, w) && Enabled(cap, w, a) && UserHas(w, user, hash) && !DeletesHash(w, a, user, hash)
    ensures UserHas(Next(cap, w, a), user, hash)
  {
    var w' := Next(cap, w, a);
    var r :| r in w.receipts && w.receipts[r].owner == user && HasHash(w.receipts[r], hash);
    var i :| 0 <= i < |w.receipts[r].images| && w.receipts[r].images[i].hash == hash;
    assert r in w'.receipts && w'.receipts[r].owner == user && i < |w'.receipts[r].images|
           && w'.receipts[r].images[i] == w.receipts[r].images[i];
    assert HasHash(w'.receipts[r], hash);
  }

  /** A hash its user had and no longer has was deleted, by that user, with a receipt that had it. */
  lemma {:induction false} LostHashWasDeleted(cap: nat, worlds: seq<World>, actions: seq<Action>, i: nat, j: nat, user: nat, hash: string)
    requires IsRun(cap, worlds, actions) && i <= j < |worlds|
    requires UserHas(worlds[i], user, hash) && !UserHas(worlds[j], user, hash)
    ensures exists m :: i <= m < j && DeletesHash(worlds[m], actions[m], user, hash)
    decreases j - i
  {
    RunSound(cap, worlds, actions, i);
    if !DeletesHash(worlds[i], actions[i], user, hash) {
      HashPersists(cap, worlds[i], actions[i], user, hash);
      LostHashWasDeleted(cap, worlds, actions, i + 1, j, user, hash);
    }
  }

  /** A batch that was not forced, by this user, with this hash, commits at step i and takes effect. */
  ghost predicate CommitsHash(worlds: seq<World>, actions: seq<Action>, i: nat, user: nat, hash: string)
    requires |worlds| == |actions| + 1
  {
    && i < |actions| && actions[i].Commit? && TakesEffect(worlds[i], actions[i].t)
    && !worlds[i].jobs[actions[i].t].batch.force
    && worlds[i].jobs[actions[i].t].batch.user == user
    && hash in worlds[i].jobs[actions[i].t].batch.hashes
  }

  /** Of any uploads or additions of one image that a user races without forcing, at most one commits,
      unless in between that user deleted a receipt that had this very image. */
  lemma RacingUploadsCommitOnce(cap: nat, worlds: seq<World>, actions: seq<Action>, i: nat, j: nat, user: nat, hash: string)
    requires IsRun(cap, worlds, actions) && i < j
    requires CommitsHash(worlds, actions, i, user, hash) && CommitsHash(worlds, actions, j, user, hash)
    ensures exists m :: i < m < j && DeletesHash(worlds[m], actions[m], user, hash)
  {
    var first, second := worlds[i].jobs[actions[i].t].batch.hashes, worlds[j].jobs[actions[j].t].batch.hashes;
    var n: nat :| n < |first| && first[n] == hash;
    var m: nat :| m < |second| && second[m] == hash;
    CommitsOnlyNewHashes(cap, worlds, actions, i, actions[i].t, n);
    CommitsOnlyNewHashes(cap, worlds, actions, j, actions[j].t, m);
    LostHashWasDeleted(cap, worlds, actions, i + 1, j, user, hash);
  }
}
