/** The image writes of ReceiptService, as code that goes through the steps of ImageStore one by one
    and may fail at any of them. */
module ImageService {
  import opened Basics
  import opened ImageStore

  /** Keys nobody has generated yet, one per image. */
  predicate FreshKeys(w: World, keys: seq<string>) {
    && (forall i :: 0 <= i < |keys| ==> keys[i] !in w.issued)
    && (forall i, j :: 0 <= i < j < |keys| ==> keys[i] != keys[j])
  }

  /** The rows of a batch stored under these keys. */
  function Images(keys: seq<string>, hashes: seq<string>): seq<Image>
    requires |keys| == |hashes|
  {
    seq(|keys|, i requires 0 <= i < |keys| => Image(keys[i], hashes[i]))
  }

  /** The receipt a batch leaves: its target with the images added, or a new one. */
  function Written(w: World, batch: Batch, keys: seq<string>): Receipt
    requires |keys| == |batch.hashes| && (batch.target.Some? ==> batch.target.value in w.receipts)
  {
    if batch.target.Some? then
      var r := w.receipts[batch.target.value];
      Receipt(r.owner, r.images + Images(keys, batch.hashes))
    else Receipt(batch.user, Images(keys, batch.hashes))
  }

  function Taken(keys: seq<string>): set<string> {
    set k | k in keys
  }

  class Service {
    const cap: nat
    var w: World

    constructor (cap: nat)
      ensures Inv(cap, w) && this.cap == cap && w == START
    {
      this.cap := cap;
      w := START;
    }

    /** Puts one object and then inserts its row, unless that fails. */
    method StoreImage(t: nat, key: string, fails: bool) returns (ok: bool)
      requires Inv(cap, w) && t in w.jobs && w.jobs[t].Holding? && |w.jobs[t].staged| < |w.jobs[t].batch.hashes|
      requires key !in w.issued
      requires w.jobs[t].batch.target.Some? ==> w.jobs[t].batch.target.value in w.receipts
      modifies this`w
      ensures Inv(cap, w) && t in w.jobs && ok == !fails
      ensures w == old(w).(objects := old(w).objects + {key}, issued := old(w).issued[key := t], jobs := w.jobs)
      ensures w.jobs == old(w).jobs[t := w.jobs[t]]
      ensures ok ==> var job := old(w).jobs[t];
        w.jobs == old(w).jobs[t := Holding(job.batch, job.staged + [Image(key, job.batch.hashes[|job.staged|])])]
    {
      var job := w.jobs[t];
      PutObjectKeeps(cap, w, t, key);
      w := GoTo(w, t, Storing(job.batch, job.staged, key)).(objects := w.objects + {key}, issued := w.issued[key := t]);
      if fails {
        return false;
      }
      InsertRowKeeps(cap, w, t);
      w := DoInsertRow(w, t);
      ok := true;
    }

    /** One round of the loop below. */
    method StoreNext(ghost before: World, t: nat, keys: seq<string>, i: nat, fails: bool) returns (ok: bool)
      requires Inv(cap, w) && i < |keys| && StoredUpTo(before, w, t, keys, i) && FreshKeys(before, keys)
      requires before.jobs[t].batch.target.Some? ==> before.jobs[t].batch.target.value in before.receipts
      modifies this`w
      ensures Inv(cap, w) && ok == !fails
      ensures ok ==> StoredUpTo(before, w, t, keys, i + 1)
      ensures !ok ==> OnlyLeftovers(before, w, t, keys)
    {
      ghost var sofar := w;
      NextIsFresh(before, w, t, keys, i);
      ok := StoreImage(t, keys[i], fails);
      if ok {
        StoredOneMore(before, sofar, w, t, keys, i);
      } else {
        FailedShape(before, sofar, w, t, keys, i);
      }
    }

    /** Puts each object and then inserts its row; `failAt` is the image whose put or insert fails, if any. */
    method StoreImages(t: nat, keys: seq<string>, failAt: Option<nat>) returns (ok: bool)
      requires Inv(cap, w) && t in w.jobs && w.jobs[t].Holding? && w.jobs[t].staged == []
      requires |keys| == |w.jobs[t].batch.hashes| && FreshKeys(w, keys)
      requires w.jobs[t].batch.target.Some? ==> w.jobs[t].batch.target.value in w.receipts
      modifies this`w
      ensures Inv(cap, w) && t in w.jobs
      ensures w.receipts == old(w).receipts && w.nextRow == old(w).nextRow
      ensures w.jobs == old(w).jobs[t := w.jobs[t]] && w.issued.Keys <= old(w).issued.Keys + Taken(keys)
      ensures old(w).objects <= w.objects <= old(w).objects + Taken(keys)
      ensures ok <==> !(failAt.Some? && failAt.value < |keys|)
      ensures ok ==>
        && w.objects == old(w).objects + Taken(keys)
        && w.jobs == old(w).jobs[t := Holding(old(w).jobs[t].batch, Images(keys, old(w).jobs[t].batch.hashes))]
    {
      ghost var before := w;
      StoredNone(w, t, keys);
      for i := 0 to |keys|
        invariant Inv(cap, w) && StoredUpTo(before, w, t, keys, i)
        invariant failAt.Some? ==> i <= failAt.value || failAt.value >= |keys|
      {
        ok := StoreNext(before, t, keys, i, failAt == Some(i));
        if !ok {
          return;
        }
      }
      StoredAll(before, w, t, keys);
      ok := true;
    }

    /** uploadReceipt once its turn at the lock comes; None on a conflict, too many images, or a failure. */
    method Upload(user: nat, hashes: seq<string>, force: bool, keys: seq<string>, failAt: Option<nat>) returns (rid: Option<nat>)
      requires Inv(cap, w) && LockFree(w, user)
      requires |keys| == |hashes| && FreshKeys(w, keys)
      modifies this`w
      ensures Inv(cap, w) && w.jobs == old(w).jobs && w.issued.Keys <= old(w).issued.Keys + Taken(keys)
      ensures rid.Some? <==>
        && |hashes| <= cap
        && (force || forall i :: 0 <= i < |hashes| ==> !UserHas(old(w), user, hashes[i]))
        && !(failAt.Some? && failAt.value < |hashes|)
      ensures rid.Some? ==>
        && rid.value !in old(w).receipts
        && w.receipts == old(w).receipts[rid.value := Receipt(user, Images(keys, hashes))]
        && w.objects == old(w).objects + Taken(keys)
      ensures rid.None? ==> w.receipts == old(w).receipts && old(w).objects <= w.objects <= old(w).objects + Taken(keys)
    {
      ghost var before := w;
      if |hashes| > cap {
        return None;
      }
      var t := w.nextJob;
      BeginKeeps(cap, w, BeginUpload(user, hashes, force));
      w := BeginJob(w, Waiting(Batch(user, None, hashes, force)));
      rid := Write(t, keys, failAt);
      assert [] + Images(keys, hashes) == Images(keys, hashes);
    }

    /** addImages on an existing receipt of the user's; false on too many images, a conflict or a failure. */
    method Add(user: nat, rid: nat, hashes: seq<string>, force: bool, keys: seq<string>, failAt: Option<nat>) returns (ok: bool)
      requires Inv(cap, w) && LockFree(w, user)
      requires |keys| == |hashes| && FreshKeys(w, keys)
      modifies this`w
      ensures Inv(cap, w) && w.jobs == old(w).jobs && w.issued.Keys <= old(w).issued.Keys + Taken(keys)
      ensures ok <==>
        && rid in old(w).receipts && old(w).receipts[rid].owner == user
        && |old(w).receipts[rid].images| + |hashes| <= cap
        && (force || forall i :: 0 <= i < |hashes| ==> !UserHas(old(w), user, hashes[i]))
        && !(failAt.Some? && failAt.value < |hashes|)
      ensures ok ==>
        && w.receipts == old(w).receipts[rid := Receipt(user, old(w).receipts[rid].images + Images(keys, hashes))]
        && w.objects == old(w).objects + Taken(keys)
      ensures !ok ==> w.receipts == old(w).receipts && old(w).objects <= w.objects <= old(w).objects + Taken(keys)
    {
      if rid !in w.receipts || w.receipts[rid].owner != user {
        return false;
      }
      var t := w.nextJob;
      BeginKeeps(cap, w, BeginAdd(user, rid, hashes, force));
      w := BeginJob(w, Waiting(Batch(user, Some(rid), hashes, force)));
      var done := Write(t, keys, failAt);
      ok := done.Some?;
    }

    /** From the lock to commit or rollback. */
    method Write(t: nat, keys: seq<string>, failAt: Option<nat>) returns (rid: Option<nat>)
      requires Inv(cap, w) && t in w.jobs && w.jobs[t].Waiting? && LockFree(w, w.jobs[t].batch.user)
      requires |keys| == |w.jobs[t].batch.hashes| && FreshKeys(w, keys)
      requires w.jobs[t].batch.target.Some? ==> w.jobs[t].batch.target.value in w.receipts
      modifies this`w
      ensures Inv(cap, w) && w.jobs == old(w).jobs - {t} && w.issued.Keys <= old(w).issued.Keys + Taken(keys)
      ensures var batch := old(w).jobs[t].batch;
        && (rid.Some? <==>
              && (batch.target.Some? ==> CountAt(old(w), batch.target) + |batch.hashes| <= cap)
              && (batch.force || !Conflicts(old(w), batch))
              && !(failAt.Some? && failAt.value < |batch.hashes|))
        && (rid.Some? ==>
              && rid.value == (if batch.target.Some? then batch.target.value else old(w).nextRow)
              && w.receipts == old(w).receipts[rid.value := Written(old(w), batch, keys)]
              && w.objects == old(w).objects + Taken(keys))
      ensures rid.None? ==> w.receipts == old(w).receipts && old(w).objects <= w.objects <= old(w).objects + Taken(keys)
    {
      AcquireKeeps(cap, w, t);
      w := DoAcquire(cap, w, t);
      if t !in w.jobs {
        return None;
      }
      rid := StoreAndCommit(t, keys, failAt);
    }

    /** With the lock held and every check passed: commits the images, or rolls back if storing fails.
        Either way the transaction is over. */
    method StoreAndCommit(t: nat, keys: seq<string>, failAt: Option<nat>) returns (rid: Option<nat>)
      requires Inv(cap, w) && t in w.jobs && w.jobs[t].Holding? && w.jobs[t].staged == []
      requires |keys| == |w.jobs[t].batch.hashes| && FreshKeys(w, keys)
      requires w.jobs[t].batch.target.Some? ==> w.jobs[t].batch.target.value in w.receipts
      modifies this`w
      ensures Inv(cap, w) && w.jobs == old(w).jobs - {t} && w.issued.Keys <= old(w).issued.Keys + Taken(keys)
      ensures rid.Some? <==> !(failAt.Some? && failAt.value < |keys|)
      ensures rid.Some? ==>
        && rid.value == (if old(w).jobs[t].batch.target.Some? then old(w).jobs[t].batch.target.value else old(w).nextRow)
        && w.receipts == old(w).receipts[rid.value := Written(old(w), old(w).jobs[t].batch, keys)]
        && w.objects == old(w).objects + Taken(keys)
      ensures rid.None? ==> w.receipts == old(w).receipts && old(w).objects <= w.objects <= old(w).objects + Taken(keys)
    {
      ghost var before := w;
      var batch := w.jobs[t].batch;
      var stored := StoreImages(t, keys, failAt);
      assert before.jobs[t := w.jobs[t]] - {t} == before.jobs - {t};
      if !stored {
        LocalKeeps(cap, w, End(w, t), t);
        w := End(w, t);
        return None;
      }
      CommitKeeps(cap, w, t);
      rid := Some(if batch.target.Some? then batch.target.value else w.nextRow);
      assert [] + Images(keys, batch.hashes) == Images(keys, batch.hashes);
      w := DoCommit(w, t);
    }

    /** Removes the objects of a deleted row one by one, carrying on past those that fail. */
    method RemoveObjects(t: nat, lost: set<string>)
      requires Inv(cap, w) && t in w.jobs && w.jobs[t].Removing?
      modifies this`w
      ensures Inv(cap, w) && t in w.jobs && w.jobs == old(w).jobs[t := w.jobs[t]] && w.issued == old(w).issued
      ensures w.receipts == old(w).receipts && w.objects == old(w).objects - (old(w).jobs[t].keys - lost)
    {
      ghost var before := w;
      var keys := w.jobs[t].keys;
      var todo := keys;
      assert before.jobs[t := Removing(keys)] == before.jobs;
      while todo != {}
        invariant todo <= keys && Inv(cap, w)
        invariant w == before.(objects := before.objects - ((keys - todo) - lost), jobs := before.jobs[t := Removing(todo)])
        decreases |todo|
      {
        var key :| key in todo;
        RemoveObject(t, key, key in lost);
        todo := todo - {key};
      }
    }

    /** Removes one object, or fails to. */
    method RemoveObject(t: nat, key: string, fails: bool)
      requires Inv(cap, w) && t in w.jobs && w.jobs[t].Removing? && key in w.jobs[t].keys
      modifies this`w
      ensures Inv(cap, w)
      ensures w == old(w).(objects := if fails then old(w).objects else old(w).objects - {key},
                           jobs := old(w).jobs[t := Removing(old(w).jobs[t].keys - {key})])
    {
      if fails {
        SkipKeeps(cap, w, t, key);
        w := GoTo(w, t, Removing(w.jobs[t].keys - {key}));
      } else {
        RemoveObjectKeeps(cap, w, t, key);
        w := GoTo(w, t, Removing(w.jobs[t].keys - {key})).(objects := w.objects - {key});
      }
    }

    /** deleteReceipt; `lost` are the keys whose removal fails. */
    method Delete(user: nat, rid: nat, lost: set<string>) returns (found: bool)
      requires Inv(cap, w)
      modifies this`w
      ensures Inv(cap, w) && w.jobs == old(w).jobs && w.issued == old(w).issued
      ensures found <==> rid in old(w).receipts && old(w).receipts[rid].owner == user
      ensures w.receipts == if found then old(w).receipts - {rid} else old(w).receipts
      ensures w.objects == if found then old(w).objects - (KeysOf(old(w).receipts[rid]) - lost) else old(w).objects
    {
      ghost var before := w;
      var t := w.nextJob;
      BeginKeeps(cap, w, ListKeys(user, rid));
      var keys := if rid in w.receipts && w.receipts[rid].owner == user then KeysOf(w.receipts[rid]) else {};
      w := BeginJob(w, Listed(user, rid, keys));
      DeleteRowKeeps(cap, w, t);
      w := DoDeleteRow(w, t);
      if t !in w.jobs {
        return false;
      }
      RemoveObjects(t, lost);
      LocalKeeps(cap, w, End(w, t), t);
      w := End(w, t);
      found := true;
    }
  }

  /** From `before`, exactly the first i images are in the store and staged by job t. */
  ghost predicate StoredUpTo(before: World, w: World, t: nat, keys: seq<string>, i: nat) {
    && i <= |keys| && t in before.jobs && before.jobs[t].Holding? && |keys| == |before.jobs[t].batch.hashes|
    && w.issued.Keys == before.issued.Keys + Taken(keys[..i])
    && var batch := before.jobs[t].batch;
       w == before.(objects := before.objects + Taken(keys[..i]), issued := w.issued,
                    jobs := before.jobs[t := Holding(batch, Images(keys[..i], batch.hashes[..i]))])
  }

  lemma StoredNone(w: World, t: nat, keys: seq<string>)
    requires t in w.jobs && w.jobs[t].Holding? && w.jobs[t].staged == [] && |keys| == |w.jobs[t].batch.hashes|
    ensures StoredUpTo(w, w, t, keys, 0)
  {
    var batch := w.jobs[t].batch;
    assert Images(keys[..0], batch.hashes[..0]) == [] && Taken(keys[..0]) == {};
    assert w.jobs[t := Holding(batch, [])] == w.jobs;
  }

  lemma NextIsFresh(before: World, w: World, t: nat, keys: seq<string>, i: nat)
    requires StoredUpTo(before, w, t, keys, i) && i < |keys| && FreshKeys(before, keys)
    ensures keys[i] !in w.issued
  {
  }

  lemma StoredOneMore(before: World, w: World, w': World, t: nat, keys: seq<string>, i: nat)
    requires StoredUpTo(before, w, t, keys, i) && i < |keys|
    requires w' == w.(objects := w.objects + {keys[i]}, issued := w.issued[keys[i] := t], jobs := w'.jobs)
    requires var job := w.jobs[t];
      w'.jobs == w.jobs[t := Holding(job.batch, job.staged + [Image(keys[i], job.batch.hashes[i])])]
    ensures StoredUpTo(before, w', t, keys, i + 1)
  {
    Extend(keys, before.jobs[t].batch.hashes, i);
  }

  lemma StoredAll(before: World, w: World, t: nat, keys: seq<string>)
    requires StoredUpTo(before, w, t, keys, |keys|)
    ensures w.receipts == before.receipts && w.nextRow == before.nextRow
    ensures w.issued.Keys == before.issued.Keys + Taken(keys) && w.objects == before.objects + Taken(keys)
    ensures w.jobs == before.jobs[t := Holding(before.jobs[t].batch, Images(keys, before.jobs[t].batch.hashes))]
  {
    assert keys[..|keys|] == keys && before.jobs[t].batch.hashes[..|keys|] == before.jobs[t].batch.hashes;
  }

  /** A failure leaves extra objects only. */
  lemma FailedShape(before: World, w: World, w': World, t: nat, keys: seq<string>, i: nat)
    requires StoredUpTo(before, w, t, keys, i) && i < |keys| && t in w'.jobs && w'.jobs == w.jobs[t := w'.jobs[t]]
    requires w' == w.(objects := w.objects + {keys[i]}, issued := w.issued[keys[i] := t], jobs := w'.jobs)
    ensures OnlyLeftovers(before, w', t, keys)
  {
  }

  /** Since `before`, only job t and objects under these keys may have changed. */
  ghost predicate OnlyLeftovers(before: World, w: World, t: nat, keys: seq<string>) {
    && w.receipts == before.receipts && w.nextRow == before.nextRow
    && t in w.jobs && w.jobs == before.jobs[t := w.jobs[t]] && w.issued.Keys <= before.issued.Keys + Taken(keys)
    && before.objects <= w.objects <= before.objects + Taken(keys)
  }

  lemma Extend(keys: seq<string>, hashes: seq<string>, i: nat)
    requires i < |keys| == |hashes|
    ensures Images(keys[..i + 1], hashes[..i + 1]) == Images(keys[..i], hashes[..i]) + [Image(keys[i], hashes[i])]
    ensures Taken(keys[..i + 1]) == Taken(keys[..i]) + {keys[i]}
  {
    assert keys[..i + 1] == keys[..i] + [keys[i]];
  }

  /** Image i has the i-th key and the i-th hash. */
  lemma ImagesMeaning(keys: seq<string>, hashes: seq<string>, i: nat)
    requires |keys| == |hashes|
    ensures |Images(keys, hashes)| == |keys|
    ensures i < |keys| ==> Images(keys, hashes)[i].key == keys[i] && Images(keys, hashes)[i].hash == hashes[i]
  {
  }
}
