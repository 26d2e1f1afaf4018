/** storage/StorageSystem.cpp and storage/DBWorker.cpp: the object whose methods the threads run.
    Each method is proved against a function of the old state; the lemmas after the class show that
    these functions are runs of the step machine, so its theorems speak about this code. */
module StorageSystem {
  import opened Collections
  import opened WriteBehindModel
  import opened WriteBehindDelivery
  import opened WriteBehindAccounts
  import opened WriteBehindDrain
  import opened DirtyHub

  const SIZE_T: nat := 0x1_0000_0000_0000_0000
  /** std::vector<uint64_t>::max_size(), and so a bound on what steal_all can return. */
  const MAX_VECTOR: nat := 0x1000_0000_0000_0000

  // ---------------------------------------------------------------- outcomes of foreign calls

  datatype Attempt = Attempt(redis: bool, mysqlInit: bool, mysqlConnect: bool)
  {
    predicate Works() { redis && mysqlInit && mysqlConnect }
  }

  /** A batch call that works applies every row; one that fails may have applied some prefix. */
  datatype Batch = Works | FailsAfter(rows: nat)

  function Applied(b: Batch, n: nat): nat {
    match b case Works => n case FailsAfter(rows) => Min(rows, n)
  }

  datatype Outcomes = Outcomes(
    connect: Attempt, write: Batch, reconnect: Attempt, fetch: bool, upsert: Batch)

  // ---------------------------------------------------------------- what one job does

  function ConnectResult(db: Db, a: Attempt): bool { db.Up() || a.Works() }

  /** flush_rt_writes with both connections up. */
  function FlushedDb(db: Db, b: Batch): Db {
    var swapped := SwappedDb(db);
    if db.rtQ == [] then swapped
    else
      var n := |db.rtQ|;
      WrittenDb(SubtractedDb(swapped), Applied(b, n), b.Works?)
  }

  /** Everything after flush_rt_writes. */
  function StoredDb(db: Db, job: Job, o: Outcomes): Db {
    var db := ConnectedDb(db, ConnectResult(db, o.reconnect));
    if !db.Up() || job == [] then db
    else if !o.fetch then db.Disconnected()
    else
      var rows := Rows(db.redis, job);
      if rows == [] then db else UpsertedDb(db, rows, Applied(o.upsert, |rows|), o.upsert.Works?)
  }

  function HandledDb(db: Db, job: Job, o: Outcomes): Db {
    var db := ConnectedDb(db, ConnectResult(db, o.connect));
    if !db.Up() then db else StoredDb(FlushedDb(db, o.write), job, o)
  }

  lemma {:induction false} RowsFound(redis: Store, job: Job)
    ensures Rows(redis, job) == [] <==> forall u :: u in job ==> u !in redis
  {
    if job != [] { RowsFound(redis, job[1..]); }
  }

  // ---------------------------------------------------------------- what one timer pass does

  /** Pushes the batches in order; returns the queue and the uids of the rejected batches. */
  function Pass(queue: seq<Job>, uids: seq<Uid>, maxBatch: nat): (r: (seq<Job>, seq<Uid>))
    requires maxBatch > 0
    decreases |uids|
  {
    if uids == [] then (queue, [])
    else
      var n := Min(|uids|, maxBatch);
      var (pushed, accepted) := TryPush(queue, uids[..n]);
      var (queue', rejected) := Pass(pushed, uids[n..], maxBatch);
      (queue', if accepted then rejected else uids[..n] + rejected)
  }

  function Flatten(jobs: seq<Job>): seq<Uid> {
    if jobs == [] then [] else jobs[0] + Flatten(jobs[1..])
  }

  lemma {:induction false} FlattenCounts(jobs: seq<Job>, u: Uid)
    ensures multiset(Flatten(jobs))[u] == InQueue(jobs, u)
  {
    if jobs != [] { FlattenCounts(jobs[1..], u); }
  }

  lemma {:induction false} PassFull(queue: seq<Job>, uids: seq<Uid>, maxBatch: nat)
    requires maxBatch > 0 && |queue| == MAX_QUEUE
    ensures Pass(queue, uids, maxBatch) == (queue, uids)
    decreases |uids|
  {
    if uids != [] {
      var n := Min(|uids|, maxBatch);
      PassFull(queue, uids[n..], maxBatch);
      assert uids[..n] + uids[n..] == uids;
    }
  }

  lemma {:induction false} PassBounds(queue: seq<Job>, uids: seq<Uid>, maxBatch: nat)
    requires maxBatch > 0 && |queue| <= MAX_QUEUE
    ensures var (queue', rejected) := Pass(queue, uids, maxBatch);
      && queue <= queue' && |queue'| <= MAX_QUEUE
      && (rejected != [] ==> |queue'| == MAX_QUEUE)
      && (forall j :: |queue| <= j < |queue'| ==> 1 <= |queue'[j]| <= maxBatch)
      && (forall j :: |queue| <= j < |queue'| ==> |queue'[j]| == maxBatch || (j == |queue'| - 1 && rejected == []))
    decreases |uids|
  {
    if |queue| == MAX_QUEUE {
      PassFull(queue, uids, maxBatch);
    } else if uids != [] {
      var n := Min(|uids|, maxBatch);
      PassBounds(queue + [uids[..n]], uids[n..], maxBatch);
    }
  }

  /** One pass of the timer: the queue grows by non-empty batches of at most maxBatch uids, and these
      followed by the rejected uids are the stolen list itself, in order. Batches are rejected only
      once the queue is full. */
  lemma {:induction false} PassSplits(queue: seq<Job>, uids: seq<Uid>, maxBatch: nat)
    requires maxBatch > 0 && |queue| <= MAX_QUEUE
    ensures var (queue', rejected) := Pass(queue, uids, maxBatch);
      && queue <= queue' && |queue'| <= MAX_QUEUE
      && (rejected != [] ==> |queue'| == MAX_QUEUE)
      && (forall j :: |queue| <= j < |queue'| ==> 1 <= |queue'[j]| <= maxBatch)
      && (forall j :: |queue| <= j < |queue'| ==> |queue'[j]| == maxBatch || (j == |queue'| - 1 && rejected == []))
      && Flatten(queue'[|queue|..]) + rejected == uids
    decreases |uids|
  {
    PassBounds(queue, uids, maxBatch);
    if |queue| == MAX_QUEUE {
      PassFull(queue, uids, maxBatch);
      assert queue[|queue|..] == [];
    } else if uids != [] {
      var n := Min(|uids|, maxBatch);
      var pushed := queue + [uids[..n]];
      var (queue', rejected) := Pass(queue, uids, maxBatch);
      PassSplits(pushed, uids[n..], maxBatch);
      FlattenFrom(queue', |queue|);
      Reattach(uids, n, Flatten(queue'[|pushed|..]), rejected);
    }
  }

  /** What a timer pass does with the stolen uids, for the configured batch size: it queues a first part of
      them, in order, cut into jobs of exactly max_batch_uids (or of 1 if that is 0), except that the one
      that ends the list may be shorter. A rest is left only when 360 jobs are queued, and exactly it is
      dirty again. */
  ghost predicate Batched(queue: seq<Job>, shards: seq<set<Uid>>, uids: seq<Uid>, maxBatchUids: nat,
                          queue': seq<Job>, shards': seq<set<Uid>>)
    requires |shards| == |shards'| == SHARDS
  {
    var limit := if maxBatchUids == 0 then 1 else maxBatchUids;
    queue <= queue' &&
    var sent := Flatten(queue'[|queue|..]);
    sent <= uids &&
    var back := uids[|sent|..];
    && (forall j :: |queue| <= j < |queue'| ==>
          |queue'[j]| == limit || (0 < |queue'[j]| < limit && j == |queue'| - 1 && back == []))
    && (back != [] ==> |queue'| == 360)
    && (forall u :: Dirty(shards', u) <==> Dirty(shards, u) || u in back)
  }

  lemma PassBatches(queue: seq<Job>, shards: seq<set<Uid>>, uids: seq<Uid>, maxBatchUids: nat)
    requires |shards| == SHARDS && |queue| <= 360
    ensures var (queue', back) := Pass(queue, uids, MaxBatch(maxBatchUids));
      Batched(queue, shards, uids, maxBatchUids, queue', MarkAll(shards, back))
  {
    var (queue', back) := Pass(queue, uids, MaxBatch(maxBatchUids));
    PassSplits(queue, uids, MaxBatch(maxBatchUids));
    var sent := Flatten(queue'[|queue|..]);
    assert sent + back == uids;
    assert uids[|sent|..] == back;
    forall u ensures Dirty(MarkAll(shards, back), u) <==> Dirty(shards, u) || u in back {
      MarkAllDirty(shards, back, u);
    }
  }

  /** In particular: a list within the limit, and room in the queue, make one job and leave nothing dirty. */
  lemma BatchedAtOnce(queue: seq<Job>, uids: seq<Uid>, maxBatchUids: nat, queue': seq<Job>, shards': seq<set<Uid>>)
    requires |shards'| == SHARDS && Batched(queue, NoneDirty(), uids, maxBatchUids, queue', shards')
    requires 0 < |uids| <= maxBatchUids && |queue| < 360
    ensures queue' == queue + [uids] && forall u :: !Dirty(shards', u)
  {
    var n, accepted := |queue|, queue'[|queue|..];
    assert queue' == queue + accepted;
    assert forall k :: 0 <= k < |accepted| ==> accepted[k] == queue'[n + k];
    if accepted != [] {
      FlattenStarts(accepted);
      assert |queue'[n]| == |accepted[0]| && |Flatten(accepted)| <= |uids|;
      assert |accepted| == 1 && |Flatten(accepted)| == |uids|;
      assert accepted[0] == Flatten(accepted) == uids[..|uids|] == uids;
    }
  }

  lemma FlattenStarts(jobs: seq<Job>)
    requires jobs != []
    ensures |jobs| == 1 ==> Flatten(jobs) == jobs[0]
    ensures |jobs| > 1 ==> |Flatten(jobs)| >= |jobs[0]| + |jobs[1]|
  {
    if |jobs| == 1 { assert jobs[1..] == []; } else { assert jobs[1..][0] == jobs[1]; }
  }

  lemma FlattenFrom(jobs: seq<Job>, k: nat)
    requires k < |jobs|
    ensures Flatten(jobs[k..]) == jobs[k] + Flatten(jobs[k + 1..])
  {
    assert jobs[k..][1..] == jobs[k + 1..];
  }

  /** Uid by uid: each stolen uid is in exactly one accepted batch or goes back to its shard. */
  lemma PassPartition(queue: seq<Job>, uids: seq<Uid>, maxBatch: nat, u: Uid)
    requires maxBatch > 0 && |queue| <= MAX_QUEUE && NoDup(uids)
    ensures var (queue', rejected) := Pass(queue, uids, maxBatch);
      && queue <= queue'
      && InQueue(queue'[|queue|..], u) + multiset(rejected)[u] == if u in uids then 1 else 0
  {
    var (queue', rejected) := Pass(queue, uids, maxBatch);
    PassSplits(queue, uids, maxBatch);
    FlattenCounts(queue'[|queue|..], u);
    NoDupCounts(uids, u);
    assert multiset(uids) == multiset(Flatten(queue'[|queue|..])) + multiset(rejected);
  }

  /** The shards after marking every uid of a list. */
  ghost function MarkAll(shards: seq<set<Uid>>, uids: seq<Uid>): (r: seq<set<Uid>>)
    requires |shards| == SHARDS
    ensures |r| == SHARDS
    decreases |uids|
  {
    if uids == [] then shards
    else
      var k := ShardOf(uids[0]);
      MarkAll(shards[k := shards[k] + {uids[0]}], uids[1..])
  }

  lemma {:induction false} MarkAllConcat(shards: seq<set<Uid>>, a: seq<Uid>, b: seq<Uid>)
    requires |shards| == SHARDS
    ensures MarkAll(shards, a + b) == MarkAll(MarkAll(shards, a), b)
    decreases |a|
  {
    if a == [] {
      assert a + b == b;
    } else {
      var k := ShardOf(a[0]);
      assert (a + b)[1..] == a[1..] + b;
      MarkAllConcat(shards[k := shards[k] + {a[0]}], a[1..], b);
    }
  }

  /** Marking a list makes exactly its uids dirty, besides those that were. */
  lemma {:induction false} MarkAllDirty(shards: seq<set<Uid>>, uids: seq<Uid>, u: Uid)
    requires |shards| == SHARDS
    ensures Dirty(MarkAll(shards, uids), u) <==> Dirty(shards, u) || u in uids
    decreases |uids|
  {
    if uids != [] {
      var k := ShardOf(uids[0]);
      MarkAllDirty(shards[k := shards[k] + {uids[0]}], uids[1..], u);
    }
  }

  // ---------------------------------------------------------------- the class

  class StorageSystem {
    const dirty: DirtyHub
    const maxBatchUids: nat
    var started: bool

    var queue: seq<Job>

    var rtQ: seq<Snapshot>
    var rtLocal: seq<Snapshot>
    var rtPending: nat
    var snap: seq<Snapshot>

    var redisCtx: bool
    var mysqlCtx: bool
    // the contents of the two servers
    var redis: Store
    var mysql: Store

    ghost predicate Valid()
      reads this, dirty, dirty.shards
    {
      dirty.Valid() && maxBatchUids < SIZE_T && |queue| <= MAX_QUEUE
    }

    ghost function View(): Db
      reads this
    {
      Db(rtQ, rtLocal, rtPending, redisCtx, mysqlCtx, redis, mysql)
    }

    constructor (maxBatchUids: nat, redis: Store, mysql: Store)
      requires maxBatchUids < SIZE_T
      ensures Valid() && fresh(dirty) && fresh(dirty.shards)
      ensures View() == Db([], [], 0, false, false, redis, mysql) && queue == [] && !started
      ensures this.maxBatchUids == maxBatchUids && dirty.shards[..] == NoneDirty()
    {
      this.maxBatchUids := maxBatchUids;
      this.redis, this.mysql := redis, mysql;
      dirty := new DirtyHub();
      started, queue := false, [];
      rtQ, rtLocal, rtPending, snap := [], [], 0, [];
      redisCtx, mysqlCtx := false, false;
    }

    // ---- field threads

    method EnqueueRtWrite(s: Snapshot)
      modifies this`rtQ, this`rtPending
      ensures View() == CountedDb(EnqueuedDb(old(View()), s))
      ensures rtQ == old(rtQ) + [s] && rtPending == (old(rtPending) + 1) % 0x1_0000_0000
    {
      rtQ := rtQ + [s];
      rtPending := (rtPending + 1) % UINT32;
    }

    // ---- DB thread

    method DisconnectDb()
      modifies this`redisCtx, this`mysqlCtx
      ensures View() == old(View()).Disconnected()
      ensures !redisCtx && !mysqlCtx
    {
      if redisCtx { redisCtx := false; }
      if mysqlCtx { mysqlCtx := false; }
    }

    method ConnectDb(a: Attempt)
      modifies this`redisCtx, this`mysqlCtx
      ensures View() == old(View()).(
        redisUp := if old(View()).Up() then true else a.Works(),
        mysqlUp := if old(View()).Up() || a.Works() then true
                   else if a.redis then false else old(View()).mysqlUp)
    {
      if redisCtx && mysqlCtx { return; }
      redisCtx := a.redis;
      if !redisCtx { return; }
      mysqlCtx := a.mysqlInit;
      if !mysqlCtx {
        DisconnectDb();
        return;
      }
      if !a.mysqlConnect {
        DisconnectDb();
        return;
      }
    }

    /** Afterwards the connections are both up or both down. */
    method EnsureConnected(a: Attempt) returns (ok: bool)
      modifies this`redisCtx, this`mysqlCtx
      ensures View() == ConnectedDb(old(View()), ConnectResult(old(View()), a))
      ensures ok == redisCtx == mysqlCtx
      ensures ok <==> old(redisCtx && mysqlCtx) || (a.redis && a.mysqlInit && a.mysqlConnect)
    {
      if redisCtx && mysqlCtx { return true; }
      DisconnectDb();
      ConnectDb(a);
      return redisCtx && mysqlCtx;
    }

    method WriteUsersRtOnly(rows: seq<Snapshot>, b: Batch) returns (ok: bool)
      modifies this`redis
      ensures redis == ApplyAll(old(redis), rows[..Applied(b, |rows|)])
      ensures ok == b.Works?
    {
      var n := Applied(b, |rows|);
      for i := 0 to n
        invariant redis == ApplyAll(old(redis), rows[..i])
      {
        assert rows[..i + 1][..i] == rows[..i];
        redis := redis[rows[i].uid := rows[i]];
      }
      return b.Works?;
    }

    method FlushRtWrites(b: Batch)
      modifies this`rtQ, this`rtLocal, this`rtPending, this`redis, this`redisCtx, this`mysqlCtx
      ensures old(redisCtx) ==> View() == FlushedDb(old(View()), b)
      ensures !old(redisCtx) ==>
        View() == if old(rtQ) == [] then SwappedDb(old(View())) else SubtractedDb(SwappedDb(old(View())))
      ensures rtQ == [] && rtLocal == old(rtQ)
      ensures rtPending == (old(rtPending) + 0x1_0000_0000 - |old(rtQ)| % 0x1_0000_0000) % 0x1_0000_0000 || old(rtQ) == []
      ensures old(redisCtx) && old(rtQ) != [] && !b.Works? ==> !redisCtx && !mysqlCtx
      ensures !old(redisCtx) || old(rtQ) == [] || b.Works? ==> redisCtx == old(redisCtx) && mysqlCtx == old(mysqlCtx)
    {
      rtLocal := [];
      if rtQ == [] { return; }
      rtLocal, rtQ := rtQ, rtLocal;
      rtPending := (rtPending + UINT32 - |rtLocal| % UINT32) % UINT32;
      if !redisCtx { return; }
      var ok := WriteUsersRtOnly(rtLocal, b);
      if !ok {
        DisconnectDb();
        return;
      }
      assert rtLocal[..|rtLocal|] == rtLocal;
    }

    method FetchUsers(uids: Job, works: bool) returns (ok: bool)
      modifies this`snap
      ensures ok == works
      ensures ok ==> snap == Rows(redis, uids)
    {
      snap := [];
      if !works { return false; }
      for i := 0 to |uids|
        invariant snap + Rows(redis, uids[i..]) == Rows(redis, uids)
      {
        assert uids[i..][1..] == uids[i + 1..];
        if uids[i] in redis {
          snap := snap + [redis[uids[i]]];
        }
      }
      assert uids[|uids|..] == [];
      return true;
    }

    method CallSpUpsertUserStateBatch(b: Batch) returns (ok: bool)
      modifies this`mysql
      ensures mysql == ApplyAll(old(mysql), snap[..Applied(b, |snap|)])
      ensures ok == b.Works?
    {
      var n := Applied(b, |snap|);
      for i := 0 to n
        invariant mysql == ApplyAll(old(mysql), snap[..i])
      {
        assert snap[..i + 1][..i] == snap[..i];
        mysql := mysql[snap[i].uid := snap[i]];
      }
      return b.Works?;
    }

    method HandleDbJob(job: Job, o: Outcomes)
      modifies this`rtQ, this`rtLocal, this`rtPending, this`redis, this`redisCtx, this`mysqlCtx, this`mysql, this`snap
      ensures View() == HandledDb(old(View()), job, o)
      ensures var reached := old(redisCtx && mysqlCtx) || (o.connect.redis && o.connect.mysqlInit && o.connect.mysqlConnect);
        var again := old(rtQ) == [] || o.write.Works? || (o.reconnect.redis && o.reconnect.mysqlInit && o.reconnect.mysqlConnect);
        var found := exists u :: u in job && u in redis;
        && (redisCtx && mysqlCtx <==> reached && again && (job == [] || (o.fetch && (!found || o.upsert.Works?))))
        && (!reached ==> rtQ == old(rtQ) && rtPending == old(rtPending) && redis == old(redis) && mysql == old(mysql))
        && (reached ==> rtQ == [] && rtLocal == old(rtQ))
        && (mysql != old(mysql) ==> reached && again && o.fetch && found)
    {
      var ok := EnsureConnected(o.connect);
      if !ok { return; }
      FlushRtWrites(o.write);
      ok := EnsureConnected(o.reconnect);
      if !ok { return; }
      if job == [] { return; }
      RowsFound(redis, job);
      ok := FetchUsers(job, o.fetch);
      if !ok {
        DisconnectDb();
        return;
      }
      if snap == [] { return; }
      ok := CallSpUpsertUserStateBatch(o.upsert);
      if !ok {
        DisconnectDb();
        return;
      }
    }

    // ---- job queue and timer

    method TryPushJob(job: Job) returns (ok: bool)
      modifies this`queue
      ensures (queue, ok) == TryPush(old(queue), job)
      ensures ok <==> |old(queue)| < 360
      ensures queue == if ok then old(queue) + [job] else old(queue)
    {
      if |queue| >= MAX_QUEUE { return false; }
      queue := queue + [job];
      return true;
    }

    method Remark(uids: seq<Uid>, i: nat, end: nat)
      requires dirty.Valid() && i <= end <= |uids|
      modifies dirty.shards
      ensures dirty.Valid() && dirty.shards[..] == MarkAll(old(dirty.shards[..]), uids[i..end])
    {
      for k := i to end
        invariant dirty.Valid() && dirty.shards[..] == MarkAll(old(dirty.shards[..]), uids[i..k])
      {
        assert uids[i..k + 1] == uids[i..k] + [uids[k]];
        MarkAllConcat(old(dirty.shards[..]), uids[i..k], [uids[k]]);
        dirty.MarkDirty(uids[k]);
      }
    }

    /** Pushes one batch, or marks its uids again. */
    method PushOrRemark(uids: seq<Uid>, i: nat, end: nat) returns (ghost back: seq<Uid>)
      requires Valid() && i <= end <= |uids|
      modifies this`queue, dirty.shards
      ensures Valid()
      ensures queue == TryPush(old(queue), uids[i..end]).0
      ensures back == if TryPush(old(queue), uids[i..end]).1 then [] else uids[i..end]
      ensures dirty.shards[..] == MarkAll(old(dirty.shards[..]), back)
    {
      back := [];
      var ok := TryPushJob(uids[i..end]);
      if !ok {
        Remark(uids, i, end);
        back := uids[i..end];
      }
    }

    /** The batching loop, with size_t arithmetic: the index never wraps before the loop ends. */
    method PushInTurn(uids: seq<Uid>)
      requires Valid() && |uids| <= MAX_VECTOR
      modifies this`queue, dirty.shards
      ensures Valid()
      ensures var pass := Pass(old(queue), uids, MaxBatch(maxBatchUids));
        queue == pass.0 && dirty.shards[..] == MarkAll(old(dirty.shards[..]), pass.1)
    {
      var maxBatch := MaxBatch(maxBatchUids);
      ghost var start := (queue, dirty.shards[..]);
      ghost var back: seq<Uid> := [];
      var i := 0;
      HalfwayStarts(start, uids, maxBatch);
      while i < |uids|
        invariant Valid()
        invariant i == 0 || maxBatch <= i
        invariant Halfway(start, back, queue, dirty.shards[..], uids, i, maxBatch)
        decreases |uids| - i
      {
        HalfwayTurns(start, back, queue, dirty.shards[..], uids, i, maxBatch);
        ghost var again := PushOrRemark(uids, i, BatchEnd(|uids|, i, maxBatch));
        back := back + again;
        i := NextIndex(|uids|, i, maxBatch);
      }
      HalfwayEnds(start, back, queue, dirty.shards[..], uids, i, maxBatch);
    }

    method PushBatches(uids: seq<Uid>)
      requires Valid() && |uids| <= MAX_VECTOR
      modifies this`queue, dirty.shards
      ensures Valid()
      ensures var pass := Pass(old(queue), uids, MaxBatch(maxBatchUids));
        queue == pass.0 && dirty.shards[..] == MarkAll(old(dirty.shards[..]), pass.1)
      ensures Batched(old(queue), old(dirty.shards[..]), uids, maxBatchUids, queue, dirty.shards[..])
    {
      PassBatches(queue, dirty.shards[..], uids, maxBatchUids);
      PushInTurn(uids);
    }

    method OnTimer() returns (stolen: seq<Uid>)
      requires Valid()
      requires DirtyCount(dirty.shards[..], SHARDS) <= MAX_VECTOR
      modifies this`queue, dirty.shards
      ensures Valid()
      ensures !started ==> queue == old(queue) && dirty.shards[..] == old(dirty.shards[..]) && stolen == []
      ensures started ==> NoDup(stolen) && forall u :: u in stolen <==> Dirty(old(dirty.shards[..]), u)
      ensures started && stolen == [] ==>
        queue == if rtPending > 0 && |old(queue)| < 360 then old(queue) + [[]] else old(queue)
      ensures started && stolen != [] ==>
        var pass := Pass(old(queue), stolen, MaxBatch(maxBatchUids));
        queue == pass.0 && dirty.shards[..] == MarkAll(NoneDirty(), pass.1)
      ensures started && stolen != [] ==> Batched(old(queue), NoneDirty(), stolen, maxBatchUids, queue, dirty.shards[..])
    {
      stolen := [];
      if !started { return; }
      stolen := dirty.StealAll();
      if stolen == [] {
        if rtPending > 0 {
          var _ := TryPushJob([]);
        }
        return;
      }
      PushBatches(stolen);
    }
  }

  /** `i += maxBatch` in size_t arithmetic: below the vector bound it does not wrap. */
  function NextIndex(size: nat, i: nat, maxBatch: nat): (next: nat)
    requires i < size <= MAX_VECTOR && (i == 0 || maxBatch <= i) && 0 < maxBatch < SIZE_T
    ensures next == i + maxBatch
  {
    (i + maxBatch) % SIZE_T
  }

  function BatchEnd(size: nat, i: nat, maxBatch: nat): (end: nat)
    requires i < size <= MAX_VECTOR && (i == 0 || maxBatch <= i) && 0 < maxBatch < SIZE_T
    ensures end == Min(size, i + maxBatch)
  {
    Min(size, NextIndex(size, i, maxBatch))
  }

  /** The rest of a pass, from position i of the list. */
  ghost function PassFrom(queue: seq<Job>, uids: seq<Uid>, i: nat, maxBatch: nat): (seq<Job>, seq<Uid>)
    requires maxBatch > 0
  {
    Pass(queue, if i < |uids| then uids[i..] else [], maxBatch)
  }

  ghost function Resumed(back: seq<Uid>, rest: (seq<Job>, seq<Uid>)): (seq<Job>, seq<Uid>) {
    (rest.0, back + rest.1)
  }

  lemma ResumedConcat(a: seq<Uid>, b: seq<Uid>, rest: (seq<Job>, seq<Uid>))
    ensures Resumed(a + b, rest) == Resumed(a, Resumed(b, rest))
  {
    assert (a + b) + rest.1 == a + (b + rest.1);
  }

  /** One turn of the batching loop is one unfolding of Pass. */
  lemma StepOfPass(queue: seq<Job>, uids: seq<Uid>, i: nat, maxBatch: nat)
    requires maxBatch > 0 && i < |uids|
    ensures var end := EndOfBatch(uids, i, maxBatch);
      var (pushed, accepted) := TryPush(queue, uids[i..end]);
      PassFrom(queue, uids, i, maxBatch) ==
        Resumed(if accepted then [] else uids[i..end], PassFrom(pushed, uids, i + maxBatch, maxBatch))
  {
    var end := EndOfBatch(uids, i, maxBatch);
    assert uids[i..][..end - i] == uids[i..end];
    assert uids[i..][end - i..] == if end < |uids| then uids[end..] else [];
    var rest := PassFrom(TryPush(queue, uids[i..end]).0, uids, i + maxBatch, maxBatch);
    assert [] + rest.1 == rest.1;
  }

  /** Position i of the batching loop: what is left of the pass completes what was done. */
  ghost predicate Halfway(start: (seq<Job>, seq<set<Uid>>), back: seq<Uid>, queue: seq<Job>,
                          shards: seq<set<Uid>>, uids: seq<Uid>, i: nat, maxBatch: nat)
    requires |start.1| == SHARDS && maxBatch > 0
  {
    && PassFrom(start.0, uids, 0, maxBatch) == Resumed(back, PassFrom(queue, uids, i, maxBatch))
    && shards == MarkAll(start.1, back)
  }

  lemma HalfwayStarts(start: (seq<Job>, seq<set<Uid>>), uids: seq<Uid>, maxBatch: nat)
    requires |start.1| == SHARDS && maxBatch > 0
    ensures Halfway(start, [], start.0, start.1, uids, 0, maxBatch)
  {
    var pass := PassFrom(start.0, uids, 0, maxBatch);
    assert [] + pass.1 == pass.1;
  }

  lemma HalfwayTurns(start: (seq<Job>, seq<set<Uid>>), back: seq<Uid>, queue: seq<Job>,
                     shards: seq<set<Uid>>, uids: seq<Uid>, i: nat, maxBatch: nat)
    requires |start.1| == SHARDS && maxBatch > 0 && i < |uids|
    requires Halfway(start, back, queue, shards, uids, i, maxBatch)
    ensures var batch := uids[i..EndOfBatch(uids, i, maxBatch)];
      var (pushed, accepted) := TryPush(queue, batch);
      var again := if accepted then [] else batch;
      |shards| == SHARDS
      && Halfway(start, back + again, pushed, MarkAll(shards, again), uids, i + maxBatch, maxBatch)
  {
    StepOfPass(queue, uids, i, maxBatch);
    var batch := uids[i..EndOfBatch(uids, i, maxBatch)];
    var (pushed, accepted) := TryPush(queue, batch);
    var again := if accepted then [] else batch;
    ResumedConcat(back, again, PassFrom(pushed, uids, i + maxBatch, maxBatch));
    MarkAllConcat(start.1, back, again);
  }

  lemma HalfwayEnds(start: (seq<Job>, seq<set<Uid>>), back: seq<Uid>, queue: seq<Job>,
                    shards: seq<set<Uid>>, uids: seq<Uid>, i: nat, maxBatch: nat)
    requires |start.1| == SHARDS && maxBatch > 0 && i >= |uids|
    requires Halfway(start, back, queue, shards, uids, i, maxBatch)
    ensures Pass(start.0, uids, maxBatch) == (queue, back) && shards == MarkAll(start.1, back)
  {
    assert uids[0..] == uids;
    assert back + [] == back;
  }

  // ---------------------------------------------------------------- the code runs the machine

  ghost predicate AllWork(o: Outcomes) {
    o.connect.Works() && o.write.Works? && o.reconnect.Works() && o.fetch && o.upsert.Works?
  }

  /** Only the DB thread's part of the state differs. */
  ghost predicate SameOthers(s: State, s': State) {
    s' == s.(db := s'.db, worker := s'.worker, lost := s'.lost, unmarked := s'.unmarked, acc := s'.acc)
  }

  lemma FlushIsRun(s: State, b: Batch) returns (steps: seq<Step>)
    requires s.worker.Swapping? && s.db.Up()
    ensures ValidRun(s, steps)
    ensures var s' := Run(s, steps);
      s'.db == FlushedDb(s.db, b) && s'.worker == Reconnecting(s.worker.job) && SameOthers(s, s')
    ensures b.Works? ==> FailureFree(steps)
  {
    steps := [];
    RunSnoc(s, steps, Swap);
    steps := steps + [Swap];
    if s.db.rtQ != [] {
      RunSnoc(s, steps, Subtract);
      steps := steps + [Subtract];
      var write := Write(Applied(b, |s.db.rtQ|), b.Works?);
      RunSnoc(s, steps, write);
      steps := steps + [write];
    }
  }

  lemma StoreIsRun(s: State, o: Outcomes) returns (steps: seq<Step>)
    requires s.worker.Reconnecting?
    ensures ValidRun(s, steps)
    ensures var s' := Run(s, steps);
      s'.db == StoredDb(s.db, s.worker.job, o) && s'.worker.Parked? && SameOthers(s, s')
    ensures AllWork(o) ==> FailureFree(steps)
  {
    var job, ok := s.worker.job, ConnectResult(s.db, o.reconnect);
    steps := [];
    RunSnoc(s, steps, Reconnect(ok));
    steps := steps + [Reconnect(ok)];
    if ok && job != [] {
      RunSnoc(s, steps, Fetch(o.fetch));
      steps := steps + [Fetch(o.fetch)];
      var rows := Rows(s.db.redis, job);
      if o.fetch && rows != [] {
        var upsert := Upsert(Applied(o.upsert, |rows|), o.upsert.Works?);
        RunSnoc(s, steps, upsert);
        steps := steps + [upsert];
      }
    }
  }

  /** handle_db_job, run without interruption, is a run of the machine from the popped job to the
      parked worker, with the same database state at the end. */
  lemma JobIsRun(s: State, o: Outcomes) returns (steps: seq<Step>)
    requires s.worker.Connecting?
    ensures ValidRun(s, steps)
    ensures var s' := Run(s, steps);
      s'.db == HandledDb(s.db, s.worker.job, o) && s'.worker.Parked? && SameOthers(s, s')
    ensures AllWork(o) ==> FailureFree(steps)
  {
    var ok := ConnectResult(s.db, o.connect);
    RunSnoc(s, [], Connect(ok));
    steps := [] + [Connect(ok)];
    var s1 := Run(s, steps);
    if ok {
      var flush := FlushIsRun(s1, o.write);
      RunAppend(s, steps, flush);
      var store := StoreIsRun(Run(s1, flush), o);
      RunAppend(s, steps + flush, store);
      steps := steps + flush + store;
    }
  }

  /** One step of the machine's timer: the job is the next max_batch_uids uids, or what is left of the list,
      and it is refused exactly if 360 are queued. */
  lemma PushBatchStep(s: State)
    requires Enabled(s, PushBatch)
    ensures var s', uids, i := Apply(s, PushBatch), s.timer.uids, s.timer.i;
      var next := i + (if s.maxBatchUids == 0 then 1 else s.maxBatchUids);
      var end := if next < |uids| then next else |uids|;
      if |s.queue| < 360 then
        && s'.queue == s.queue + [uids[i..end]]
        && s'.timer == if next < |uids| then Batching(uids, next) else Resting
      else s'.queue == s.queue && s'.timer == Remarking(uids, i, end, i)
  {
  }

  ghost predicate TimerSteps(steps: seq<Step>) {
    forall i :: 0 <= i < |steps| ==> steps[i].PushBatch? || steps[i].Remark?
  }

  /** Only the timer's part of the state differs. */
  ghost predicate SameButTimer(s: State, s': State) {
    s' == s.(dirty := s'.dirty, timer := s'.timer, queue := s'.queue, unmarked := s'.unmarked, acc := s'.acc)
  }

  lemma {:induction false} RemarksAreRun(s: State) returns (steps: seq<Step>)
    requires |s.dirty| == SHARDS && s.timer.Remarking? && s.timer.k < s.timer.end <= |s.timer.uids|
    ensures ValidRun(s, steps) && TimerSteps(steps)
    ensures var s', t := Run(s, steps), s.timer;
      && SameButTimer(s, s') && s'.queue == s.queue
      && s'.timer == NextBatch(t.uids, t.i + MaxBatch(s.maxBatchUids))
      && s'.dirty == MarkAll(s.dirty, t.uids[t.k..t.end])
    decreases s.timer.end - s.timer.k
  {
    var s1, t := Apply(s, Step.Remark), s.timer;
    assert t.uids[t.k..t.end][1..] == t.uids[t.k + 1..t.end];
    var rest := [];
    if t.k + 1 < t.end {
      rest := RemarksAreRun(s1);
    }
    steps := [Step.Remark] + rest;
    assert steps[1..] == rest;
  }

  /** One batch: pushed, or every uid of it marked again. */
  lemma BatchIsRun(s: State) returns (steps: seq<Step>)
    requires |s.dirty| == SHARDS && s.timer.Batching? && s.timer.i < |s.timer.uids|
    ensures ValidRun(s, steps) && TimerSteps(steps)
    ensures RanBatch(s, Run(s, steps))
  {
    RunSnoc(s, [], PushBatch);
    steps := [] + [PushBatch];
    var s1 := Run(s, steps);
    if s1.timer.Remarking? {
      var remarks := RemarksAreRun(s1);
      RunAppend(s, steps, remarks);
      steps := steps + remarks;
    }
  }

  /** The batching loop, run without interruption, is a run of the timer's steps. */
  lemma {:induction false} PassIsRun(s: State) returns (steps: seq<Step>)
    requires |s.dirty| == SHARDS && s.timer.Batching? && s.timer.i < |s.timer.uids|
    ensures ValidRun(s, steps) && TimerSteps(steps)
    ensures RanPass(s, Run(s, steps))
    decreases |s.timer.uids| - s.timer.i
  {
    steps := BatchIsRun(s);
    var s1 := Run(s, steps);
    if s1.timer.Batching? {
      var more := PassIsRun(s1);
      RunAppend(s, steps, more);
      RanPassOn(s, s1, Run(s1, more));
      steps := steps + more;
    } else {
      RanPassOn(s, s1, s1);
    }
  }

  ghost predicate RanBatch(s: State, s': State)
    requires |s.dirty| == SHARDS && s.timer.Batching? && s.timer.i < |s.timer.uids|
  {
    var t, maxBatch := s.timer, MaxBatch(s.maxBatchUids);
    var batch := t.uids[t.i..EndOfBatch(t.uids, t.i, maxBatch)];
    var (pushed, accepted) := TryPush(s.queue, batch);
    && SameButTimer(s, s') && s'.timer == NextBatch(t.uids, t.i + maxBatch) && s'.queue == pushed
    && s'.dirty == MarkAll(s.dirty, if accepted then [] else batch)
  }

  ghost predicate RanPass(s: State, s': State)
    requires |s.dirty| == SHARDS && s.timer.Batching?
  {
    var pass := PassFrom(s.queue, s.timer.uids, s.timer.i, MaxBatch(s.maxBatchUids));
    && SameButTimer(s, s') && s'.timer.Resting? && s'.queue == pass.0
    && s'.dirty == MarkAll(s.dirty, pass.1)
  }

  lemma RanPassOn(s: State, s1: State, s': State)
    requires |s.dirty| == SHARDS && s.timer.Batching? && s.timer.i < |s.timer.uids|
    requires RanBatch(s, s1)
    requires if s1.timer.Batching? then RanPass(s1, s') else s' == s1
    ensures RanPass(s, s')
  {
    var uids, i, maxBatch := s.timer.uids, s.timer.i, MaxBatch(s.maxBatchUids);
    var batch := uids[i..EndOfBatch(uids, i, maxBatch)];
    var back := if TryPush(s.queue, batch).1 then [] else batch;
    var rest := PassFrom(s1.queue, uids, i + maxBatch, maxBatch);
    StepOfPass(s.queue, uids, i, maxBatch);
    MarkAllConcat(s.dirty, back, rest.1);
  }
}
